/** The marked block in a `.env` file: `_lines`, `_bare`, `find_block`, `_ASSIGN`, `_unquote`,
    `_outside` and `splice` of deploy/auto_size.py. The block to write is given as its lines. */
module EnvBlock {
  import opened Wrappers
  import opened Text

  const BLOCK_START: string := "# >>> aizzak auto-size >>>"
  const BLOCK_END: string := "# <<< aizzak auto-size <<<"

  // ------------------------------------------------------------------ lines

  /** Past the first line feed, or the end. */
  function LineEnd(text: string): (r: nat)
    requires text != ""
    ensures 1 <= r <= |text|
    ensures forall i :: 0 <= i < r - 1 ==> text[i] != '\n'
    ensures r < |text| ==> text[r - 1] == '\n'
  {
    if text[0] == '\n' || |text| == 1 then 1 else 1 + LineEnd(text[1..])
  }

  /** `_lines`: line ends are kept. */
  function Lines(text: string): seq<string> {
    if text == "" then [] else [text[..LineEnd(text)]] + Lines(text[LineEnd(text)..])
  }

  /** `_bare`. */
  function Bare(line: string): (r: string)
    ensures |r| <= |line| && r == line[..|r|]
    ensures forall i :: |r| <= i < |line| ==> line[i] in "\r\n"
    ensures r != "" ==> r[|r| - 1] !in "\r\n"
  {
    if line != "" && line[|line| - 1] in "\r\n" then Bare(line[..|line| - 1]) else line
  }

  // ------------------------------------------------------------------ the block

  datatype Refusal =
    | Malformed(starts: nat, ends: nat)
    | Reversed(start: nat, end: nat)
    | Conflict(line: nat)

  datatype Span = Span(start: nat, end: nat)

  /** The indexes of the lines that are the marker. */
  function Places(lines: seq<string>, marker: string): (r: seq<nat>)
    ensures forall k :: 0 <= k < |r| ==> r[k] < |lines|
  {
    if lines == [] then []
    else Places(lines[..|lines| - 1], marker)
         + if Bare(lines[|lines| - 1]) == marker then [|lines| - 1] else []
  }

  /** `find_block`, on lines. */
  function FindBlock(lines: seq<string>): (r: Result<Option<Span>, Refusal>)
    ensures r.Ok? && r.value.Some? ==> r.value.value.start <= r.value.value.end < |lines|
  {
    var starts := Places(lines, BLOCK_START);
    var ends := Places(lines, BLOCK_END);
    if starts == [] && ends == [] then Ok(None)
    else if |starts| != 1 || |ends| != 1 then Err(Malformed(|starts|, |ends|))
    else if ends[0] < starts[0] then Err(Reversed(starts[0] + 1, ends[0] + 1))
    else Ok(Some(Span(starts[0], ends[0])))
  }

  // ------------------------------------------------------------------ assignments

  predicate IsLetter(c: char) {
    'a' <= c <= 'z' || 'A' <= c <= 'Z' || c == '_'
  }

  predicate IsName(text: string) {
    text != "" && IsLetter(text[0]) && forall i :: 0 <= i < |text| ==> IsLetter(text[i]) || IsDigit(text[i])
  }

  /** The length of the longest run of name characters. */
  function NameRun(text: string): (r: nat)
    ensures r <= |text|
    ensures forall i :: 0 <= i < r ==> IsLetter(text[i]) || IsDigit(text[i])
    ensures r < |text| ==> !IsLetter(text[r]) && !IsDigit(text[r])
  {
    if text == "" || !(IsLetter(text[0]) || IsDigit(text[0])) then 0 else 1 + NameRun(text[1..])
  }

  datatype Assignment = Assignment(key: string, raw: string)

  /** A name, blanks, `=` or `:`, and the rest. */
  function AssignHere(text: string): Option<Assignment> {
    var name := text[..NameRun(text)];
    var after := StripLeft(text[NameRun(text)..]);
    if IsName(name) && after != "" && after[0] in "=:" then Some(Assignment(name, after[1..]))
    else None
  }

  /** `_ASSIGN` on a bare line: after `export` when that leaves an assignment, and without it otherwise. */
  function Assign(bare: string): Option<Assignment> {
    var text := StripLeft(bare);
    var exported :=
      if |text| > 6 && text[..6] == "export" && IsSpace(text[6]) then AssignHere(StripLeft(text[6..]))
      else None;
    if exported.Some? then exported else AssignHere(text)
  }

  /** Where the first " #" begins, or the end. */
  function FindComment(text: string): (r: nat)
    ensures r <= |text|
  {
    if text == "" then 0
    else if |text| >= 2 && text[0] == ' ' && text[1] == '#' then 0
    else 1 + FindComment(text[1..])
  }

  /** `_unquote`. */
  function Unquote(raw: string): string {
    var value := StripLeft(raw);
    if value != "" && value[0] in "'\"" && IndexOf(value[1..], value[0]) < |value| - 1 then
      value[1..1 + IndexOf(value[1..], value[0])]
    else Strip(value[..FindComment(value)])
  }

  // ------------------------------------------------------------------ splice

  /** `line.partition("=")[0]`. */
  function KeyOf(line: string): string {
    line[..IndexOf(line, '=')]
  }

  /** What follows the first equals sign. */
  function ValueIn(line: string): string {
    var at := IndexOf(line, '=');
    if at < |line| then line[at + 1..] else ""
  }

  predicate IsSetting(line: string) {
    line != "" && line[0] != '#'
  }

  /** The keys the block sets. */
  function Keys(block: seq<string>): set<string> {
    set i | 0 <= i < |block| && IsSetting(block[i]) :: KeyOf(block[i])
  }

  predicate Outside(span: Option<Span>, i: int) {
    span == None || !(span.value.start <= i <= span.value.end)
  }

  /** What each line assigns. */
  function Reads(lines: seq<string>): (r: seq<Option<Assignment>>)
    ensures |r| == |lines|
    ensures forall i :: 0 <= i < |lines| ==> r[i] == Assign(Bare(lines[i]))
  {
    seq(|lines|, i requires 0 <= i < |lines| => Assign(Bare(lines[i])))
  }

  predicate Before(span: Option<Span>, i: int) {
    span == None || i < span.value.start
  }

  /** The line sets a key of the block and is not the untouched default before it. */
  predicate Conflicts(line: Option<Assignment>, before: bool, keys: set<string>,
                      template: map<string, string>) {
    && line.Some? && line.value.key in keys
    && !(before && line.value.key in template && Unquote(line.value.raw) == template[line.value.key])
  }

  /** The first line outside the block that conflicts. */
  function FirstConflict(lines: seq<Option<Assignment>>, span: Option<Span>, keys: set<string>,
                         template: map<string, string>, i: nat): (r: Option<nat>)
    requires i <= |lines|
    decreases |lines| - i
  {
    if i == |lines| then None
    else if Outside(span, i) && Conflicts(lines[i], Before(span, i), keys, template) then Some(i)
    else FirstConflict(lines, span, keys, template, i + 1)
  }

  /** `"\r\n" in text`. */
  predicate HasCrlf(text: string) {
    exists i :: 0 <= i < |text| - 1 && text[i] == '\r' && text[i + 1] == '\n'
  }

  function Eol(text: string): (r: string)
    ensures r == "\n" || r == "\r\n"
  {
    if HasCrlf(text) then "\r\n" else "\n"
  }

  /** The block with the file's own line end. */
  function Ended(block: seq<string>, eol: string): (r: seq<string>)
    ensures |r| == |block|
  {
    seq(|block|, i requires 0 <= i < |block| => block[i] + eol)
  }

  function RemoveSuffix(text: string, suffix: string): string {
    if EndsWith(text, suffix) then text[..|text| - |suffix|] else text
  }

  /** The glue before an appended block. */
  function Glue(text: string): (r: string)
    ensures r == "" || r == Eol(text)
  {
    if text == "" || text[|text| - 1] == '\n' then "" else Eol(text)
  }

  /** The end of `splice`. */
  function Written(text: string, block: seq<string>, span: Option<Span>): string
    requires span.Some? ==> span.value.start <= span.value.end < |Lines(text)|
  {
    var lines := Lines(text);
    var added := Concat(Ended(block, Eol(text)));
    match span
    case None => text + Glue(text) + added
    case Some(s) =>
      var block' := if EndsWith(lines[s.end], "\n") then added else RemoveSuffix(added, Eol(text));
      Concat(lines[..s.start]) + block' + Concat(lines[s.end + 1..])
  }

  lemma {:induction false} PlacesAre(lines: seq<string>, marker: string)
    ensures forall i: nat :: i in Places(lines, marker) <==> i < |lines| && Bare(lines[i]) == marker
    ensures forall a, b :: 0 <= a < b < |Places(lines, marker)| ==>
              Places(lines, marker)[a] < Places(lines, marker)[b]
  {
    if lines != [] {
      PlacesAre(lines[..|lines| - 1], marker);
    }
  }

  /** `splice`. */
  function Splice(text: string, block: seq<string>, template: map<string, string>)
    : Result<string, Refusal>
  {
    match FindBlock(Lines(text))
    case Err(refusal) => Err(refusal)
    case Ok(span) =>
      Checked(text, block, span, FirstConflict(Reads(Lines(text)), span, Keys(block), template, 0))
  }

  function Checked(text: string, block: seq<string>, span: Option<Span>, conflict: Option<nat>)
    : Result<string, Refusal>
    requires span.Some? ==> span.value.start <= span.value.end < |Lines(text)|
  {
    match conflict
    case Some(i) => Err(Conflict(i + 1))
    case None => Ok(Written(text, block, span))
  }

  method CheckOutside(settings: seq<Option<Assignment>>, span: Option<Span>, keys: set<string>,
                      template: map<string, string>)
    returns (conflict: Option<nat>)
    ensures conflict == FirstConflict(settings, span, keys, template, 0)
  {
    for i := 0 to |settings|
      invariant FirstConflict(settings, span, keys, template, 0)
             == FirstConflict(settings, span, keys, template, i)
    {
      if !Outside(span, i) || settings[i].None? || settings[i].value.key !in keys {
        continue;
      }
      var key := settings[i].value.key;
      if Before(span, i) && key in template && Unquote(settings[i].value.raw) == template[key] {
        continue;
      }
      return Some(i);
    }
    conflict := None;
  }

  method SpliceText(text: string, block: seq<string>, template: map<string, string>)
    returns (r: Result<string, Refusal>)
    ensures r == Splice(text, block, template)
  {
    var lines := Lines(text);
    var found := FindBlock(lines);
    if found.Err? {
      return Err(found.error);
    }
    var conflict := CheckOutside(Reads(lines), found.value, Keys(block), template);
    r := Checked(text, block, found.value, conflict);
  }
}
