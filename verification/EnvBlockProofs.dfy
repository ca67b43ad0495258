/** What `splice` promises: the rest of the file is left alone, the block wins, and doing it twice is
    doing it once, except after a lone carriage return. */
module EnvBlockProofs {
  import opened Wrappers
  import opened Text
  import opened EnvBlock

  // ------------------------------------------------------------------ text and lines

  predicate Closed(line: string) {
    line != "" && line[|line| - 1] == '\n'
  }

  predicate IsLine(line: string) {
    line != "" && forall i :: 0 <= i < |line| - 1 ==> line[i] != '\n'
  }

  /** Lines as `_lines` cuts them: only the last may lack its line feed. */
  predicate LineList(lines: seq<string>) {
    forall i :: 0 <= i < |lines| ==> IsLine(lines[i]) && (i < |lines| - 1 ==> Closed(lines[i]))
  }

  /** Cutting a text into lines loses nothing, and every piece is a line. */
  lemma {:induction false} ConcatOfLines(text: string)
    ensures Concat(Lines(text)) == text && LineList(Lines(text))
  {
    ConcatIsText(text);
    CutIntoLines(text);
  }

  lemma {:induction false} ConcatIsText(text: string)
    ensures Concat(Lines(text)) == text
    decreases |text|
  {
    if text != "" {
      var end := LineEnd(text);
      ConcatIsText(text[end..]);
      assert Lines(text) == [text[..end]] + Lines(text[end..]);
      assert text[..end] + text[end..] == text;
    }
  }

  lemma {:induction false} CutIntoLines(text: string)
    ensures LineList(Lines(text))
    decreases |text|
  {
    if text != "" {
      var end := LineEnd(text);
      CutIntoLines(text[end..]);
      assert Lines(text) == [text[..end]] + Lines(text[end..]);
      assert IsLine(text[..end]);
      assert end == |text| ==> Lines(text[end..]) == [];
    }
  }

  lemma FirstLine(line: string, rest: string)
    requires IsLine(line) && (Closed(line) || rest == "")
    ensures LineEnd(line + rest) == |line|
  {
    var text := line + rest;
    assert forall i :: 0 <= i < |line| ==> text[i] == line[i];
    var end := LineEnd(text);
    assert end >= |line|;
  }

  lemma {:induction false} LinesOfConcat(lines: seq<string>)
    requires LineList(lines)
    ensures Lines(Concat(lines)) == lines
    decreases |lines|
  {
    if lines != [] {
      assert LineList(lines[1..]) by {
        assert forall i :: 0 <= i < |lines[1..]| ==> lines[1..][i] == lines[i + 1];
      }
      LinesOfConcat(lines[1..]);
      var rest := Concat(lines[1..]);
      FirstLine(lines[0], rest);
      assert (lines[0] + rest)[..|lines[0]|] == lines[0];
      assert (lines[0] + rest)[|lines[0]|..] == rest;
    }
  }

  lemma {:induction false} ConcatOfSum(a: seq<string>, b: seq<string>)
    ensures Concat(a + b) == Concat(a) + Concat(b)
    decreases |a|
  {
    if a == [] {
      assert a + b == b;
    } else {
      assert (a + b)[1..] == a[1..] + b;
      ConcatOfSum(a[1..], b);
    }
  }

  predicate EndsCrlf(line: string) {
    |line| >= 2 && line[|line| - 2] == '\r' && line[|line| - 1] == '\n'
  }

  predicate AnyCrlf(lines: seq<string>) {
    exists i :: 0 <= i < |lines| && EndsCrlf(lines[i])
  }

  lemma CrlfOfFirst(line: string, rest: string)
    requires IsLine(line) && (Closed(line) || rest == "")
    ensures HasCrlf(line + rest) <==> EndsCrlf(line) || HasCrlf(rest)
  {
    var text := line + rest;
    if HasCrlf(text) {
      var i :| 0 <= i < |text| - 1 && text[i] == '\r' && text[i + 1] == '\n';
      if i >= |line| {
        assert rest[i - |line|] == '\r' && rest[i - |line| + 1] == '\n';
      } else if i + 1 < |line| {
        assert line[i + 1] == '\n';
      }
    }
    if EndsCrlf(line) {
      assert text[|line| - 2] == '\r' && text[|line| - 2 + 1] == '\n';
    }
    if HasCrlf(rest) {
      var i :| 0 <= i < |rest| - 1 && rest[i] == '\r' && rest[i + 1] == '\n';
      assert text[|line| + i] == '\r' && text[|line| + i + 1] == '\n';
    }
  }

  /** A carriage return and line feed can only stand at the end of a line. */
  lemma {:induction false} CrlfOfLines(lines: seq<string>)
    requires LineList(lines)
    ensures HasCrlf(Concat(lines)) <==> AnyCrlf(lines)
    decreases |lines|
  {
    if lines != [] {
      assert LineList(lines[1..]) by {
        assert forall i :: 0 <= i < |lines[1..]| ==> lines[1..][i] == lines[i + 1];
      }
      CrlfOfLines(lines[1..]);
      CrlfOfFirst(lines[0], Concat(lines[1..]));
      if AnyCrlf(lines[1..]) {
        var i :| 0 <= i < |lines[1..]| && EndsCrlf(lines[1..][i]);
        assert EndsCrlf(lines[i + 1]);
      }
      if AnyCrlf(lines) {
        var i :| 0 <= i < |lines| && EndsCrlf(lines[i]);
        assert i > 0 ==> EndsCrlf(lines[1..][i - 1]);
      }
    }
  }

  predicate IsEol(eol: string) {
    eol == "\n" || eol == "\r\n"
  }

  /** Line ends do not count for `_bare`. */
  lemma BareWithEnd(line: string, eol: string)
    requires IsEol(eol) || eol == ""
    ensures Bare(line + eol) == Bare(line)
    ensures (line == "" || line[|line| - 1] !in "\r\n") ==> Bare(line) == line
  {
    var long := line + eol;
    if eol == "\r\n" {
      assert long[..|long| - 1] == line + "\r";
      assert (line + "\r")[..|line|] == line;
    } else if eol == "\n" {
      assert long[..|long| - 1] == line;
    } else {
      assert long == line;
    }
  }

  // ------------------------------------------------------------------ the block to write

  predicate BreaksLine(c: char) {
    c in "\n\r" || c == '\U{B}' || c == '\U{C}' || '\U{1C}' <= c <= '\U{1E}' || c == '\U{85}'
    || c == '\U{2028}' || c == '\U{2029}'
  }

  predicate GoodLine(line: string) {
    && line != ""
    && (forall i :: 0 <= i < |line| ==> !BreaksLine(line[i]))
    && (IsSetting(line) ==> IsName(KeyOf(line)) && |KeyOf(line)| < |line|)
  }

  predicate GoodAt(block: seq<string>, i: nat)
    requires i < |block|
  {
    && GoodLine(block[i])
    && (block[i] == BLOCK_START <==> i == 0)
    && (block[i] == BLOCK_END <==> i == |block| - 1)
  }

  /** What `render_block` makes: the two markers around comments and `KEY=value` lines. */
  predicate GoodBlock(block: seq<string>) {
    |block| >= 2 && forall i: nat :: i < |block| ==> GoodAt(block, i)
  }

  lemma CommentIsGood(line: string)
    requires "#" <= line && forall i :: 0 <= i < |line| ==> !BreaksLine(line[i])
    ensures GoodLine(line)
  {
    assert line[0] == '#';
  }

  lemma GoodMarkers()
    ensures GoodLine(BLOCK_START) && GoodLine(BLOCK_END) && BLOCK_START != BLOCK_END
  {
    hide GoodLine;
    assert BLOCK_START[2] == '>' && BLOCK_END[2] == '<';
    CommentIsGood(BLOCK_START);
    CommentIsGood(BLOCK_END);
  }

  /** The smallest block that sets something. */
  lemma SettingBlock()
    ensures GoodBlock([BLOCK_START, "A=1", BLOCK_END])
  {
    GoodMarkers();
    var line := "A=1";
    assert KeyOf(line) == line[..1];
    assert line[..1][0] == 'A';
    assert BLOCK_START[0] == '#' && BLOCK_END[0] == '#';
    var block := [BLOCK_START, line, BLOCK_END];
    assert GoodAt(block, 0) && GoodAt(block, 1) && GoodAt(block, 2);
  }

  /** All that counts when lines are put together: nothing in a block line ends it early. */
  predicate Unbroken(block: seq<string>) {
    && block != []
    && (forall i :: 0 <= i < |block| ==>
          block[i] != "" && forall k :: 0 <= k < |block[i]| ==> block[i][k] !in "\r\n")
  }

  lemma GoodIsUnbroken(block: seq<string>)
    requires GoodBlock(block)
    ensures Unbroken(block)
  {
    forall i | 0 <= i < |block|
      ensures block[i] != "" && forall k :: 0 <= k < |block[i]| ==> block[i][k] !in "\r\n"
    {
      assert GoodAt(block, i);
    }
  }

  // ------------------------------------------------------------------ the result, line by line

  function NewBlock(block: seq<string>, eol: string, closed: bool): (r: seq<string>)
    requires block != []
    ensures |r| == |block|
  {
    if closed then Ended(block, eol)
    else Ended(block[..|block| - 1], eol) + [block[|block| - 1]]
  }

  function Glued(lines: seq<string>, glue: string): (r: seq<string>)
    requires glue != "" ==> lines != []
    ensures |r| == |lines|
  {
    if glue == "" then lines else lines[..|lines| - 1] + [lines[|lines| - 1] + glue]
  }

  predicate SpanIn(lines: seq<string>, span: Option<Span>) {
    span.Some? ==> span.value.start <= span.value.end < |lines|
  }

  function HeadOf(text: string, span: Option<Span>): seq<string>
    requires SpanIn(Lines(text), span)
  {
    if span.Some? then Lines(text)[..span.value.start] else Glued(Lines(text), Glue(text))
  }

  function TailOf(text: string, span: Option<Span>): seq<string>
    requires SpanIn(Lines(text), span)
  {
    if span.Some? then Lines(text)[span.value.end + 1..] else []
  }

  predicate ClosedAt(text: string, span: Option<Span>)
    requires SpanIn(Lines(text), span)
  {
    span.Some? ==> Closed(Lines(text)[span.value.end])
  }

  /** The lines of the result. */
  function Spliced(text: string, block: seq<string>, span: Option<Span>): seq<string>
    requires block != [] && SpanIn(Lines(text), span)
  {
    HeadOf(text, span) + NewBlock(block, Eol(text), ClosedAt(text, span)) + TailOf(text, span)
  }

  lemma EndedBlock(block: seq<string>, eol: string)
    requires IsEol(eol) && Unbroken(block)
    ensures Concat(NewBlock(block, eol, true)) == Concat(NewBlock(block, eol, false)) + eol
    ensures forall i :: 0 <= i < |block| ==>
              IsLine(block[i] + eol) && Closed(block[i] + eol) && IsLine(block[i])
  {
    var n := |block| - 1;
    assert Ended(block, eol) == Ended(block[..n], eol) + [block[n] + eol];
    ConcatOfSum(Ended(block[..n], eol), [block[n] + eol]);
    ConcatOfSum(Ended(block[..n], eol), [block[n]]);
    assert Concat([block[n] + eol]) == block[n] + eol + "" && Concat([block[n]]) == block[n] + "";
    forall i | 0 <= i < |block|
      ensures IsLine(block[i] + eol) && Closed(block[i] + eol) && IsLine(block[i])
    {
      var line := block[i] + eol;
      assert forall k :: 0 <= k < |block[i]| ==> line[k] == block[i][k] && block[i][k] !in "\r\n";
    }
  }

  lemma SuffixRemoved(text: string, eol: string)
    ensures RemoveSuffix(text + eol, eol) == text
  {
  }

  /** The text that is written is the spliced lines. */
  lemma WrittenIsSpliced(text: string, block: seq<string>, span: Option<Span>)
    requires Unbroken(block) && SpanIn(Lines(text), span)
    ensures Written(text, block, span) == Concat(Spliced(text, block, span))
  {
    ConcatOfLines(text);
    var lines, eol := Lines(text), Eol(text);
    EndedBlock(block, eol);
    var head, tail := HeadOf(text, span), TailOf(text, span);
    var middle := NewBlock(block, eol, ClosedAt(text, span));
    ConcatOfSum(head + middle, tail);
    ConcatOfSum(head, middle);
    if span.Some? {
      SuffixRemoved(Concat(NewBlock(block, eol, false)), eol);
    } else {
      GluedText(lines, Glue(text));
      assert Concat(tail) == "";
    }
  }

  lemma GluedText(lines: seq<string>, glue: string)
    requires glue != "" ==> lines != []
    ensures Concat(Glued(lines, glue)) == Concat(lines) + glue
  {
    if glue != "" {
      var n := |lines| - 1;
      assert lines == lines[..n] + [lines[n]];
      ConcatOfSum(lines[..n], [lines[n]]);
      ConcatOfSum(lines[..n], [lines[n] + glue]);
      assert Concat([lines[n] + glue]) == lines[n] + glue + "" && Concat([lines[n]]) == lines[n] + "";
    }
  }

  // ------------------------------------------------------------------ markers in the result

  lemma {:induction false} OnePlace(lines: seq<string>, marker: string, a: nat)
    requires forall j: nat :: j < |lines| ==> (Bare(lines[j]) == marker <==> j == a)
    ensures Places(lines, marker) == if a < |lines| then [a] else []
    decreases |lines|
  {
    if lines != [] {
      OnePlace(lines[..|lines| - 1], marker, a);
    }
  }

  lemma FoundAt(lines: seq<string>, start: nat, end: nat)
    requires start <= end < |lines|
    requires forall j: nat :: j < |lines| ==> Marked(Bare(lines[j]), j == start, j == end)
    ensures FindBlock(lines) == Ok(Some(Span(start, end)))
  {
    OnePlace(lines, BLOCK_START, start);
    OnePlace(lines, BLOCK_END, end);
  }

  /** What `find_block` tells about every line. */
  lemma MarkersOf(lines: seq<string>)
    requires FindBlock(lines).Ok?
    ensures var span := FindBlock(lines).value;
            forall j: nat :: j < |lines| ==>
              && (Bare(lines[j]) == BLOCK_START <==> span.Some? && j == span.value.start)
              && (Bare(lines[j]) == BLOCK_END <==> span.Some? && j == span.value.end)
  {
    PlacesAre(lines, BLOCK_START);
    PlacesAre(lines, BLOCK_END);
  }

  /** Where the block lies in the result. */
  function NewSpan(text: string, block: seq<string>, span: Option<Span>): Span
    requires block != [] && SpanIn(Lines(text), span)
  {
    Span(|HeadOf(text, span)|, |HeadOf(text, span)| + |block| - 1)
  }

  /** The line of the text that line `j` of the result comes from, when it is outside the block. */
  function SourceOf(text: string, block: seq<string>, span: Option<Span>, j: nat): int
    requires block != [] && SpanIn(Lines(text), span)
  {
    if span.None? || j < span.value.start then j
    else j - (span.value.start + |block|) + span.value.end + 1
  }

  lemma GluedAt(lines: seq<string>, glue: string, j: nat)
    requires j < |lines| && (glue == "" || IsEol(glue))
    ensures Bare(Glued(lines, glue)[j]) == Bare(lines[j])
  {
    BareWithEnd(lines[j], glue);
  }

  lemma HeadAt(text: string, span: Option<Span>, j: nat)
    requires SpanIn(Lines(text), span) && j < |HeadOf(text, span)|
    ensures Bare(HeadOf(text, span)[j]) == Bare(Lines(text)[j])
  {
    if span.None? {
      GluedAt(Lines(text), Glue(text), j);
    }
  }

  lemma MiddleAt(block: seq<string>, eol: string, closed: bool, i: nat)
    requires Unbroken(block) && i < |block| && IsEol(eol)
    ensures Bare(NewBlock(block, eol, closed)[i]) == block[i]
  {
    var line := NewBlock(block, eol, closed)[i];
    assert line == block[i] + eol || line == block[i];
    BareWithEnd(block[i], eol);
  }

  lemma ThreeParts<T>(a: seq<T>, b: seq<T>, c: seq<T>, j: nat)
    requires j < |a + b + c|
    ensures (a + b + c)[j] == if j < |a| then a[j] else if j < |a| + |b| then b[j - |a|]
                              else c[j - |a| - |b|]
  {
  }

  /** Line `j` of the result `n` is the block's, or has the text of line `i` of the old lines, on the
      same side of the block. */
  predicate Comes(lines: seq<string>, n: seq<string>, block: seq<string>, span: Option<Span>,
                  place: Span, j: nat, i: int)
    requires j < |n| && place.end + 1 == place.start + |block|
  {
    if place.start <= j <= place.end then Bare(n[j]) == block[j - place.start]
    else
      && 0 <= i < |lines| && Outside(span, i)
      && (Before(span, i) <==> j < place.start)
      && Bare(n[j]) == Bare(lines[i])
  }

  /** The lines of the result: those of the block, and outside it those of the text, but for the
      line end that an unfinished last line gets. */
  lemma SplicedAt(text: string, block: seq<string>, span: Option<Span>, j: nat)
    requires Unbroken(block) && SpanIn(Lines(text), span) && j < |Spliced(text, block, span)|
    ensures Comes(Lines(text), Spliced(text, block, span), block, span, NewSpan(text, block, span), j,
                  SourceOf(text, block, span, j))
  {
    hide Bare, Lines, Eol, ClosedAt, HeadOf, TailOf, SourceOf, SpanIn;
    var head, tail := HeadOf(text, span), TailOf(text, span);
    if j < |head| {
      HeadSource(text, block, span, j);
    } else if j < |head| + |block| {
      MiddleAt(block, Eol(text), ClosedAt(text, span), j - |head|);
    } else {
      TailSource(text, block, span, j);
    }
    ComesAt(Lines(text), head, NewBlock(block, Eol(text), ClosedAt(text, span)), tail, block, span, j,
            SourceOf(text, block, span, j));
  }

  lemma HeadSource(text: string, block: seq<string>, span: Option<Span>, j: nat)
    requires block != [] && SpanIn(Lines(text), span) && j < |HeadOf(text, span)|
    ensures var i := SourceOf(text, block, span, j);
            && 0 <= i < |Lines(text)| && Outside(span, i) && Before(span, i)
            && Bare(HeadOf(text, span)[j]) == Bare(Lines(text)[i])
  {
    HeadAt(text, span, j);
  }

  lemma TailSource(text: string, block: seq<string>, span: Option<Span>, j: nat)
    requires block != [] && SpanIn(Lines(text), span)
    requires |HeadOf(text, span)| + |block| <= j < |HeadOf(text, span)| + |block| + |TailOf(text, span)|
    ensures var i := SourceOf(text, block, span, j);
            && 0 <= i < |Lines(text)| && Outside(span, i) && !Before(span, i)
            && TailOf(text, span)[j - |HeadOf(text, span)| - |block|] == Lines(text)[i]
  {
  }

  /** The same for any three parts. */
  lemma ComesAt(lines: seq<string>, head: seq<string>, middle: seq<string>, tail: seq<string>,
                block: seq<string>, span: Option<Span>, j: nat, i: int)
    requires |middle| == |block| > 0 && j < |head + middle + tail|
    requires j < |head| ==>
               0 <= i < |lines| && Outside(span, i) && Before(span, i) && Bare(head[j]) == Bare(lines[i])
    requires |head| <= j < |head| + |block| ==> Bare(middle[j - |head|]) == block[j - |head|]
    requires j >= |head| + |block| ==>
               && 0 <= i < |lines| && Outside(span, i) && !Before(span, i)
               && tail[j - |head| - |block|] == lines[i]
    ensures Comes(lines, head + middle + tail, block, span, Span(|head|, |head| + |block| - 1), j, i)
  {
    ThreeParts(head, middle, tail, j);
  }

  predicate Marked(bare: string, start: bool, end: bool) {
    (bare == BLOCK_START <==> start) && (bare == BLOCK_END <==> end)
  }

  lemma MarkersInside(block: seq<string>, i: nat)
    requires GoodBlock(block) && i < |block|
    ensures Marked(block[i], i == 0, i == |block| - 1)
  {
    assert GoodAt(block, i);
  }

  lemma MarkersOutside(lines: seq<string>, i: nat)
    requires FindBlock(lines).Ok? && i < |lines| && Outside(FindBlock(lines).value, i)
    ensures Marked(Bare(lines[i]), false, false)
  {
    MarkersOf(lines);
  }

  lemma MarkersAt(lines: seq<string>, n: seq<string>, block: seq<string>, span: Option<Span>,
                  place: Span, j: nat, i: int)
    requires GoodBlock(block) && FindBlock(lines) == Ok(span)
    requires j < |n| && place.end + 1 == place.start + |block|
    requires Comes(lines, n, block, span, place, j, i)
    ensures Marked(Bare(n[j]), j == place.start, j == place.end)
  {
    if place.start <= j <= place.end {
      MarkersInside(block, j - place.start);
    } else {
      MarkersOutside(lines, i);
    }
  }

  /** The result holds the block once, where the old one was or at the end. */
  lemma BlockIsFound(text: string, block: seq<string>)
    requires GoodBlock(block) && FindBlock(Lines(text)).Ok?
    ensures var span := FindBlock(Lines(text)).value;
            FindBlock(Spliced(text, block, span)) == Ok(Some(NewSpan(text, block, span)))
  {
    GoodIsUnbroken(block);
    var span := FindBlock(Lines(text)).value;
    var n, place := Spliced(text, block, span), NewSpan(text, block, span);
    forall j: nat | j < |n| ensures Marked(Bare(n[j]), j == place.start, j == place.end) {
      SplicedAt(text, block, span, j);
      MarkersAt(Lines(text), n, block, span, place, j, SourceOf(text, block, span, j));
    }
    FoundAt(n, place.start, place.end);
  }

  // ------------------------------------------------------------------ conflicts

  predicate NoConflict(settings: seq<Option<Assignment>>, span: Option<Span>, keys: set<string>,
                       template: map<string, string>, i: nat) {
    forall j :: i <= j < |settings| && Outside(span, j) ==>
                  !Conflicts(settings[j], Before(span, j), keys, template)
  }

  /** The search finds a conflict exactly when there is one. */
  lemma {:induction false} SearchIsExact(settings: seq<Option<Assignment>>, span: Option<Span>,
                                         keys: set<string>, template: map<string, string>, i: nat)
    requires i <= |settings|
    ensures FirstConflict(settings, span, keys, template, i) == None
       <==> NoConflict(settings, span, keys, template, i)
    decreases |settings| - i
  {
    if i < |settings| {
      SearchIsExact(settings, span, keys, template, i + 1);
    }
  }

  lemma ReadsSame(text: string, block: seq<string>, span: Option<Span>, j: nat)
    requires Unbroken(block) && SpanIn(Lines(text), span) && j < |Spliced(text, block, span)|
    requires Outside(Some(NewSpan(text, block, span)), j)
    ensures var i := SourceOf(text, block, span, j);
            && 0 <= i < |Lines(text)| && Outside(span, i)
            && (Before(span, i) <==> Before(Some(NewSpan(text, block, span)), j))
            && Reads(Spliced(text, block, span))[j] == Reads(Lines(text))[i]
  {
    SplicedAt(text, block, span, j);
  }

  lemma NoConflictAgain(text: string, block: seq<string>, span: Option<Span>, keys: set<string>,
                        template: map<string, string>)
    requires Unbroken(block) && SpanIn(Lines(text), span)
    requires NoConflict(Reads(Lines(text)), span, keys, template, 0)
    ensures NoConflict(Reads(Spliced(text, block, span)), Some(NewSpan(text, block, span)), keys,
                       template, 0)
  {
    var settings := Reads(Spliced(text, block, span));
    var s := Some(NewSpan(text, block, span));
    forall j | 0 <= j < |settings| && Outside(s, j)
      ensures !Conflicts(settings[j], Before(s, j), keys, template)
    {
      ReadsSame(text, block, span, j);
    }
  }

  /** The result can be spliced again. */
  lemma SplicesAgain(text: string, block: seq<string>, template: map<string, string>)
    requires GoodBlock(block) && Splice(text, block, template).Ok?
    ensures var span := FindBlock(Lines(text)).value;
            var result := Splice(text, block, template).value;
            && result == Concat(Spliced(text, block, span))
            && Lines(result) == Spliced(text, block, span)
            && FindBlock(Lines(result)) == Ok(Some(NewSpan(text, block, span)))
            && Splice(result, block, template)
               == Ok(Written(result, block, Some(NewSpan(text, block, span))))
  {
    GoodIsUnbroken(block);
    var span := FindBlock(Lines(text)).value;
    var n := Spliced(text, block, span);
    WrittenIsSpliced(text, block, span);
    SplicedIsLines(text, block, span);
    LinesOfConcat(n);
    BlockIsFound(text, block);
    SearchIsExact(Reads(Lines(text)), span, Keys(block), template, 0);
    NoConflictAgain(text, block, span, Keys(block), template);
    SearchIsExact(Reads(n), Some(NewSpan(text, block, span)), Keys(block), template, 0);
  }

  lemma JoinedLines(head: seq<string>, middle: seq<string>, tail: seq<string>)
    requires LineList(head) && LineList(middle) && LineList(tail)
    requires forall i :: 0 <= i < |head| ==> Closed(head[i])
    requires tail != [] ==> forall i :: 0 <= i < |middle| ==> Closed(middle[i])
    ensures LineList(head + middle + tail)
  {
  }

  lemma BlockIsLines(block: seq<string>, eol: string, closed: bool)
    requires IsEol(eol) && Unbroken(block)
    ensures LineList(NewBlock(block, eol, closed))
    ensures closed ==> forall i :: 0 <= i < |block| ==> Closed(NewBlock(block, eol, closed)[i])
  {
    EndedBlock(block, eol);
  }

  lemma SplicedIsLines(text: string, block: seq<string>, span: Option<Span>)
    requires Unbroken(block) && SpanIn(Lines(text), span)
    ensures LineList(Spliced(text, block, span))
  {
    ConcatOfLines(text);
    BlockIsLines(block, Eol(text), ClosedAt(text, span));
    HeadIsLines(text, span);
    var tail := TailOf(text, span);
    assert LineList(tail);
    JoinedLines(HeadOf(text, span), NewBlock(block, Eol(text), ClosedAt(text, span)), tail);
  }

  lemma LastChar(lines: seq<string>)
    requires lines != [] && lines[|lines| - 1] != ""
    ensures var last := lines[|lines| - 1];
            Concat(lines) != "" && Concat(lines)[|Concat(lines)| - 1] == last[|last| - 1]
  {
    var n := |lines| - 1;
    assert lines == lines[..n] + [lines[n]];
    ConcatOfSum(lines[..n], [lines[n]]);
    assert Concat([lines[n]]) == lines[n] + "";
  }

  lemma HeadIsLines(text: string, span: Option<Span>)
    requires SpanIn(Lines(text), span)
    ensures forall i :: 0 <= i < |HeadOf(text, span)| ==>
              IsLine(HeadOf(text, span)[i]) && Closed(HeadOf(text, span)[i])
  {
    ConcatOfLines(text);
    if span.None? && Lines(text) != [] {
      LastChar(Lines(text));
      GluedIsClosed(Lines(text), Glue(text));
    }
  }

  lemma GluedIsClosed(lines: seq<string>, glue: string)
    requires lines != [] && LineList(lines)
    requires if glue == "" then Closed(lines[|lines| - 1])
             else IsEol(glue) && !Closed(lines[|lines| - 1])
    ensures forall i :: 0 <= i < |lines| ==> IsLine(Glued(lines, glue)[i]) && Closed(Glued(lines, glue)[i])
  {
    var last := lines[|lines| - 1];
    assert forall k :: 0 <= k < |last| ==> (last + glue)[k] == last[k] != '\n' || glue == "";
  }

  // ------------------------------------------------------------------ twice is once

  /** The text ends in a carriage return of its own, and its line end is the line feed. */
  predicate LoneReturn(text: string) {
    text != "" && text[|text| - 1] == '\r' && !HasCrlf(text)
  }

  lemma PartsOf(text: string, block: seq<string>, span: Option<Span>)
    requires Unbroken(block) && SpanIn(Lines(text), span)
    ensures var n, place := Spliced(text, block, span), NewSpan(text, block, span);
            && n[..place.start] == HeadOf(text, span)
            && n[place.start..place.end + 1] == NewBlock(block, Eol(text), ClosedAt(text, span))
            && n[place.end + 1..] == TailOf(text, span)
            && n[place.end] == NewBlock(block, Eol(text), ClosedAt(text, span))[|block| - 1]
            && n[place.start] == NewBlock(block, Eol(text), ClosedAt(text, span))[0]
  {
  }

  /** The second splice changes nothing but, perhaps, the block's line ends. */
  lemma SecondLines(text: string, block: seq<string>, template: map<string, string>)
    requires GoodBlock(block) && Splice(text, block, template).Ok?
    ensures var span := FindBlock(Lines(text)).value;
            var result := Splice(text, block, template).value;
            && Splice(result, block, template).Ok?
            && Lines(Splice(result, block, template).value)
               == HeadOf(text, span) + NewBlock(block, Eol(result), ClosedAt(text, span))
                  + TailOf(text, span)
  {
    GoodIsUnbroken(block);
    SplicesAgain(text, block, template);
    var span := FindBlock(Lines(text)).value;
    var result := Splice(text, block, template).value;
    SplicesAgain(result, block, template);
    PartsOf(text, block, span);
    EndedBlock(block, Eol(text));
    NotClosed(block, Eol(text));
  }

  lemma NotClosed(block: seq<string>, eol: string)
    requires Unbroken(block) && IsEol(eol)
    ensures Closed(NewBlock(block, eol, true)[|block| - 1])
    ensures !Closed(NewBlock(block, eol, false)[|block| - 1])
  {
    EndedBlock(block, eol);
  }

  lemma EolShows(block: seq<string>, a: string, b: string, closed: bool)
    requires |block| >= 2 && IsEol(a) && IsEol(b) && a != b
    ensures NewBlock(block, a, closed)[0] != NewBlock(block, b, closed)[0]
  {
    assert NewBlock(block, a, closed)[0] == block[0] + a;
    assert NewBlock(block, b, closed)[0] == block[0] + b;
    assert |a| != |b|;
  }

  lemma BlockHasNoReturn(block: seq<string>, eol: string, closed: bool, i: nat)
    requires Unbroken(block) && IsEol(eol) && i < |block|
    ensures EndsCrlf(NewBlock(block, eol, closed)[i])
       <==> eol == "\r\n" && (closed || i < |block| - 1)
  {
    var line := NewBlock(block, eol, closed)[i];
    if closed || i < |block| - 1 {
      assert line == block[i] + eol;
      assert line[|block[i]| - 1] == block[i][|block[i]| - 1];
    } else {
      assert line == block[i];
    }
  }

  lemma GluedHasReturn(lines: seq<string>, glue: string)
    requires lines != [] && LineList(lines) && !AnyCrlf(lines)
    requires if Closed(lines[|lines| - 1]) then glue == "" else glue == "\n"
    ensures AnyCrlf(Glued(lines, glue)) <==> lines[|lines| - 1][|lines[|lines| - 1]| - 1] == '\r'
  {
    var n := |lines| - 1;
    var last, glued := lines[n], Glued(lines, glue);
    assert forall i :: 0 <= i < |lines| ==> !EndsCrlf(lines[i]);
    assert forall i :: 0 <= i < n ==> glued[i] == lines[i];
    assert glued[n] == last + glue;
    assert EndsCrlf(glued[n]) <==> last[|last| - 1] == '\r';
  }

  lemma NoReturnInPrefix(lines: seq<string>, count: nat)
    requires count <= |lines| && !AnyCrlf(lines)
    ensures !AnyCrlf(lines[..count])
  {
    forall i | 0 <= i < count ensures !EndsCrlf(lines[..count][i]) {
      assert lines[..count][i] == lines[i];
    }
  }

  lemma HeadHasReturn(text: string, span: Option<Span>)
    requires SpanIn(Lines(text), span) && !HasCrlf(text)
    ensures AnyCrlf(HeadOf(text, span)) <==> span.None? && LoneReturn(text)
    ensures !AnyCrlf(Lines(text))
  {
    ConcatOfLines(text);
    CrlfOfLines(Lines(text));
    if span.Some? {
      NoReturnInPrefix(Lines(text), span.value.start);
    } else {
      GluedHeadHasReturn(text);
    }
  }

  lemma GluedHeadHasReturn(text: string)
    requires LineList(Lines(text)) && !AnyCrlf(Lines(text)) && Concat(Lines(text)) == text
    requires !HasCrlf(text)
    ensures AnyCrlf(Glued(Lines(text), Glue(text))) <==> LoneReturn(text)
  {
    hide HasCrlf, AnyCrlf, Lines;
    if Lines(text) != [] {
      LastChar(Lines(text));
      GluedHasReturn(Lines(text), Glue(text));
    }
  }

  lemma AnyCrlfOfParts(a: seq<string>, b: seq<string>, c: seq<string>)
    ensures AnyCrlf(a + b + c) <==> AnyCrlf(a) || AnyCrlf(b) || AnyCrlf(c)
  {
    var all := a + b + c;
    assert forall i :: 0 <= i < |a| ==> all[i] == a[i];
    assert forall i :: 0 <= i < |b| ==> all[|a| + i] == b[i];
    assert forall i :: 0 <= i < |c| ==> all[|a| + |b| + i] == c[i];
    if AnyCrlf(all) {
      var i :| 0 <= i < |all| && EndsCrlf(all[i]);
      assert if i < |a| then EndsCrlf(a[i]) else if i < |a| + |b| then EndsCrlf(b[i - |a|])
             else EndsCrlf(c[i - |a| - |b|]);
    }
  }

  /** The line end of the result is that of the text, unless a lone carriage return became one. */
  lemma EolIsKeptIff(text: string, block: seq<string>, span: Option<Span>)
    requires Unbroken(block) && |block| >= 2 && SpanIn(Lines(text), span)
    requires LineList(Spliced(text, block, span))
    ensures Eol(Concat(Spliced(text, block, span))) == Eol(text) <==> !(span.None? && LoneReturn(text))
  {
    var n := Spliced(text, block, span);
    var middle := NewBlock(block, Eol(text), ClosedAt(text, span));
    CrlfOfLines(n);
    AnyCrlfOfParts(HeadOf(text, span), middle, TailOf(text, span));
    if HasCrlf(text) {
      BlockHasNoReturn(block, Eol(text), ClosedAt(text, span), 0);
      assert EndsCrlf(middle[0]);
    } else {
      HeadHasReturn(text, span);
      forall i | 0 <= i < |middle| ensures !EndsCrlf(middle[i]) {
        BlockHasNoReturn(block, Eol(text), ClosedAt(text, span), i);
      }
      TailHasNoReturn(text, span);
    }
  }

  lemma TailHasNoReturn(text: string, span: Option<Span>)
    requires SpanIn(Lines(text), span) && !AnyCrlf(Lines(text))
    ensures !AnyCrlf(TailOf(text, span))
  {
    forall i | 0 <= i < |TailOf(text, span)| ensures !EndsCrlf(TailOf(text, span)[i]) {
      assert TailOf(text, span)[i] == Lines(text)[span.value.end + 1 + i];
    }
  }

  /** A splice can always be repeated. It then changes nothing, exactly when the block was there
      already or the text did not end in a lone carriage return. */
  lemma SpliceTwiceIsOnceIff(text: string, block: seq<string>, template: map<string, string>)
    requires GoodBlock(block) && Splice(text, block, template).Ok?
    ensures var result := Splice(text, block, template).value;
            && Splice(result, block, template).Ok?
            && (Splice(result, block, template).value == result
                <==> !(FindBlock(Lines(text)) == Ok(None) && LoneReturn(text)))
  {
    GoodIsUnbroken(block);
    var span := FindBlock(Lines(text)).value;
    var result := Splice(text, block, template).value;
    SplicesAgain(text, block, template);
    SecondLines(text, block, template);
    SplicedIsLines(text, block, span);
    EolIsKeptIff(text, block, span);
    var again := Splice(result, block, template).value;
    ConcatOfLines(again);
    ConcatOfLines(result);
    if Eol(result) != Eol(text) {
      EolShows(block, Eol(result), Eol(text), ClosedAt(text, span));
      assert Lines(again)[|HeadOf(text, span)|] != Lines(result)[|HeadOf(text, span)|];
    }
  }

  lemma ReturnIsOneLine(text: string)
    requires text == "\r"
    ensures Lines(text) == [text] && Bare(text) == "" && !HasCrlf(text)
    ensures FindBlock([text]) == Ok(None)
  {
    assert LineEnd(text) == 1 && text[..1] == text && text[1..] == "";
    assert text[..0] == "";
    assert BLOCK_START != "" && BLOCK_END != "";
    OnePlace([text], BLOCK_START, 1);
    OnePlace([text], BLOCK_END, 1);
  }

  /** A file of one carriage return: the second splice rewrites every line end of the block. */
  lemma LoneReturnIsSplicedTwice(text: string, block: seq<string>)
    requires text == "\r" && GoodBlock(block)
    ensures Splice(text, block, map[]).Ok?
    ensures var result := Splice(text, block, map[]).value;
            Splice(result, block, map[]).Ok? && Splice(result, block, map[]).value != result
  {
    ReturnIsOneLine(text);
    assert Assign("") == None;
    assert Reads([text])[0] == None;
    SearchIsExact(Reads([text]), None, Keys(block), map[], 0);
    SpliceTwiceIsOnceIff(text, block, map[]);
  }

  // ------------------------------------------------------------------ the rest is left alone

  /** What stands before and after the block. */
  predicate LeftAlone(text: string, span: Option<Span>, head: seq<string>, tail: seq<string>)
    requires SpanIn(Lines(text), span)
  {
    match span
    case Some(was) => head == Lines(text)[..was.start] && tail == Lines(text)[was.end + 1..]
    case None => Concat(head) == text + Glue(text) && tail == []
  }

  lemma PartsLeftAlone(text: string, block: seq<string>, span: Option<Span>)
    requires Unbroken(block) && SpanIn(Lines(text), span)
    ensures var n, place := Spliced(text, block, span), NewSpan(text, block, span);
            place.end < |n| && LeftAlone(text, span, n[..place.start], n[place.end + 1..])
  {
    PartsOf(text, block, span);
    ConcatOfLines(text);
    if span.None? {
      GluedText(Lines(text), Glue(text));
    }
  }

  /** Outside the block every line stands as it stood, byte for byte, and in its order; where a block
      is appended, an unfinished last line gets its line end and nothing else happens. */
  lemma TheRestIsLeftAlone(text: string, block: seq<string>, template: map<string, string>)
    requires GoodBlock(block) && Splice(text, block, template).Ok?
    ensures var span := FindBlock(Lines(text)).value;
            var n := Lines(Splice(text, block, template).value);
            var place := NewSpan(text, block, span);
            && FindBlock(n) == Ok(Some(place))
            && LeftAlone(text, span, n[..place.start], n[place.end + 1..])
  {
    GoodIsUnbroken(block);
    SplicesAgain(text, block, template);
    PartsLeftAlone(text, block, FindBlock(Lines(text)).value);
  }

  predicate HasAt(n: seq<string>, at: nat, bare: string) {
    at < |n| && Bare(n[at]) == bare
  }

  lemma BlockAt(text: string, block: seq<string>, span: Option<Span>, i: nat)
    requires Unbroken(block) && SpanIn(Lines(text), span) && i < |block|
    ensures HasAt(Spliced(text, block, span), NewSpan(text, block, span).start + i, block[i])
  {
    MiddleAt(block, Eol(text), ClosedAt(text, span), i);
    HasInMiddle(HeadOf(text, span), NewBlock(block, Eol(text), ClosedAt(text, span)),
                TailOf(text, span), i, block[i]);
  }

  lemma HasInMiddle(head: seq<string>, middle: seq<string>, tail: seq<string>, i: nat, bare: string)
    requires i < |middle| && Bare(middle[i]) == bare
    ensures HasAt(head + middle + tail, |head| + i, bare)
  {
    ThreeParts(head, middle, tail, |head| + i);
  }

  predicate HoldsBlock(lines: seq<string>, start: nat, block: seq<string>) {
    && start + |block| <= |lines|
    && forall i: nat :: i < |block| ==> HasAt(lines, start + i, block[i])
  }

  lemma BlockHeld(text: string, block: seq<string>, span: Option<Span>)
    requires Unbroken(block) && SpanIn(Lines(text), span)
    ensures HoldsBlock(Spliced(text, block, span), NewSpan(text, block, span).start, block)
  {
    forall i: nat | i < |block|
      ensures HasAt(Spliced(text, block, span), NewSpan(text, block, span).start + i, block[i])
    {
      BlockAt(text, block, span, i);
    }
  }

  /** Between the markers stand exactly the block's lines. */
  lemma TheBlockStandsWhole(text: string, block: seq<string>, template: map<string, string>)
    requires GoodBlock(block) && Splice(text, block, template).Ok?
    ensures var start := NewSpan(text, block, FindBlock(Lines(text)).value).start;
            HoldsBlock(Lines(Splice(text, block, template).value), start, block)
  {
    GoodIsUnbroken(block);
    SplicesAgain(text, block, template);
    BlockHeld(text, block, FindBlock(Lines(text)).value);
  }

  // ------------------------------------------------------------------ the block wins

  /** A file read by last definition. */
  function LastDefinition(settings: seq<Option<Assignment>>, key: string): Option<string> {
    if settings == [] then None
    else
      var last := settings[|settings| - 1];
      if last.Some? && last.value.key == key then Some(Unquote(last.value.raw))
      else LastDefinition(settings[..|settings| - 1], key)
  }

  lemma {:induction false} LastOfSum(a: seq<Option<Assignment>>, b: seq<Option<Assignment>>, key: string)
    ensures LastDefinition(a + b, key)
         == if LastDefinition(b, key).Some? then LastDefinition(b, key) else LastDefinition(a, key)
    decreases |b|
  {
    if b == [] {
      assert a + b == a;
    } else {
      assert (a + b)[..|a + b| - 1] == a + b[..|b| - 1];
      LastOfSum(a, b[..|b| - 1], key);
    }
  }

  lemma {:induction false} LastOfNone(settings: seq<Option<Assignment>>, key: string)
    requires forall i :: 0 <= i < |settings| ==> settings[i].None? || settings[i].value.key != key
    ensures LastDefinition(settings, key) == None
    decreases |settings|
  {
    if settings != [] {
      LastOfNone(settings[..|settings| - 1], key);
    }
  }

  lemma {:induction false} LastOfOne(settings: seq<Option<Assignment>>, key: string, i: nat)
    requires i < |settings| && settings[i].Some? && settings[i].value.key == key
    requires forall j :: i < j < |settings| ==> settings[j].None? || settings[j].value.key != key
    ensures LastDefinition(settings, key) == Some(Unquote(settings[i].value.raw))
    decreases |settings|
  {
    if i < |settings| - 1 {
      LastOfOne(settings[..|settings| - 1], key, i);
    }
  }

  lemma NameRunIs(name: string, rest: string)
    requires IsName(name) && rest != "" && !IsLetter(rest[0]) && !IsDigit(rest[0])
    ensures NameRun(name + rest) == |name|
  {
    var text := name + rest;
    assert forall i :: 0 <= i < |name| ==> text[i] == name[i];
    assert text[|name|] == rest[0];
  }

  lemma StripNothing(text: string)
    requires text != "" && !IsSpace(text[0])
    ensures StripLeft(text) == text
  {
  }

  lemma AssignHereReads(name: string, rest: string)
    requires IsName(name) && rest != "" && rest[0] == '='
    ensures AssignHere(name + rest) == Some(Assignment(name, rest[1..]))
  {
    NameRunIs(name, rest);
    StripNothing(rest);
    var text := name + rest;
    assert text[..|name|] == name && text[|name|..] == rest;
  }

  lemma NotExported(name: string, rest: string)
    requires IsName(name) && rest != "" && rest[0] == '='
    ensures var text := name + rest;
            StripLeft(text) == text && !(|text| > 6 && text[..6] == "export" && IsSpace(text[6]))
  {
    var text := name + rest;
    assert text[0] == name[0];
    StripNothing(text);
    if |name| < 6 < |text| {
      assert text[..6][|name|] == '=';
    } else if |name| > 6 {
      assert text[6] == name[6];
    }
  }

  /** A name, an equals sign and a text are read as just that; `export` is not in the way. */
  lemma AssignReads(name: string, rest: string)
    requires IsName(name) && rest != "" && rest[0] == '='
    ensures Assign(name + rest) == Some(Assignment(name, rest[1..]))
  {
    NotExported(name, rest);
    AssignHereReads(name, rest);
  }

  /** The block's own word on a key: the value in line `i`. */
  predicate Says(value: Option<string>, block: seq<string>, i: nat)
    requires i < |block|
  {
    value == Some(Unquote(ValueIn(block[i])))
  }

  lemma SettingReads(line: string)
    requires GoodLine(line) && IsSetting(line)
    ensures Assign(line) == Some(Assignment(KeyOf(line), ValueIn(line)))
  {
    var key := KeyOf(line);
    assert line == key + line[|key|..];
    AssignReads(key, line[|key|..]);
    assert line[|key|..][1..] == ValueIn(line);
  }

  /** A comment in the block assigns nothing. */
  lemma CommentReads(line: string)
    requires line != "" && line[0] == '#'
    ensures Assign(line) == None
  {
    StripNothing(line);
    assert NameRun(line) == 0;
    assert line[..0] == "" && !IsName("");
    assert AssignHere(line) == None;
    if |line| > 6 {
      assert line[..6][0] == '#' && "export"[0] == 'e';
    }
  }

  predicate DistinctKeys(block: seq<string>) {
    forall i, j :: 0 <= i < j < |block| && IsSetting(block[i]) && IsSetting(block[j]) ==>
                     KeyOf(block[i]) != KeyOf(block[j])
  }

  /** What line `j` of the block assigns, other than the one that sets the key. */
  lemma OtherLineReads(block: seq<string>, i: nat, j: nat)
    requires GoodBlock(block) && DistinctKeys(block)
    requires i < |block| && j < |block| && i != j && IsSetting(block[i])
    ensures Assign(block[j]).None? || Assign(block[j]).value.key != KeyOf(block[i])
  {
    assert GoodAt(block, j) && GoodAt(block, i);
    if IsSetting(block[j]) {
      SettingReads(block[j]);
    } else {
      CommentReads(block[j]);
    }
  }

  lemma BareBlock(block: seq<string>, j: nat)
    requires Unbroken(block) && j < |block|
    ensures Reads(block)[j] == Assign(block[j])
  {
    BareWithEnd(block[j], "");
  }

  lemma BlockSettings(block: seq<string>, i: nat)
    requires GoodBlock(block) && DistinctKeys(block) && i < |block| && IsSetting(block[i])
    ensures Says(LastDefinition(Reads(block), KeyOf(block[i])), block, i)
  {
    GoodIsUnbroken(block);
    assert GoodAt(block, i);
    SettingReads(block[i]);
    BareBlock(block, i);
    var settings := Reads(block);
    forall j | i < j < |settings| ensures settings[j].None? || settings[j].value.key != KeyOf(block[i]) {
      BareBlock(block, j);
      OtherLineReads(block, i, j);
    }
    LastOfOne(settings, KeyOf(block[i]), i);
  }

  lemma KeyIsSet(block: seq<string>, i: nat)
    requires i < |block| && IsSetting(block[i])
    ensures KeyOf(block[i]) in Keys(block)
  {
  }

  /** After the block nothing sets one of its keys. */
  lemma NothingAfter(text: string, block: seq<string>, span: Option<Span>, key: string,
                     template: map<string, string>, j: nat)
    requires Unbroken(block) && SpanIn(Lines(text), span) && key in Keys(block)
    requires NoConflict(Reads(Lines(text)), span, Keys(block), template, 0)
    requires NewSpan(text, block, span).end < j < |Spliced(text, block, span)|
    ensures var line := Reads(Spliced(text, block, span))[j]; line.None? || line.value.key != key
  {
    ReadsSame(text, block, span, j);
    var i := SourceOf(text, block, span, j);
    assert !Conflicts(Reads(Lines(text))[i], Before(span, i), Keys(block), template);
  }

  /** Whoever reads the written file by last definition gets the block's value for every key the
      block sets, whatever stood there before. */
  lemma TheBlockWins(text: string, block: seq<string>, template: map<string, string>, i: nat)
    requires GoodBlock(block) && DistinctKeys(block) && Splice(text, block, template).Ok?
    requires i < |block| && IsSetting(block[i])
    ensures var result := Splice(text, block, template).value;
            Says(LastDefinition(Reads(Lines(result)), KeyOf(block[i])), block, i)
  {
    GoodIsUnbroken(block);
    SplicesAgain(text, block, template);
    var span := FindBlock(Lines(text)).value;
    SearchIsExact(Reads(Lines(text)), span, Keys(block), template, 0);
    KeyIsSet(block, i);
    WinsIn(text, block, span, template, i);
  }

  lemma HeldAt(n: seq<string>, start: nat, block: seq<string>, j: nat)
    requires Unbroken(block) && j < |block| && HasAt(n, start + j, block[j])
    ensures Reads(n)[start + j] == Reads(block)[j]
  {
    BareBlock(block, j);
  }

  lemma HeldReads(n: seq<string>, start: nat, block: seq<string>)
    requires Unbroken(block) && HoldsBlock(n, start, block)
    ensures Among(Reads(block), Reads(n), start)
  {
    var all, own := Reads(n), Reads(block);
    forall j: nat | j < |own| ensures all[start + j] == own[j] {
      assert HasAt(n, start + j, block[j]);
      HeldAt(n, start, block, j);
    }
    SliceIs(all, own, start);
  }

  lemma SliceIs<T>(all: seq<T>, part: seq<T>, start: nat)
    requires start + |part| <= |all|
    requires forall j: nat :: j < |part| ==> all[start + j] == part[j]
    ensures all[start..start + |part|] == part
  {
  }

  lemma LastOfThree(before: seq<Option<Assignment>>, found: seq<Option<Assignment>>,
                    after: seq<Option<Assignment>>, key: string)
    requires forall j :: 0 <= j < |after| ==> after[j].None? || after[j].value.key != key
    requires LastDefinition(found, key).Some?
    ensures LastDefinition(before + found + after, key) == LastDefinition(found, key)
  {
    LastOfNone(after, key);
    LastOfSum(before + found, after, key);
    LastOfSum(before, found, key);
  }

  predicate UnsetFrom(settings: seq<Option<Assignment>>, from: nat, key: string) {
    forall j :: from <= j < |settings| ==> settings[j].None? || settings[j].value.key != key
  }

  lemma NothingSetAfter(text: string, block: seq<string>, span: Option<Span>, key: string,
                        template: map<string, string>)
    requires Unbroken(block) && SpanIn(Lines(text), span) && key in Keys(block)
    requires NoConflict(Reads(Lines(text)), span, Keys(block), template, 0)
    ensures UnsetFrom(Reads(Spliced(text, block, span)), NewSpan(text, block, span).start + |block|, key)
  {
    var settings, end := Reads(Spliced(text, block, span)), NewSpan(text, block, span).end;
    forall j | end + 1 <= j < |settings| ensures settings[j].None? || settings[j].value.key != key {
      NothingAfter(text, block, span, key, template, j);
    }
  }

  lemma WinsIn(text: string, block: seq<string>, span: Option<Span>, template: map<string, string>,
               i: nat)
    requires GoodBlock(block) && DistinctKeys(block) && Unbroken(block) && SpanIn(Lines(text), span)
    requires NoConflict(Reads(Lines(text)), span, Keys(block), template, 0)
    requires i < |block| && IsSetting(block[i]) && KeyOf(block[i]) in Keys(block)
    ensures Says(LastDefinition(Reads(Spliced(text, block, span)), KeyOf(block[i])), block, i)
  {
    BlockHeld(text, block, span);
    NothingSetAfter(text, block, span, KeyOf(block[i]), template);
    WinsAmong(Spliced(text, block, span), NewSpan(text, block, span).start, block, i);
  }

  lemma WinsAmong(n: seq<string>, start: nat, block: seq<string>, i: nat)
    requires GoodBlock(block) && DistinctKeys(block) && i < |block| && IsSetting(block[i])
    requires HoldsBlock(n, start, block)
    requires UnsetFrom(Reads(n), start + |block|, KeyOf(block[i]))
    ensures Says(LastDefinition(Reads(n), KeyOf(block[i])), block, i)
  {
    GoodIsUnbroken(block);
    HeldReads(n, start, block);
    BlockSays(block, i);
    LastAmong(Reads(n), start, Reads(block), KeyOf(block[i]));
  }

  lemma BlockSays(block: seq<string>, i: nat)
    requires GoodBlock(block) && DistinctKeys(block) && i < |block| && IsSetting(block[i])
    ensures LastDefinition(Reads(block), KeyOf(block[i])).Some?
    ensures Says(LastDefinition(Reads(block), KeyOf(block[i])), block, i)
  {
    BlockSettings(block, i);
  }

  predicate Among(part: seq<Option<Assignment>>, settings: seq<Option<Assignment>>, start: nat) {
    start + |part| <= |settings| && settings[start..start + |part|] == part
  }

  lemma LastAmong(settings: seq<Option<Assignment>>, start: nat, part: seq<Option<Assignment>>,
                  key: string)
    requires Among(part, settings, start) && UnsetFrom(settings, start + |part|, key)
    requires LastDefinition(part, key).Some?
    ensures LastDefinition(settings, key) == LastDefinition(part, key)
  {
    var end := start + |part|;
    ThreeSlices(settings, start, end);
    LastOfThree(settings[..start], part, settings[end..], key);
  }

  lemma ThreeSlices<T>(all: seq<T>, start: nat, end: nat)
    requires start <= end <= |all|
    ensures all == all[..start] + all[start..end] + all[end..]
  {
  }
}
