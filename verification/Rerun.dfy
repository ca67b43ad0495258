/** One run of deploy/auto_size.py from the text of `.env` to the text it writes, and the run after it:
    `block_role`, `_pick_role`, `_dotenv_last`, `render_block` and the middle of `_run`. */
module Rerun {
  import opened Wrappers
  import opened Text
  import opened Sizes
  import opened Sizer
  import opened Planner
  import opened HostGrowth
  import opened EnvBlock
  import opened EnvBlockProofs

  // ------------------------------------------------------------------ the remembered role

  const ROLE_MARK := "# role:"

  function RoleText(role: Role): string {
    if role.Server? then "server" else "dev"
  }

  function RoleLine(role: Role): string {
    "# role: " + RoleText(role)
  }

  datatype Failure = Unreadable(refusal: Refusal) | OddRole(line: nat) | TooSmall

  /** The first role line from `i` to `end` decides; it may name no role. */
  function RoleFrom(lines: seq<string>, i: nat, end: nat): Result<Option<Role>, Failure>
    requires end < |lines|
    decreases end + 1 - i
  {
    if i > end then Ok(None)
    else if !(ROLE_MARK <= Bare(lines[i])) then RoleFrom(lines, i + 1, end)
    else if Bare(lines[i]) == RoleLine(Server) then Ok(Some(Server))
    else if Bare(lines[i]) == RoleLine(Dev) then Ok(Some(Dev))
    else Err(OddRole(i + 1))
  }

  function RoleOf(text: string): Result<Option<Role>, Failure> {
    match FindBlock(Lines(text))
    case Err(refusal) => Err(Unreadable(refusal))
    case Ok(None) => Ok(None)
    case Ok(Some(span)) => RoleFrom(Lines(text), span.start, span.end)
  }

  /** `block_role`. */
  method BlockRole(text: string) returns (r: Result<Option<Role>, Failure>)
    ensures r == RoleOf(text)
  {
    var lines := Lines(text);
    var found := FindBlock(lines);
    if found.Err? {
      return Err(Unreadable(found.error));
    }
    if found.value.None? {
      return Ok(None);
    }
    var span := found.value.value;
    for i := span.start to span.end + 1
      invariant RoleFrom(lines, span.start, span.end) == RoleFrom(lines, i, span.end)
    {
      var bare := Bare(lines[i]);
      if !(ROLE_MARK <= bare) {
        continue;
      }
      if bare == RoleLine(Server) {
        return Ok(Some(Server));
      }
      if bare == RoleLine(Dev) {
        return Ok(Some(Dev));
      }
      return Err(OddRole(i + 1));
    }
    return Ok(None);
  }

  /** `_pick_role`: the flag, else the role of the block, else a server. */
  function PickRole(flag: Option<Role>, text: string): Result<Role, Failure> {
    if flag.Some? then Ok(flag.value)
    else
      match RoleOf(text)
      case Err(failure) => Err(failure)
      case Ok(None) => Ok(Server)
      case Ok(Some(role)) => Ok(role)
  }

  // ------------------------------------------------------------------ what the file says outside the block

  function OutsideReads(lines: seq<string>, span: Option<Span>): seq<Option<Assignment>>
    requires SpanIn(lines, span)
  {
    match span
    case None => Reads(lines)
    case Some(s) => Reads(lines[..s.start]) + Reads(lines[s.end + 1..])
  }

  /** The three names that pick the mode and the profiles, as `.env` sets them. */
  datatype Settings = Settings(file: Option<string>, separator: Option<string>, profiles: Option<string>)

  /** `_dotenv_last`, for those names. */
  function SettingsIn(settings: seq<Option<Assignment>>): Settings {
    Settings(LastDefinition(settings, "COMPOSE_FILE"), LastDefinition(settings, "COMPOSE_PATH_SEPARATOR"),
             LastDefinition(settings, "COMPOSE_PROFILES"))
  }

  // ------------------------------------------------------------------ one run

  /** The Compose rows of the mode, and the profiles that are on. */
  datatype Picked = Picked(rows: seq<Row>, enabled: set<string>)

  /** Everything a run is given but the role and the text: the files, the host and the template; how the
      flags and the environment pick from the settings of `.env`; and the comments of the block, those that
      open it and those on a plan. */
  datatype Job = Job(base: Setup, template: map<string, string>, pick: Settings -> Picked,
                     intro: seq<string>, remarks: (Setup, nat) -> seq<string>)

  function SetupOf(job: Job, settings: Settings, role: Role): Setup {
    var picked := job.pick(settings);
    job.base.(rows := picked.rows, enabled := picked.enabled, role := role)
  }

  /** A comment that is one line, no marker, and names no role. */
  predicate Remark(line: string) {
    && "#" <= line && (forall i :: 0 <= i < |line| ==> !BreaksLine(line[i]))
    && line != BLOCK_START && line != BLOCK_END && !(ROLE_MARK <= line)
  }

  predicate Remarks(lines: seq<string>) {
    forall i :: 0 <= i < |lines| ==> Remark(lines[i])
  }

  /** The files are in order and name their keys as names, and the remarks are remarks. */
  ghost predicate Sound(job: Job) {
    && (forall settings, role :: Good(SetupOf(job, settings, role)))
    && (forall rung :: rung in job.base.ladder ==> IsName(rung.key))
    && Remarks(job.intro) && (forall s, k :: Remarks(job.remarks(s, k)))
  }

  /** The largest step at or below `k` that fits, or 0. */
  function Down(s: Setup, k: nat): (r: nat)
    requires Good(s) && k <= STEPS
    ensures r <= k
  {
    if k == 0 || Fits(s, k, true) then k else Down(s, k - 1)
  }

  function StepOf(s: Setup): (k: nat)
    requires Good(s)
    ensures k <= STEPS
  {
    if Fits(s, 0, true) then Down(s, STEPS) else 0
  }

  lemma {:induction false} DownIsLargest(s: Setup, k: nat, j: nat)
    requires Good(s) && k <= STEPS && Fits(s, 0, true) && LargestFitting(s, j) && j <= k
    ensures Down(s, k) == j
  {
    hide Fits, Good;
    if k > j {
      DownIsLargest(s, k - 1, j);
    }
  }

  function SettingLine(s: Setup, rung: Rung, k: nat): string
    requires Good(s) && rung in s.ladder && k <= STEPS
  {
    rung.key + "=" + ValueOf(s, rung, k, false)
  }

  function SettingLines(s: Setup, k: nat): (r: seq<string>)
    requires Good(s) && k <= STEPS
    ensures |r| == |s.ladder|
    ensures forall i :: 0 <= i < |r| ==> r[i] == SettingLine(s, s.ladder[i], k)
  {
    seq(|s.ladder|, i requires 0 <= i < |s.ladder| => SettingLine(s, s.ladder[i], k))
  }

  /** `render_block`, as lines. */
  function Render(job: Job, s: Setup, k: nat): seq<string>
    requires Good(s) && k <= STEPS
  {
    [BLOCK_START] + job.intro + [RoleLine(s.role)] + job.remarks(s, k) + SettingLines(s, k) + [BLOCK_END]
  }

  /** The text that a run writes. */
  ghost function RunOf(job: Job, flag: Option<Role>, text: string): Result<string, Failure>
    requires Sound(job)
  {
    var role, found := PickRole(flag, text), FindBlock(Lines(text));
    if role.Err? then Err(role.error)
    else if found.Err? then Err(Unreadable(found.error))
    else
      var s := SetupOf(job, SettingsIn(OutsideReads(Lines(text), found.value)), role.value);
      if s.role.Server? && !Fits(s, 0, true) then Err(TooSmall)
      else
        match Splice(text, Render(job, s, StepOf(s)), job.template)
        case Err(refusal) => Err(Unreadable(refusal))
        case Ok(written) => Ok(written)
  }

  /** `_run`, from the role to the spliced text. */
  method Run(job: Job, flag: Option<Role>, text: string) returns (r: Result<string, Failure>)
    requires Sound(job)
    ensures r == RunOf(job, flag, text)
  {
    var role := Server;
    if flag.Some? {
      role := flag.value;
    } else {
      var remembered := BlockRole(text);
      if remembered.Err? {
        return Err(remembered.error);
      }
      if remembered.value.Some? {
        role := remembered.value.value;
      }
    }
    var found := FindBlock(Lines(text));
    if found.Err? {
      return Err(Unreadable(found.error));
    }
    var s := SetupOf(job, SettingsIn(OutsideReads(Lines(text), found.value)), role);
    var plan := Compute(s);
    if plan.Refused? {
      return Err(TooSmall);
    }
    if Fits(s, 0, true) {
      DownIsLargest(s, STEPS, plan.k);
    }
    var spliced := SpliceText(text, Render(job, s, plan.k), job.template);
    match spliced {
      case Err(refusal) => return Err(Unreadable(refusal));
      case Ok(written) => return Ok(written);
    }
  }

  // ------------------------------------------------------------------ the block is well formed

  /** Printable, and so no line end. */
  predicate Printable(text: string) {
    forall i :: 0 <= i < |text| ==> ' ' <= text[i] <= '~'
  }

  lemma DigitsArePlain(digits: string, suffix: string)
    requires AllDigits(digits) && Printable(suffix)
    ensures Printable(digits + suffix)
  {
    forall i | 0 <= i < |digits + suffix| ensures ' ' <= (digits + suffix)[i] <= '~' {
      assert i < |digits| ==> IsDigit((digits + suffix)[i]);
    }
  }

  lemma CpusArePlain(hundredths: nat)
    ensures Printable(FormatCpus(hundredths))
  {
    var part := Sizes.PartOf(hundredths % 100);
    FormatsAs(hundredths);
    DigitsArePlain(part, "");
    assert part + "" == part;
    DigitsArePlain(NatText(hundredths / 100), "." + part);
    assert NatText(hundredths / 100) + ("." + part) == NatText(hundredths / 100) + "." + part;
  }

  lemma MibIsPlain(mib: nat)
    ensures Printable(FormatMib(mib)) && Printable(FormatRedis(mib))
  {
    var number := if mib % GIB_MIB == 0 then mib / GIB_MIB else mib;
    DigitsArePlain(NatText(number), "g");
    DigitsArePlain(NatText(number), "m");
    DigitsArePlain(NatText(number), "gb");
    DigitsArePlain(NatText(number), "mb");
  }

  lemma ValuesArePlain(s: Setup, rung: Rung, k: nat)
    requires Good(s) && rung in s.ladder && k <= STEPS
    ensures Printable(ValueOf(s, rung, k, false))
  {
    match rung.rule
    case ConfigFile =>
    case Cpus(lo, hi) =>
      CpusAreBetween(s, lo, hi);
      CpusArePlain(CpuAt(s, lo, hi));
    case Memory(_, _) => MibIsPlain(MemOf(s, rung, k));
    case Replicas(lo, hi) =>
      ReplicasAreBetween(s.host, lo, hi, k, false);
      var count := ReplicasAt(s.host, lo, hi, k, false);
      DigitsArePlain(NatText(count), "");
      assert NatText(count) + "" == NatText(count);
    case _ => MibIsPlain(MaxMemoryOf(s, rung, k));
  }

  predicate PlainLine(line: string) {
    GoodLine(line) && line != BLOCK_START && line != BLOCK_END
  }

  lemma SettingIsGood(name: string, value: string)
    requires IsName(name) && Printable(value)
    ensures var line := name + "=" + value;
      PlainLine(line)
  {
    assert BLOCK_START[0] == '#' && BLOCK_END[0] == '#';
    var line := name + "=" + value;
    assert line[|name|] == '=' && forall i :: 0 <= i < |name| ==> line[i] == name[i];
    assert IndexOf(line, '=') == |name| && line[..|name|] == name;
    forall i | 0 <= i < |line| ensures !BreaksLine(line[i]) {
      assert i > |name| ==> line[i] == value[i - |name| - 1];
    }
  }

  lemma RoleLineIsPlain(role: Role)
    ensures PlainLine(RoleLine(role)) && ROLE_MARK <= RoleLine(role)
    ensures RoleLine(Server) != RoleLine(Dev)
  {
    var line := RoleLine(role);
    assert line[2] == 'r' && BLOCK_START[2] == '>' && BLOCK_END[2] == '<';
    assert |RoleLine(Server)| != |RoleLine(Dev)|;
    CommentIsGood(line);
  }

  lemma RemarkIsPlain(line: string)
    requires Remark(line)
    ensures PlainLine(line)
  {
    CommentIsGood(line);
  }

  /** The lines between the markers. */
  function Middle(job: Job, s: Setup, k: nat): seq<string>
    requires Good(s) && k <= STEPS
  {
    job.intro + [RoleLine(s.role)] + job.remarks(s, k) + SettingLines(s, k)
  }

  lemma MiddleIsPlain(job: Job, s: Setup, k: nat, i: nat)
    requires Sound(job) && Good(s) && s.ladder == job.base.ladder && k <= STEPS
    requires i < |Middle(job, s, k)|
    ensures PlainLine(Middle(job, s, k)[i])
  {
    hide PlainLine, Remark, GoodLine, Good, ValueOf, RoleLine;
    var intro, remarks, line := job.intro, job.remarks(s, k), Middle(job, s, k)[i];
    if i < |intro| {
      RemarkIsPlain(line);
    } else if i == |intro| {
      RoleLineIsPlain(s.role);
    } else if i < |intro| + 1 + |remarks| {
      assert Remarks(remarks) && line == remarks[i - |intro| - 1];
      RemarkIsPlain(line);
    } else {
      var rung := s.ladder[i - |intro| - 1 - |remarks|];
      assert line == SettingLine(s, rung, k) && rung in s.ladder;
      ValuesArePlain(s, rung, k);
      SettingIsGood(rung.key, ValueOf(s, rung, k, false));
    }
  }

  /** What is rendered is a block that `splice` can place. */
  lemma RenderIsGood(job: Job, s: Setup, k: nat)
    requires Sound(job) && Good(s) && s.ladder == job.base.ladder && k <= STEPS
    ensures GoodBlock(Render(job, s, k))
  {
    hide Sound, Good, GoodLine, Middle;
    var block, middle := Render(job, s, k), Middle(job, s, k);
    RenderIsMiddle(job, s, k);
    GoodMarkers();
    forall i: nat | i < |block| ensures GoodAt(block, i) {
      if 0 < i < |block| - 1 {
        MiddleIsPlain(job, s, k, i - 1);
        assert block[i] == middle[i - 1];
      }
    }
  }

  lemma RenderIsMiddle(job: Job, s: Setup, k: nat)
    requires Good(s) && k <= STEPS
    ensures Render(job, s, k) == [BLOCK_START] + Middle(job, s, k) + [BLOCK_END]
  {
    hide Good, SettingLines, RoleLine;
  }

  // ------------------------------------------------------------------ what a second run finds

  /** The role of a spliced file is the role of the plan in it. */
  lemma RoleIsRemembered(job: Job, s: Setup, k: nat, text: string)
    requires Sound(job) && Good(s) && s.ladder == job.base.ladder && k <= STEPS
    requires Splice(text, Render(job, s, k), job.template).Ok?
    ensures RoleOf(Splice(text, Render(job, s, k), job.template).value) == Ok(Some(s.role))
  {
    RenderIsGood(job, s, k);
    RenderBegins(job, s, k);
    hide Sound, Good, Render, Splice, RoleOf, RoleLine;
    HeldRole(text, Render(job, s, k), job.template, |job.intro| + 1, s.role);
  }

  lemma HeldRole(text: string, block: seq<string>, template: map<string, string>, m: nat, role: Role)
    requires GoodBlock(block) && Splice(text, block, template).Ok?
    requires m < |block| && block[m] == RoleLine(role) && forall i :: 0 <= i < m ==> !(ROLE_MARK <= block[i])
    ensures RoleOf(Splice(text, block, template).value) == Ok(Some(role))
  {
    hide Splice, HoldsBlock, RoleFrom, RoleOf, NewSpan, GoodBlock, FindBlock, Lines, RoleLine;
    SpliceFound(text, block, template);
    TheBlockStandsWhole(text, block, template);
    RoleIsIn(text, block, template);
    HeldFrom(Lines(Splice(text, block, template).value),
             NewSpan(text, block, FindBlock(Lines(text)).value).start, block, m, role);
  }

  lemma RoleIsIn(text: string, block: seq<string>, template: map<string, string>)
    requires GoodBlock(block) && Splice(text, block, template).Ok? && FindBlock(Lines(text)).Ok?
    ensures var n := Lines(Splice(text, block, template).value);
      var start := NewSpan(text, block, FindBlock(Lines(text)).value).start;
      && start + |block| - 1 < |n|
      && RoleOf(Splice(text, block, template).value) == RoleFrom(n, start, start + |block| - 1)
  {
    hide Splice, FindBlock, Lines, HeadOf, RoleFrom, GoodBlock, Spliced;
    SplicesAgain(text, block, template);
  }

  lemma SpliceFound(text: string, block: seq<string>, template: map<string, string>)
    requires Splice(text, block, template).Ok?
    ensures FindBlock(Lines(text)).Ok?
  {
    hide FindBlock, Lines;
  }

  lemma RenderBegins(job: Job, s: Setup, k: nat)
    requires Good(s) && k <= STEPS && Remarks(job.intro)
    ensures var block, n := Render(job, s, k), |job.intro| + 1;
      && n < |block| - 1 && block[n] == RoleLine(s.role)
      && forall i :: 0 <= i < n ==> !(ROLE_MARK <= block[i])
  {
    hide Good, SettingLines;
    var block, n := Render(job, s, k), |job.intro| + 1;
    assert BLOCK_START[2] == '>' && ROLE_MARK[2] == 'r';
    forall i | 0 <= i < n ensures !(ROLE_MARK <= block[i]) {
      if i > 0 {
        assert block[i] == job.intro[i - 1] && Remark(job.intro[i - 1]);
      }
    }
  }

  lemma HeldFrom(n: seq<string>, start: nat, block: seq<string>, m: nat, role: Role)
    requires m < |block| && HoldsBlock(n, start, block)
    requires block[m] == RoleLine(role) && forall i :: 0 <= i < m ==> !(ROLE_MARK <= block[i])
    ensures RoleFrom(n, start, start + |block| - 1) == Ok(Some(role))
  {
    hide Bare, RoleLine, RoleFrom;
    forall i | start <= i < start + m ensures !(ROLE_MARK <= Bare(n[i])) {
      assert HasAt(n, start + (i - start), block[i - start]);
    }
    RoleSkips(n, start, start + m, start + |block| - 1);
    assert HasAt(n, start + m, block[m]);
    RoleIsRead(n, start + m, start + |block| - 1, role);
  }

  lemma RoleIsRead(n: seq<string>, i: nat, end: nat, role: Role)
    requires i <= end < |n| && Bare(n[i]) == RoleLine(role)
    ensures RoleFrom(n, i, end) == Ok(Some(role))
  {
    hide Bare;
    RoleLineIsPlain(role);
  }

  lemma {:induction false} RoleSkips(n: seq<string>, i: nat, stop: nat, end: nat)
    requires i <= stop <= end < |n|
    requires forall k :: i <= k < stop ==> !(ROLE_MARK <= Bare(n[k]))
    ensures RoleFrom(n, i, end) == RoleFrom(n, stop, end)
    decreases stop - i
  {
    hide Bare;
    if i < stop {
      RoleSkips(n, i + 1, stop, end);
    }
  }

  /** Splicing leaves what the file says outside the block as it was. */
  lemma OutsideIsTheSame(text: string, block: seq<string>, template: map<string, string>)
    requires GoodBlock(block) && Splice(text, block, template).Ok?
    ensures var n := Lines(Splice(text, block, template).value);
      FindBlock(Lines(text)).Ok? && FindBlock(n).Ok?
      && OutsideReads(n, FindBlock(n).value) == OutsideReads(Lines(text), FindBlock(Lines(text)).value)
  {
    hide Splice, FindBlock, Lines, Bare, HeadOf, TailOf, NewBlock, Reads, GoodBlock, ClosedAt;
    SpliceFound(text, block, template);
    SplicesAgain(text, block, template);
    var span := FindBlock(Lines(text)).value;
    hide Spliced;
    PartsAre(text, block, span);
    HeadReads(text, span);
  }

  lemma PartsAre(text: string, block: seq<string>, span: Option<Span>)
    requires block != [] && SpanIn(Lines(text), span)
    ensures var n, place := Spliced(text, block, span), NewSpan(text, block, span);
      && place.start <= place.end < |n|
      && n[..place.start] == HeadOf(text, span) && n[place.end + 1..] == TailOf(text, span)
  {
    hide Lines, HeadOf, TailOf, NewBlock, ClosedAt;
    OuterParts(HeadOf(text, span), NewBlock(block, Eol(text), ClosedAt(text, span)), TailOf(text, span));
  }

  lemma OuterParts<T>(a: seq<T>, b: seq<T>, c: seq<T>)
    ensures (a + b + c)[..|a|] == a && (a + b + c)[|a| + |b|..] == c
  {
  }

  lemma HeadReads(text: string, span: Option<Span>)
    requires SpanIn(Lines(text), span)
    ensures OutsideReads(Lines(text), span) == Reads(HeadOf(text, span)) + Reads(TailOf(text, span))
  {
    hide Lines, Bare;
    if span.None? {
      forall j | 0 <= j < |Lines(text)| ensures Reads(HeadOf(text, span))[j] == Reads(Lines(text))[j] {
        HeadAt(text, span, j);
      }
      assert Reads(HeadOf(text, span)) == Reads(Lines(text)) && Reads([]) == [];
    }
  }

  /** Running again on the same host, without the role flag or with the same one, finds the same role, mode
      and profiles, renders the same block, and changes no byte: if and only if the file was not one that
      had no block and ended in a lone carriage return. */
  lemma RerunChangesNothingIff(job: Job, flag: Option<Role>, text: string, again: Option<Role>)
    requires Sound(job) && RunOf(job, flag, text).Ok?
    requires again.None? || PickRole(flag, text) == Ok(again.value)
    ensures var written := RunOf(job, flag, text).value;
      && RoleOf(written) == Ok(Some(PickRole(flag, text).value))
      && RunOf(job, again, written).Ok?
      && (RunOf(job, again, written).value == written
          <==> !(FindBlock(Lines(text)) == Ok(None) && LoneReturn(text)))
  {
    var role, found := PickRole(flag, text).value, FindBlock(Lines(text)).value;
    var s := SetupOf(job, SettingsIn(OutsideReads(Lines(text), found)), role);
    var block := Render(job, s, StepOf(s));
    hide Sound, Splice, Render, StepOf, OutsideReads, RoleOf, LoneReturn, Fits;
    RenderIsGood(job, s, StepOf(s));
    RoleIsRemembered(job, s, StepOf(s), text);
    OutsideIsTheSame(text, block, job.template);
    SpliceTwiceIsOnceIff(text, block, job.template);
  }

  /** A sound job: one service, whatever `.env` says. */
  lemma ASoundJob(host: Host)
    requires host.cpus >= 0.0
    ensures var ladder := [Rung("APP_MEM", Memory(1024, 2048)), Rung("APP_REPLICAS", Replicas(1, 3))];
      var row := Row("app", {}, false, Interpolated("APP_REPLICAS", "3"), Plain("1"),
                     Interpolated("APP_MEM", "2g"));
      Sound(Job(Setup(ladder, 800, 2400, [], host, Server, {}), map[], _ => Picked([row], {}), ["# a"],
                (_, _) => ["# b"]))
  {
    hide Good, IsName, Remark;
    var ladder := [Rung("APP_MEM", Memory(1024, 2048)), Rung("APP_REPLICAS", Replicas(1, 3))];
    var row := Row("app", {}, false, Interpolated("APP_REPLICAS", "3"), Plain("1"),
                   Interpolated("APP_MEM", "2g"));
    var job := Job(Setup(ladder, 800, 2400, [], host, Server, {}), map[], _ => Picked([row], {}), ["# a"],
                   (_, _) => ["# b"]);
    forall settings, role ensures Good(SetupOf(job, settings, role)) {
      OneService(host, role);
      assert SetupOf(job, settings, role) == Setup(ladder, 800, 2400, [row], host, role, {});
    }
    NamesAndRemarks();
    forall s, k ensures Remarks(job.remarks(s, k)) {
      assert job.remarks(s, k) == ["# b"];
    }
    assert Remarks(job.intro);
  }

  lemma NamesAndRemarks()
    ensures IsName("APP_MEM") && IsName("APP_REPLICAS") && Remark("# a") && Remark("# b")
  {
    assert BLOCK_START[2] == '>' && BLOCK_END[2] == '<' && "# a"[2] == 'a' && "# b"[2] == 'b';
  }
}
