/** The values of a step, the memory they add up to, and the search for the largest step that fits:
    `_values`, `_resolve`, `_standing_totals`, `_fits` and `compute` of deploy/auto_size.py. */
module Planner {
  import opened Wrappers
  import opened Text
  import opened Sizes
  import opened Sizer

  // ------------------------------------------------------------------ values

  function MemOf(s: Setup, rung: Rung, k: nat): (r: int)
    requires rung.rule.Memory? && Ordered(rung.rule) && k <= STEPS
    ensures 0 <= r
  {
    var rule := rung.rule;
    MemIsBetween(rung.key, rule.lo, rule.hi, k, s.role);
    MemMib(rung.key, rule.lo, rule.hi, k, s.role)
  }

  /** The limit a Redis maximum follows. */
  lemma Followed(ladder: seq<Rung>, rung: Rung)
    requires GoodLadder(ladder) && rung in ladder && MaxMemory(rung.rule)
    ensures MemoryKey(rung.rule) in KeysOf(ladder)
    ensures var other := Lookup(ladder, MemoryKey(rung.rule));
            && other.rule.Memory? && other.rule.lo <= other.rule.hi
            && (rung.rule.CacheMaxMemory? ==> other.rule.lo >= REDIS_CACHE_OVERHEAD_MIB)
  {
    var other :| other in ladder && other.key == MemoryKey(rung.rule) && other.rule.Memory?
                 && (rung.rule.CacheMaxMemory? ==> other.rule.lo >= REDIS_CACHE_OVERHEAD_MIB);
    var i :| 0 <= i < |ladder| && ladder[i] == other;
    LookupFinds(ladder, i);
  }

  function MaxMemoryOf(s: Setup, rung: Rung, k: nat): (r: int)
    requires GoodLadder(s.ladder) && rung in s.ladder && MaxMemory(rung.rule) && k <= STEPS
    ensures 0 <= r
  {
    var rule := rung.rule;
    Followed(s.ladder, rung);
    var follows := Lookup(s.ladder, MemoryKey(rule));
    var ends := follows.rule;
    MemIsBetween(follows.key, ends.lo, ends.hi, k, s.role);
    MaxMemoryMib(rule, MemOf(s, follows, k))
  }

  /** The text of one key at step `k`. */
  function ValueOf(s: Setup, rung: Rung, k: nat, memoryBound: bool): string
    requires Good(s) && rung in s.ladder && k <= STEPS
  {
    match rung.rule
    case ConfigFile => CONTAINER_CONF
    case Cpus(lo, hi) => CpusAreBetween(s, lo, hi); FormatCpus(CpuAt(s, lo, hi))
    case Memory(_, _) => FormatMib(MemOf(s, rung, k))
    case Replicas(lo, hi) =>
      ReplicasAreBetween(s.host, lo, hi, k, memoryBound);
      NatText(ReplicasAt(s.host, lo, hi, k, memoryBound))
    case _ => FormatRedis(MaxMemoryOf(s, rung, k))
  }

  function Values(s: Setup, k: nat, memoryBound: bool): map<string, string>
    requires Good(s) && k <= STEPS
  {
    map key | key in KeysOf(s.ladder) :: ValueOf(s, Lookup(s.ladder, key), k, memoryBound)
  }

  lemma {:induction false} LookupFinds(ladder: seq<Rung>, i: nat)
    requires Distinct(ladder) && i < |ladder|
    ensures ladder[i].key in KeysOf(ladder) && Lookup(ladder, ladder[i].key) == ladder[i]
  {
    var r := Lookup(ladder, ladder[i].key);
    var j :| 0 <= j < |ladder| && ladder[j] == r;
  }

  datatype Filled = Filled(text: string, memory: Option<int>)

  /** What the first pass writes and remembers: the Redis maxima wait for the limits they follow. */
  function FirstValue(s: Setup, rung: Rung, k: nat, memoryBound: bool): Filled
    requires Good(s) && rung in s.ladder && k <= STEPS
  {
    Filled(if MaxMemory(rung.rule) then "" else ValueOf(s, rung, k, memoryBound),
           if rung.rule.Memory? then Some(MemOf(s, rung, k)) else None)
  }

  function FirstValues(s: Setup, k: nat, memoryBound: bool): (r: seq<Filled>)
    requires Good(s) && k <= STEPS
    ensures |r| == |s.ladder|
    ensures forall j :: 0 <= j < |r| ==> r[j] == FirstValue(s, s.ladder[j], k, memoryBound)
  {
    seq(|s.ladder|, j requires 0 <= j < |s.ladder| => FirstValue(s, s.ladder[j], k, memoryBound))
  }

  method FillOne(s: Setup, rung: Rung, k: nat, memoryBound: bool) returns (r: Filled)
    requires Good(s) && rung in s.ladder && k <= STEPS
    ensures r == FirstValue(s, rung, k, memoryBound)
  {
    match rung.rule {
      case ConfigFile => r := Filled(CONTAINER_CONF, None);
      case Cpus(lo, hi) =>
        CpusAreBetween(s, lo, hi);
        r := Filled(FormatCpus(CpuAt(s, lo, hi)), None);
      case Memory(lo, hi) =>
        MemIsBetween(rung.key, lo, hi, k, s.role);
        var mib := MemMib(rung.key, lo, hi, k, s.role);
        r := Filled(FormatMib(mib), Some(mib));
      case Replicas(lo, hi) =>
        ReplicasAreBetween(s.host, lo, hi, k, memoryBound);
        r := Filled(NatText(ReplicasAt(s.host, lo, hi, k, memoryBound)), None);
      case _ => r := Filled("", None);
    }
  }

  method FillAt(s: Setup, i: nat, k: nat, memoryBound: bool, ghost filled: seq<Filled>)
    returns (r: Filled)
    requires Good(s) && i < |s.ladder| && k <= STEPS && filled == FirstValues(s, k, memoryBound)
    ensures r == filled[i]
  {
    r := FillOne(s, s.ladder[i], k, memoryBound);
  }

  method FirstPass(s: Setup, k: nat, memoryBound: bool, ghost filled: seq<Filled>)
    returns (out: map<string, string>, mem: map<string, int>)
    requires Good(s) && k <= STEPS && filled == FirstValues(s, k, memoryBound)
    ensures out.Keys == KeysOf(s.ladder)
    ensures forall j :: 0 <= j < |s.ladder| ==>
              s.ladder[j].key in out && out[s.ladder[j].key] == filled[j].text
    ensures forall j :: 0 <= j < |s.ladder| && filled[j].memory.Some? ==>
              s.ladder[j].key in mem && mem[s.ladder[j].key] == filled[j].memory.value
  {
    out, mem := map[], map[];
    for i := 0 to |s.ladder|
      invariant out.Keys == KeysOf(s.ladder[..i])
      invariant forall j :: 0 <= j < i ==>
                  s.ladder[j].key in out && out[s.ladder[j].key] == filled[j].text
      invariant forall j :: 0 <= j < i && filled[j].memory.Some? ==>
                  s.ladder[j].key in mem && mem[s.ladder[j].key] == filled[j].memory.value
    {
      var rung := s.ladder[i];
      var value := FillAt(s, i, k, memoryBound, filled);
      out := out[rung.key := value.text];
      if value.memory.Some? {
        mem := mem[rung.key := value.memory.value];
      }
      KeysGrow(s.ladder, i);
    }
    assert s.ladder[..|s.ladder|] == s.ladder;
  }

  method DeriveOne(s: Setup, rung: Rung, k: nat, memoryBound: bool, mem: map<string, int>)
    returns (text: string)
    requires Good(s) && rung in s.ladder && MaxMemory(rung.rule) && k <= STEPS
    requires forall j :: 0 <= j < |s.ladder| && s.ladder[j].rule.Memory? ==>
               s.ladder[j].key in mem && mem[s.ladder[j].key] == MemOf(s, s.ladder[j], k)
    ensures text == ValueOf(s, rung, k, memoryBound)
  {
    ghost var value := MaxMemoryOf(s, rung, k);
    Followed(s.ladder, rung);
    ghost var follows := Lookup(s.ladder, MemoryKey(rung.rule));
    ghost var j :| 0 <= j < |s.ladder| && s.ladder[j] == follows;
    assert s.ladder[j].rule.Memory?;
    text := FormatRedis(MaxMemoryMib(rung.rule, mem[MemoryKey(rung.rule)]));
  }

  /** The texts of all keys, in the order of the ladder. */
  function Texts(s: Setup, k: nat, memoryBound: bool): (r: seq<string>)
    requires Good(s) && k <= STEPS
    ensures |r| == |s.ladder|
    ensures forall j :: 0 <= j < |r| ==> r[j] == ValueOf(s, s.ladder[j], k, memoryBound)
  {
    seq(|s.ladder|, j requires 0 <= j < |s.ladder| => ValueOf(s, s.ladder[j], k, memoryBound))
  }

  method SecondPass(s: Setup, k: nat, memoryBound: bool, first: map<string, string>,
                    mem: map<string, int>, ghost texts: seq<string>)
    returns (out: map<string, string>)
    requires Good(s) && k <= STEPS && texts == Texts(s, k, memoryBound)
    requires forall j :: 0 <= j < |s.ladder| ==>
               s.ladder[j].key in first
               && (MaxMemory(s.ladder[j].rule) || first[s.ladder[j].key] == texts[j])
    requires forall j :: 0 <= j < |s.ladder| && s.ladder[j].rule.Memory? ==>
               s.ladder[j].key in mem && mem[s.ladder[j].key] == MemOf(s, s.ladder[j], k)
    ensures out.Keys == first.Keys
    ensures forall j :: 0 <= j < |s.ladder| ==>
              s.ladder[j].key in out && out[s.ladder[j].key] == texts[j]
  {
    hide GoodRungs, GoodMaxima, GoodRow, ValueOf, Texts, MemOf;
    out := first;
    for i := 0 to |s.ladder|
      invariant out.Keys == first.Keys
      invariant forall j :: 0 <= j < |s.ladder| && (j < i || !MaxMemory(s.ladder[j].rule)) ==>
                  out[s.ladder[j].key] == texts[j]
    {
      var rung := s.ladder[i];
      if MaxMemory(rung.rule) {
        var text := DeriveOne(s, rung, k, memoryBound, mem);
        assert text == texts[i];
        out := out[rung.key := text];
      }
    }
  }

  /** `_values`: one pass fills everything but the Redis maxima, a second pass derives those from
      the limits they follow. */
  method FillValues(s: Setup, k: nat, memoryBound: bool) returns (out: map<string, string>)
    requires Good(s) && k <= STEPS
    ensures out == Values(s, k, memoryBound)
  {
    var first, mem := FirstPass(s, k, memoryBound, FirstValues(s, k, memoryBound));
    out := SecondPass(s, k, memoryBound, first, mem, Texts(s, k, memoryBound));
    AllValues(s, k, memoryBound, out);
  }

  lemma AllValues(s: Setup, k: nat, memoryBound: bool, out: map<string, string>)
    requires Good(s) && k <= STEPS && out.Keys == KeysOf(s.ladder)
    requires forall j :: 0 <= j < |s.ladder| ==>
               out[s.ladder[j].key] == ValueOf(s, s.ladder[j], k, memoryBound)
    ensures out == Values(s, k, memoryBound)
  {
    forall key | key in out ensures out[key] == Values(s, k, memoryBound)[key] {
      var i :| 0 <= i < |s.ladder| && s.ladder[i].key == key;
      LookupFinds(s.ladder, i);
    }
  }

  lemma KeysGrow(ladder: seq<Rung>, i: nat)
    requires i < |ladder|
    ensures KeysOf(ladder[..i + 1]) == KeysOf(ladder[..i]) + {ladder[i].key}
  {
    forall key | key in KeysOf(ladder[..i]) + {ladder[i].key}
      ensures key in KeysOf(ladder[..i + 1])
    {
      if key in KeysOf(ladder[..i]) {
        var j :| 0 <= j < i && ladder[..i][j].key == key;
        assert ladder[..i + 1][j].key == key;
      } else {
        assert ladder[..i + 1][i].key == key;
      }
    }
  }

  /** Read back, every limit and count lies between its two ends. */
  lemma EveryValueIsBetween(s: Setup, rung: Rung, k: nat, memoryBound: bool)
    requires Good(s) && rung in s.ladder && k <= STEPS
    ensures var text := ValueOf(s, rung, k, memoryBound);
            (match rung.rule
             case Cpus(lo, hi) => ReadCpus(text).Some? && lo <= ReadCpus(text).value <= hi
             case Memory(lo, hi) => ReadMib(text).Some? && lo <= ReadMib(text).value <= hi
             case Replicas(lo, hi) => ReadNat(text).Some? && lo <= ReadNat(text).value <= hi
             case _ => true)
  {
    match rung.rule
    case Cpus(lo, hi) =>
      CpusAreBetween(s, lo, hi);
      CpusRoundTrip(CpuAt(s, lo, hi));
    case Memory(lo, hi) =>
      MemIsBetween(rung.key, lo, hi, k, s.role);
      MibRoundTrip(MemOf(s, rung, k));
    case Replicas(lo, hi) =>
      ReplicasAreBetween(s.host, lo, hi, k, memoryBound);
      NaturalRoundTrip(ReplicasAt(s.host, lo, hi, k, memoryBound));
    case _ =>
  }

  /** A stream's limit is at least one and a half times its maximum, and by less than 1.5 MiB more; a
      cache's exceeds its maximum by the fixed overhead. All in bytes. */
  predicate LeavesRoom(rule: Rule, top: int, limit: int) {
    if rule.StreamMaxMemory? then 3 * top <= 2 * limit < 3 * (top + MIB)
    else top + REDIS_CACHE_OVERHEAD_MIB * MIB == limit
  }

  lemma RoomInBytes(rule: Rule, limit: nat)
    requires MaxMemory(rule)
    ensures LeavesRoom(rule, MaxMemoryMib(rule, limit) * MIB, limit * MIB)
  {
  }

  lemma MaximumOf(s: Setup, i: nat, j: nat, k: nat)
    requires Good(s) && i < |s.ladder| && j < |s.ladder| && k <= STEPS
    requires MaxMemory(s.ladder[i].rule) && s.ladder[j].key == MemoryKey(s.ladder[i].rule)
    ensures s.ladder[j].rule.Memory? && Ordered(s.ladder[j].rule)
    ensures MaxMemoryOf(s, s.ladder[i], k)
         == MaxMemoryMib(s.ladder[i].rule, MemOf(s, s.ladder[j], k)) >= 0
  {
    LookupFinds(s.ladder, j);
    Followed(s.ladder, s.ladder[i]);
    var limit := MaxMemoryOf(s, s.ladder[i], k);
  }

  lemma MaximumTexts(s: Setup, i: nat, j: nat, k: nat, memoryBound: bool)
    requires Good(s) && i < |s.ladder| && j < |s.ladder| && k <= STEPS
    requires MaxMemory(s.ladder[i].rule) && s.ladder[j].rule.Memory?
    ensures ValueOf(s, s.ladder[i], k, memoryBound) == FormatRedis(MaxMemoryOf(s, s.ladder[i], k))
    ensures ValueOf(s, s.ladder[j], k, memoryBound) == FormatMib(MemOf(s, s.ladder[j], k))
  {
  }

  /** A Redis maximum leaves room under the limit it follows, as Redis and Compose read them. */
  lemma MaximumLeavesRoom(s: Setup, i: nat, j: nat, k: nat, memoryBound: bool)
    requires Good(s) && i < |s.ladder| && j < |s.ladder| && k <= STEPS
    requires MaxMemory(s.ladder[i].rule) && s.ladder[j].key == MemoryKey(s.ladder[i].rule)
    ensures exists top: nat, limit: nat ::
              && ReadBytes(ValueOf(s, s.ladder[i], k, memoryBound)) == Some(top)
              && ReadBytes(ValueOf(s, s.ladder[j], k, memoryBound)) == Some(limit)
              && LeavesRoom(s.ladder[i].rule, top, limit)
  {
    MaximumOf(s, i, j, k);
    MaximumTexts(s, i, j, k, memoryBound);
    var limit := MemOf(s, s.ladder[j], k);
    var top := MaxMemoryOf(s, s.ladder[i], k);
    BytesRoundTrip(limit);
    BytesRoundTrip(top);
    RoomInBytes(s.ladder[i].rule, limit);
    assert LeavesRoom(s.ladder[i].rule, top * MIB, limit * MIB);
  }

  // ------------------------------------------------------------------ totals

  /** `_resolve`: an empty value counts as a missing one. */
  function Resolve(raw: Raw, values: map<string, string>): string {
    match raw
    case Plain(text) => text
    case Interpolated(name, fallback) =>
      if name in values && values[name] != "" then values[name] else fallback
  }

  /** A default `docker compose up` keeps the service running. */
  predicate Standing(row: Row, enabled: set<string>) {
    row.profiles <= enabled && !row.oneshot
  }

  datatype Total = Total(cpus: real, memory: nat)

  function Times(size: nat, count: nat): nat {
    size * count
  }

  function TimesCpus(cpus: real, count: nat): real {
    cpus * count as real
  }

  /** What one row adds; None where reading a figure raises. */
  function Share(row: Row, values: map<string, string>): Option<Total> {
    var replicas := ReadNat(Resolve(row.replicas, values));
    var cpus := ReadNumber(Resolve(row.cpus, values));
    var memory := ReadBytes(Resolve(row.memory, values));
    if replicas.Some? && cpus.Some? && memory.Some? then
      Some(Total(TimesCpus(cpus.value, replicas.value), Times(memory.value, replicas.value)))
    else None
  }

  /** A row that is not standing adds nothing and is not even read. */
  function Part(row: Row, values: map<string, string>, enabled: set<string>): Option<Total> {
    if Standing(row, enabled) then Share(row, values) else Some(Total(0.0, 0))
  }

  function Shares(rows: seq<Row>, values: map<string, string>, enabled: set<string>)
    : (r: seq<Option<Total>>)
    ensures |r| == |rows|
    ensures forall i :: 0 <= i < |rows| ==> r[i] == Part(rows[i], values, enabled)
  {
    seq(|rows|, i requires 0 <= i < |rows| => Part(rows[i], values, enabled))
  }

  function Plus(total: Total, part: Total): Total {
    Total(total.cpus + part.cpus, total.memory + part.memory)
  }

  function SumOf(shares: seq<Option<Total>>, total: Total): Option<Total>
    decreases |shares|
  {
    if shares == [] then Some(total)
    else if shares[0].None? then None
    else SumOf(shares[1..], Plus(total, shares[0].value))
  }

  function Totals(rows: seq<Row>, values: map<string, string>, enabled: set<string>)
    : Option<Total>
  {
    SumOf(Shares(rows, values, enabled), Total(0.0, 0))
  }

  lemma SumStep(shares: seq<Option<Total>>, i: nat, total: Total)
    requires i < |shares|
    ensures SumOf(shares[i..], total)
         == if shares[i].None? then None else SumOf(shares[i + 1..], Plus(total, shares[i].value))
  {
    assert shares[i..][0] == shares[i] && shares[i..][1..] == shares[i + 1..];
  }

  method PartOf(row: Row, values: map<string, string>, enabled: set<string>)
    returns (r: Option<Total>)
    ensures r == Part(row, values, enabled)
  {
    if !(row.profiles <= enabled) || row.oneshot {
      return Some(Total(0.0, 0));
    }
    var replicas := ReadNat(Resolve(row.replicas, values));
    var cpus := ReadNumber(Resolve(row.cpus, values));
    var memory := ReadBytes(Resolve(row.memory, values));
    if replicas.None? || cpus.None? || memory.None? {
      return None;
    }
    r := Some(Total(TimesCpus(cpus.value, replicas.value), Times(memory.value, replicas.value)));
  }

  /** `_standing_totals`. */
  method StandingTotals(rows: seq<Row>, values: map<string, string>, enabled: set<string>)
    returns (r: Option<Total>)
    ensures r == Totals(rows, values, enabled)
  {
    var total := Total(0.0, 0);
    ghost var shares := Shares(rows, values, enabled);
    assert shares[0..] == shares;
    for i := 0 to |rows|
      invariant SumOf(shares, Total(0.0, 0)) == SumOf(shares[i..], total)
    {
      var part := PartOf(rows[i], values, enabled);
      SumStep(shares, i, total);
      if part.None? {
        return None;
      }
      total := Plus(total, part.value);
    }
    assert shares[|rows|..] == [];
    return Some(total);
  }

  // ------------------------------------------------------------------ a row read back

  function ReplicasOf(s: Setup, raw: Raw, k: nat, memoryBound: bool): nat
    requires Good(s) && GoodRaw(s.ladder, raw, OfReplicas) && k <= STEPS
  {
    match raw
    case Plain(text) => ReadNat(text).value
    case Interpolated(name, fallback) =>
      if name in KeysOf(s.ladder) then
        var rule := Lookup(s.ladder, name).rule;
        ReplicasAreBetween(s.host, rule.lo, rule.hi, k, memoryBound);
        ReplicasAt(s.host, rule.lo, rule.hi, k, memoryBound)
      else ReadNat(fallback).value
  }

  function MemoryOf(s: Setup, raw: Raw, k: nat): nat
    requires Good(s) && GoodRaw(s.ladder, raw, OfMemory) && k <= STEPS
  {
    match raw
    case Plain(text) => ReadBytes(text).value
    case Interpolated(name, fallback) =>
      if name in KeysOf(s.ladder) then MemOf(s, Lookup(s.ladder, name), k) * MIB
      else ReadBytes(fallback).value
  }

  lemma ReplicasReadBack(s: Setup, raw: Raw, k: nat, memoryBound: bool)
    requires Good(s) && GoodRaw(s.ladder, raw, OfReplicas) && k <= STEPS
    ensures ReadNat(Resolve(raw, Values(s, k, memoryBound)))
         == Some(ReplicasOf(s, raw, k, memoryBound))
  {
    if raw.Interpolated? && raw.name in KeysOf(s.ladder) {
      NaturalRoundTrip(ReplicasOf(s, raw, k, memoryBound));
    }
  }

  lemma MemoryReadBack(s: Setup, raw: Raw, k: nat, memoryBound: bool)
    requires Good(s) && GoodRaw(s.ladder, raw, OfMemory) && k <= STEPS
    ensures ReadBytes(Resolve(raw, Values(s, k, memoryBound))) == Some(MemoryOf(s, raw, k))
  {
    if raw.Interpolated? && raw.name in KeysOf(s.ladder) {
      BytesRoundTrip(MemOf(s, Lookup(s.ladder, raw.name), k));
    }
  }

  lemma FormattedCpusRead(hundredths: nat)
    ensures FormatCpus(hundredths) != "" && ReadNumber(FormatCpus(hundredths)).Some?
  {
    CpusRoundTrip(hundredths);
  }

  lemma CpusReadBack(s: Setup, raw: Raw, k: nat, memoryBound: bool)
    requires Good(s) && GoodRaw(s.ladder, raw, OfCpus) && k <= STEPS
    ensures ReadNumber(Resolve(raw, Values(s, k, memoryBound))).Some?
  {
    if raw.Interpolated? && raw.name in KeysOf(s.ladder) {
      var rung := Lookup(s.ladder, raw.name);
      CpusAreBetween(s, rung.rule.lo, rung.rule.hi);
      FormattedCpusRead(CpuAt(s, rung.rule.lo, rung.rule.hi));
    }
  }

  lemma ShareReadBack(s: Setup, row: Row, k: nat, memoryBound: bool)
    requires Good(s) && row in s.rows && k <= STEPS
    ensures Share(row, Values(s, k, memoryBound)).Some?
    ensures Share(row, Values(s, k, memoryBound)).value.memory
         == Times(MemoryOf(s, row.memory, k), ReplicasOf(s, row.replicas, k, memoryBound))
  {
    ReplicasReadBack(s, row.replicas, k, memoryBound);
    MemoryReadBack(s, row.memory, k, memoryBound);
    CpusReadBack(s, row.cpus, k, memoryBound);
  }

  // ------------------------------------------------------------------ monotone totals

  /** What the budget of `k` holds can only grow: with `k`, and from CPU-capped replicas to
      memory-bound ones. */
  predicate Under(j: nat, boundJ: bool, k: nat, boundK: bool) {
    j <= k <= STEPS && (boundJ == boundK == true || j == k) && (boundJ ==> boundK)
  }

  lemma ShareMonotone(s: Setup, row: Row, j: nat, boundJ: bool, k: nat, boundK: bool)
    requires Good(s) && row in s.rows && Under(j, boundJ, k, boundK)
    ensures Times(MemoryOf(s, row.memory, j), ReplicasOf(s, row.replicas, j, boundJ))
         <= Times(MemoryOf(s, row.memory, k), ReplicasOf(s, row.replicas, k, boundK))
  {
    MemoryMonotone(s, row.memory, j, k);
    CountMonotone(s, row.replicas, j, boundJ, k, boundK);
    ProductMonotone(MemoryOf(s, row.memory, j), MemoryOf(s, row.memory, k),
                    ReplicasOf(s, row.replicas, j, boundJ), ReplicasOf(s, row.replicas, k, boundK));
  }

  lemma ProductMonotone(a: nat, b: nat, c: nat, d: nat)
    requires a <= b && c <= d
    ensures Times(a, c) <= Times(b, d)
  {
    MulMonotone(a, b, c);
    MulMonotone(c, d, b);
  }

  lemma MemoryMonotone(s: Setup, raw: Raw, j: nat, k: nat)
    requires Good(s) && GoodRaw(s.ladder, raw, OfMemory) && j <= k <= STEPS
    ensures MemoryOf(s, raw, j) <= MemoryOf(s, raw, k)
  {
    if raw.Interpolated? && raw.name in KeysOf(s.ladder) {
      var rung := Lookup(s.ladder, raw.name);
      MemMonotone(rung.key, rung.rule.lo, rung.rule.hi, j, k, s.role);
    }
  }

  lemma CountMonotone(s: Setup, raw: Raw, j: nat, boundJ: bool, k: nat, boundK: bool)
    requires Good(s) && GoodRaw(s.ladder, raw, OfReplicas) && Under(j, boundJ, k, boundK)
    ensures ReplicasOf(s, raw, j, boundJ) <= ReplicasOf(s, raw, k, boundK)
  {
    if raw.Interpolated? && raw.name in KeysOf(s.ladder) {
      var rule := Lookup(s.ladder, raw.name).rule;
      ReplicasMonotone(rule.lo, rule.hi, j, k);
    }
  }

  lemma {:induction false} SumsOrdered(low: seq<Option<Total>>, high: seq<Option<Total>>,
                                       startL: Total, startH: Total)
    requires startL.memory <= startH.memory && |low| == |high|
    requires forall i :: 0 <= i < |low| ==>
               low[i].Some? && high[i].Some? && low[i].value.memory <= high[i].value.memory
    ensures SumOf(low, startL).Some? && SumOf(high, startH).Some?
    ensures SumOf(low, startL).value.memory <= SumOf(high, startH).value.memory
    decreases |low|
  {
    if low != [] {
      SumsOrdered(low[1..], high[1..], Plus(startL, low[0].value), Plus(startH, high[0].value));
    }
  }

  lemma TotalsMonotone(s: Setup, j: nat, boundJ: bool, k: nat, boundK: bool)
    requires Good(s) && Under(j, boundJ, k, boundK)
    ensures Totals(s.rows, Values(s, j, boundJ), s.enabled).Some?
    ensures Totals(s.rows, Values(s, k, boundK), s.enabled).Some?
    ensures Totals(s.rows, Values(s, j, boundJ), s.enabled).value.memory
         <= Totals(s.rows, Values(s, k, boundK), s.enabled).value.memory
  {
    var low := Shares(s.rows, Values(s, j, boundJ), s.enabled);
    var high := Shares(s.rows, Values(s, k, boundK), s.enabled);
    forall i | 0 <= i < |s.rows|
      ensures low[i].Some? && high[i].Some? && low[i].value.memory <= high[i].value.memory
    {
      ShareReadBack(s, s.rows[i], j, boundJ);
      ShareReadBack(s, s.rows[i], k, boundK);
      ShareMonotone(s, s.rows[i], j, boundJ, k, boundK);
    }
    SumsOrdered(low, high, Total(0.0, 0), Total(0.0, 0));
  }

  // ------------------------------------------------------------------ the search

  /** Bytes the standing services hold at step `k`. */
  function Need(s: Setup, k: nat, memoryBound: bool): nat
    requires Good(s) && k <= STEPS
  {
    TotalsMonotone(s, k, memoryBound, k, memoryBound);
    Totals(s.rows, Values(s, k, memoryBound), s.enabled).value.memory
  }

  /** The budget at step `k` never decreases, and capping replicas by CPUs only lowers it. */
  lemma NeedMonotone(s: Setup, j: nat, boundJ: bool, k: nat, boundK: bool)
    requires Good(s) && Under(j, boundJ, k, boundK)
    ensures Need(s, j, boundJ) <= Need(s, k, boundK)
  {
    TotalsMonotone(s, j, boundJ, k, boundK);
  }

  function AllowedGb(host: Host): real {
    host.memoryGb * 0.9
  }

  function Gb(bytes: nat): real {
    bytes as real / GB as real
  }

  /** `_fits`. */
  predicate Fits(s: Setup, k: nat, memoryBound: bool)
    requires Good(s) && k <= STEPS
  {
    Gb(Need(s, k, memoryBound)) <= AllowedGb(s.host)
  }

  lemma GbMonotone(a: nat, b: nat)
    requires a <= b
    ensures Gb(a) <= Gb(b)
  {
  }

  lemma FitsDownward(s: Setup, j: nat, boundJ: bool, k: nat, boundK: bool)
    requires Good(s) && Under(j, boundJ, k, boundK) && Fits(s, k, boundK)
    ensures Fits(s, j, boundJ)
  {
    NeedMonotone(s, j, boundJ, k, boundK);
    GbMonotone(Need(s, j, boundJ), Need(s, k, boundK));
  }

  predicate LargestFitting(s: Setup, k: nat)
    requires Good(s)
  {
    k <= STEPS && Fits(s, k, true) && forall j :: k < j <= STEPS ==> !Fits(s, j, true)
  }

  datatype Verdict =
    | Refused(needGb: real, allowedGb: real)
    | Planned(k: nat, values: map<string, string>, cpus: real, memoryGb: real, allowedGb: real)

  method BudgetFits(s: Setup, k: nat) returns (fits: bool, gb: real)
    requires Good(s) && k <= STEPS
    ensures fits == Fits(s, k, true) && gb == Gb(Need(s, k, true))
  {
    var values := FillValues(s, k, true);
    var totals := StandingTotals(s.rows, values, s.enabled);
    TotalsMonotone(s, k, true, k, true);
    gb := totals.value.memory as real / GB as real;
    fits := !(gb > s.host.memoryGb * 0.9);
  }

  /** The bisection: on a budget that fits at 0, the largest step that fits. */
  method Search(s: Setup) returns (k: nat)
    requires Good(s) && Fits(s, 0, true)
    ensures LargestFitting(s, k)
  {
    var low, high := 0, STEPS;
    while low < high
      invariant 0 <= low <= high <= STEPS
      invariant Fits(s, low, true)
      invariant forall j :: high < j <= STEPS ==> !Fits(s, j, true)
    {
      var mid := (low + high + 1) / 2;
      var fits, _ := BudgetFits(s, mid);
      if fits {
        low := mid;
      } else {
        forall j | mid <= j <= STEPS ensures !Fits(s, j, true) {
          if Fits(s, j, true) {
            FitsDownward(s, mid, true, j, true);
          }
        }
        high := mid - 1;
      }
    }
    k := low;
  }

  /** `compute`: a server is refused exactly when the smallest limits do not fit. Otherwise the plan is
      that of the largest step that fits, and it fits; a development host that fits nothing gets the
      smallest limits. */
  method Compute(s: Setup) returns (verdict: Verdict)
    requires Good(s)
    ensures verdict.Refused? <==> s.role.Server? && !Fits(s, 0, true)
    ensures verdict.Refused? ==> verdict.needGb == Gb(Need(s, 0, true)) > verdict.allowedGb
    ensures verdict.allowedGb == AllowedGb(s.host)
    ensures verdict.Planned? ==>
              && verdict.k <= STEPS
              && (if Fits(s, 0, true) then LargestFitting(s, verdict.k) else verdict.k == 0)
              && verdict.values == Values(s, verdict.k, false)
              && verdict.memoryGb == Gb(Need(s, verdict.k, false))
              && (Fits(s, 0, true) ==> verdict.memoryGb <= verdict.allowedGb)
  {
    var allowed := s.host.memoryGb * 0.9;
    var fits, gb := BudgetFits(s, 0);
    var k := 0;
    if fits {
      k := Search(s);
      FitsDownward(s, k, false, k, true);
    } else if s.role.Server? {
      return Refused(gb, allowed);
    }
    var values := FillValues(s, k, false);
    var totals := StandingTotals(s.rows, values, s.enabled);
    TotalsMonotone(s, k, false, k, false);
    verdict := Planned(k, values, totals.value.cpus, totals.value.memory as real / GB as real, allowed);
  }
}
