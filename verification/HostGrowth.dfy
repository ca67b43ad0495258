/** No value shrinks as the host grows: what `compute` of deploy/auto_size.py gives two hosts that
    differ only in size. */
module HostGrowth {
  import opened Wrappers
  import opened Text
  import opened Sizes
  import opened Sizer
  import opened Planner

  /** The same files, role and profiles on a host with no fewer CPUs and no less memory. */
  predicate Grows(s: Setup, t: Setup) {
    t == s.(host := t.host) && s.host.cpus <= t.host.cpus && s.host.memoryGb <= t.host.memoryGb
  }

  lemma SameMemory(s: Setup, t: Setup, raw: Raw, k: nat)
    requires Good(s) && Good(t) && Grows(s, t) && GoodRaw(s.ladder, raw, OfMemory) && k <= STEPS
    ensures MemoryOf(s, raw, k) == MemoryOf(t, raw, k)
  {
  }

  lemma SameCount(s: Setup, t: Setup, raw: Raw, k: nat)
    requires Good(s) && Good(t) && Grows(s, t) && GoodRaw(s.ladder, raw, OfReplicas) && k <= STEPS
    ensures ReplicasOf(s, raw, k, true) == ReplicasOf(t, raw, k, true)
  {
  }

  /** The budget of a step does not depend on the host. */
  lemma BudgetIgnoresHost(s: Setup, t: Setup, k: nat)
    requires Good(s) && Good(t) && Grows(s, t) && k <= STEPS
    ensures Need(s, k, true) == Need(t, k, true)
  {
    var a := Shares(s.rows, Values(s, k, true), s.enabled);
    var b := Shares(t.rows, Values(t, k, true), t.enabled);
    forall i | 0 <= i < |s.rows|
      ensures a[i].Some? && b[i].Some? && a[i].value.memory == b[i].value.memory
    {
      ShareReadBack(s, s.rows[i], k, true);
      ShareReadBack(t, s.rows[i], k, true);
      SameMemory(s, t, s.rows[i].memory, k);
      SameCount(s, t, s.rows[i].replicas, k);
    }
    SumsOrdered(a, b, Total(0.0, 0), Total(0.0, 0));
    SumsOrdered(b, a, Total(0.0, 0), Total(0.0, 0));
  }

  lemma FitsOnBigger(s: Setup, t: Setup, k: nat)
    requires Good(s) && Good(t) && Grows(s, t) && k <= STEPS && Fits(s, k, true)
    ensures Fits(t, k, true)
  {
    BudgetIgnoresHost(s, t, k);
  }

  /** The step that `compute` chooses: the largest that fits, or none of them. */
  predicate Chosen(s: Setup, k: nat)
    requires Good(s)
  {
    if Fits(s, 0, true) then LargestFitting(s, k) else k == 0
  }

  lemma StepRises(s: Setup, t: Setup, j: nat, k: nat)
    requires Good(s) && Good(t) && Grows(s, t) && Chosen(s, j) && Chosen(t, k)
    ensures j <= k <= STEPS
  {
    if Fits(s, 0, true) {
      FitsOnBigger(s, t, 0);
      FitsOnBigger(s, t, j);
    }
  }

  lemma RoundMonotone(x: real, y: real)
    requires x <= y
    ensures Round(x) <= Round(y)
  {
  }

  lemma CpusRise(s: Setup, t: Setup, lo: nat, hi: nat)
    requires Grows(s, t) && lo <= hi && s.cpuSpan > 0
    ensures CpuAt(s, lo, hi) <= CpuAt(t, lo, hi)
  {
    RoundMonotone(s.host.cpus * 100.0, t.host.cpus * 100.0);
    BetweenMonotone(lo, hi,
                    Min(Max(Hundredths(s.host.cpus) - s.cpuFloor, 0), s.cpuSpan),
                    Min(Max(Hundredths(t.host.cpus) - s.cpuFloor, 0), s.cpuSpan), s.cpuSpan);
  }

  lemma ReplicasRise(s: Host, t: Host, lo: nat, hi: nat, j: nat, k: nat)
    requires s.cpus <= t.cpus && lo <= hi && j <= k
    ensures ReplicasAt(s, lo, hi, j, false) <= ReplicasAt(t, lo, hi, k, false)
  {
    ReplicasMonotone(lo, hi, j, k);
    assert s.cpus / 8.0 <= t.cpus / 8.0;
  }

  /** Read back, the second value is at least the first. */
  predicate NoLess(rule: Rule, small: string, large: string) {
    match rule
    case ConfigFile => small == large
    case Cpus(_, _) => AtMost(ReadCpus(small), ReadCpus(large))
    case Memory(_, _) => AtMost(ReadMib(small), ReadMib(large))
    case Replicas(_, _) => AtMost(ReadNat(small), ReadNat(large))
    case _ => AtMost(ReadBytes(small), ReadBytes(large))
  }

  predicate AtMost(a: Option<nat>, b: Option<nat>) {
    a.Some? && b.Some? && a.value <= b.value
  }

  lemma MaximumRises(s: Setup, t: Setup, rung: Rung, j: nat, k: nat)
    requires Good(s) && Good(t) && Grows(s, t) && rung in s.ladder && MaxMemory(rung.rule)
    requires j <= k <= STEPS
    ensures MaxMemoryOf(s, rung, j) <= MaxMemoryOf(t, rung, k)
  {
    Followed(s.ladder, rung);
    var other := Lookup(s.ladder, MemoryKey(rung.rule));
    MemMonotone(other.key, other.rule.lo, other.rule.hi, j, k, s.role);
  }

  lemma ReadMaximum(s: Setup, rung: Rung, k: nat)
    requires Good(s) && rung in s.ladder && MaxMemory(rung.rule) && k <= STEPS
    ensures ValueOf(s, rung, k, false) == FormatRedis(MaxMemoryOf(s, rung, k))
  {
  }

  lemma RedisAtMost(a: nat, b: nat)
    requires a <= b
    ensures AtMost(ReadBytes(FormatRedis(a)), ReadBytes(FormatRedis(b)))
  {
    BytesRoundTrip(a);
    BytesRoundTrip(b);
    BytesAtMost(ReadBytes(FormatRedis(a)), ReadBytes(FormatRedis(b)), a, b);
  }

  lemma BytesAtMost(x: Option<nat>, y: Option<nat>, a: nat, b: nat)
    requires a <= b && x == Some(a * MIB) && y == Some(b * MIB)
    ensures AtMost(x, y)
  {
  }

  /** No value of the plan shrinks as the host grows: not a limit, not a share of the CPUs, not a
      count of replicas, not a Redis maximum. */
  lemma NoValueShrinks(s: Setup, t: Setup, j: nat, k: nat, rung: Rung)
    requires Good(s) && Good(t) && Grows(s, t) && Chosen(s, j) && Chosen(t, k)
    requires rung in s.ladder
    ensures j <= k <= STEPS
    ensures NoLess(rung.rule, ValueOf(s, rung, j, false), ValueOf(t, rung, k, false))
  {
    StepRises(s, t, j, k);
    match rung.rule
    case ConfigFile =>
    case Cpus(lo, hi) =>
      CpusAreBetween(s, lo, hi);
      CpusRise(s, t, lo, hi);
      CpusRoundTrip(CpuAt(s, lo, hi));
      CpusRoundTrip(CpuAt(t, lo, hi));
    case Memory(lo, hi) =>
      MemMonotone(rung.key, lo, hi, j, k, s.role);
      MibRoundTrip(MemOf(s, rung, j));
      MibRoundTrip(MemOf(t, rung, k));
    case Replicas(lo, hi) =>
      ReplicasAreBetween(s.host, lo, hi, j, false);
      ReplicasRise(s.host, t.host, lo, hi, j, k);
      NaturalRoundTrip(ReplicasAt(s.host, lo, hi, j, false));
      NaturalRoundTrip(ReplicasAt(t.host, lo, hi, k, false));
    case _ =>
      MaximumRises(s, t, rung, j, k);
      ReadMaximum(s, rung, j);
      ReadMaximum(t, rung, k);
      RedisAtMost(MaxMemoryOf(s, rung, j), MaxMemoryOf(t, rung, k));
  }

  /** A service with its own limit and replicas makes a setup that all of this is about. */
  lemma OneService(host: Host, role: Role)
    requires host.cpus >= 0.0
    ensures var ladder := [Rung("APP_MEM", Memory(1024, 2048)), Rung("APP_REPLICAS", Replicas(1, 3))];
            var row := Row("app", {}, false, Interpolated("APP_REPLICAS", "3"), Plain("1"),
                           Interpolated("APP_MEM", "2g"));
            Good(Setup(ladder, 800, 2400, [row], host, role, {}))
  {
    var ladder := [Rung("APP_MEM", Memory(1024, 2048)), Rung("APP_REPLICAS", Replicas(1, 3))];
    assert "APP_MEM"[4] != "APP_REPLICAS"[4];
    assert ladder[0].key != ladder[1].key;
    LookupFinds(ladder, 0);
    LookupFinds(ladder, 1);
    assert IsNatural("1");
    DigitsHaveNoDot("1");
  }
}
