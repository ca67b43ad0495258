/** Compose limits computed from a host: `_values`, `_standing_totals`, `_fits` and `compute` of
    deploy/auto_size.py. Compose rows and the two size files are inputs. */
module Sizer {
  import opened Wrappers
  import opened Text
  import opened Sizes

  const STEPS: nat := 1000
  const CPUS_PER_REPLICA: nat := 8
  const REDIS_CACHE_OVERHEAD_MIB: nat := 768
  const CONTAINER_CONF: string := "/etc/postgresql/sizes/auto.conf"

  datatype Role = Server | Dev

  datatype Host = Host(cpus: real, memoryGb: real)

  /** A key of the size files. */
  datatype Rung = Rung(key: string, rule: Rule)

  /** What a key's ending asks for, with its ends in `small` and `large`. */
  datatype Rule =
    | ConfigFile
    | Cpus(lo: nat, hi: nat)
    | Memory(lo: nat, hi: nat)
    | Replicas(lo: nat, hi: nat)
    | StreamMaxMemory
    | CacheMaxMemory

  /** A Compose value: plain text or `${name:-fallback}`. */
  datatype Raw = Plain(text: string) | Interpolated(name: string, fallback: string)

  datatype Row = Row(name: string, profiles: set<string>, oneshot: bool, replicas: Raw, cpus: Raw,
                     memory: Raw)

  /** The size files and the Compose rows of the mode, with the host and what the caller chose. */
  datatype Setup = Setup(ladder: seq<Rung>, cpuFloor: nat, cpuSpan: nat, rows: seq<Row>,
                         host: Host, role: Role, enabled: set<string>)

  // ------------------------------------------------------------------ the rules

  /** The branches of `_values` and the two ends they read. None where the source raises. */
  function ReadRung(key: string, small: string, large: string): Option<Rung> {
    if key == "POSTGRES_CONFIG_FILE" then Some(Rung(key, ConfigFile))
    else if EndsWith(key, "_CPUS") then
      var lo, hi := ReadCpus(small), ReadCpus(large);
      if lo.Some? && hi.Some? then Some(Rung(key, Cpus(lo.value, hi.value))) else None
    else if EndsWith(key, "_MEM") then
      var lo, hi := ReadMib(small), ReadMib(large);
      if lo.Some? && hi.Some? then Some(Rung(key, Memory(lo.value, hi.value))) else None
    else if EndsWith(key, "_REPLICAS") then
      var lo, hi := ReadNat(small), ReadNat(large);
      if lo.Some? && hi.Some? then Some(Rung(key, Replicas(lo.value, hi.value))) else None
    else if key == "REDIS_STREAM_MAXMEMORY" then Some(Rung(key, StreamMaxMemory))
    else if key == "REDIS_CACHE_MAXMEMORY" then Some(Rung(key, CacheMaxMemory))
    else None
  }

  predicate MaxMemory(rule: Rule) {
    rule.StreamMaxMemory? || rule.CacheMaxMemory?
  }

  function MemoryKey(rule: Rule): string
    requires MaxMemory(rule)
  {
    if rule.StreamMaxMemory? then "REDIS_STREAM_MEM" else "REDIS_CACHE_MEM"
  }

  // ------------------------------------------------------------------ what the size files promise

  predicate Ordered(rule: Rule) {
    match rule
    case Cpus(lo, hi) => lo <= hi
    case Memory(lo, hi) => lo <= hi
    case Replicas(lo, hi) => lo <= hi
    case _ => true
  }

  function KeysOf(ladder: seq<Rung>): set<string> {
    set i | 0 <= i < |ladder| :: ladder[i].key
  }

  /** The rung of a key. */
  function Lookup(ladder: seq<Rung>, key: string): (r: Rung)
    requires key in KeysOf(ladder)
    ensures r in ladder && r.key == key
  {
    if ladder[0].key == key then ladder[0]
    else
      assert exists i :: 1 <= i < |ladder| && ladder[i].key == key;
      assert forall i :: 1 <= i < |ladder| ==> ladder[1..][i - 1] == ladder[i];
      Lookup(ladder[1..], key)
  }

  predicate Distinct(ladder: seq<Rung>) {
    forall i, j :: 0 <= i < j < |ladder| ==> ladder[i].key != ladder[j].key
  }

  /** The two ends of every key are in order. */
  predicate GoodRungs(ladder: seq<Rung>) {
    forall rung :: rung in ladder ==> Ordered(rung.rule)
  }

  /** A Redis maximum has the limit it follows. */
  predicate GoodMaxima(ladder: seq<Rung>) {
    forall rung :: rung in ladder && MaxMemory(rung.rule) ==>
      exists rung' :: rung' in ladder && rung'.key == MemoryKey(rung.rule) && rung'.rule.Memory?
                      && (rung.rule.CacheMaxMemory? ==> rung'.rule.lo >= REDIS_CACHE_OVERHEAD_MIB)
  }

  predicate GoodLadder(ladder: seq<Rung>) {
    Distinct(ladder) && GoodRungs(ladder) && GoodMaxima(ladder)
  }

  datatype Kind = OfReplicas | OfCpus | OfMemory

  predicate Suits(rule: Rule, kind: Kind) {
    match kind
    case OfReplicas => rule.Replicas?
    case OfCpus => rule.Cpus?
    case OfMemory => rule.Memory?
  }

  predicate Readable(text: string, kind: Kind) {
    match kind
    case OfReplicas => ReadNat(text).Some?
    case OfCpus => ReadNumber(text).Some?
    case OfMemory => ReadBytes(text).Some?
  }

  /** A Compose value names a key with the right kind of rule, or reads on its own. */
  predicate GoodRaw(ladder: seq<Rung>, raw: Raw, kind: Kind) {
    match raw
    case Plain(text) => Readable(text, kind)
    case Interpolated(name, fallback) =>
      if name in KeysOf(ladder) then Suits(Lookup(ladder, name).rule, kind)
      else Readable(fallback, kind)
  }

  predicate GoodRow(ladder: seq<Rung>, row: Row) {
    && GoodRaw(ladder, row.replicas, OfReplicas)
    && GoodRaw(ladder, row.cpus, OfCpus)
    && GoodRaw(ladder, row.memory, OfMemory)
  }

  predicate Good(s: Setup) {
    && GoodLadder(s.ladder)
    && (forall row :: row in s.rows ==> GoodRow(s.ladder, row))
    && s.cpuSpan > 0
    && s.host.cpus >= 0.0
  }

  // ------------------------------------------------------------------ the numbers

  /** `DEV_PEAKS_MIB`, in tenths of a MiB. */
  function PeakTenths(key: string): Option<nat> {
    match key
    case "QDRANT_MEM" => Some(75192)
    case "POSTGRES_MEM" => Some(28772)
    case "APP_MEM" => Some(10335)
    case "LOKI_MEM" => Some(10208)
    case "MINIO_MEM" => Some(7977)
    case "GRAFANA_MEM" => Some(5117)
    case "PROMETHEUS_MEM" => Some(2148)
    case "OPS_SCHEDULER_MEM" => Some(1832)
    case "REDIS_CACHE_MEM" => Some(210)
    case "ALERT_SINK_MEM" => Some(311)
    case "OLLAMA_BRIDGE_MEM" => Some(59)
    case _ => None
  }

  function Max(a: int, b: int): int { if a >= b then a else b }

  function CeilDiv(a: nat, b: nat): nat
    requires b > 0
  {
    (a + b - 1) / b
  }

  /** `dev_floor_mib`: the peak with a margin of 5/4, rounded up to 256 MiB, at most `large`. */
  function DevFloor(key: string, large: nat): Option<nat> {
    match PeakTenths(key)
    case None => None
    case Some(tenths) => Some(Min(CeilDiv(tenths * 5, 10 * 4 * 256) * 256, large))
  }

  /** Floored interpolation. */
  function Between(lo: int, hi: int, k: nat, steps: nat): (r: int)
    requires lo <= hi && steps > 0
  {
    lo + (k * (hi - lo)) / steps
  }

  /** `_mem_mib`. */
  function MemMib(key: string, small: nat, large: nat, k: nat, role: Role): int
    requires small <= large
  {
    var value := Between(small, large, k, STEPS);
    match if role.Dev? then DevFloor(key, large) else None
    case None => value
    case Some(floor) => Min(large, Max(value, floor))
  }

  function CpuAt(s: Setup, lo: int, hi: int): int
    requires lo <= hi && s.cpuSpan > 0
  {
    Between(lo, hi, Min(Max(Hundredths(s.host.cpus) - s.cpuFloor, 0), s.cpuSpan), s.cpuSpan)
  }

  /** Interpolated, rounded to nearest. */
  function ReplicasByMemory(lo: nat, hi: nat, k: nat): nat
    requires lo <= hi
  {
    lo + (2 * k * (hi - lo) + STEPS) / (2 * STEPS)
  }

  function ReplicasByCpu(host: Host, lo: nat, hi: nat): int {
    Min(Max((host.cpus / CPUS_PER_REPLICA as real).Floor, lo), hi)
  }

  function ReplicasAt(host: Host, lo: nat, hi: nat, k: nat, memoryBound: bool): int
    requires lo <= hi
  {
    if memoryBound then ReplicasByMemory(lo, hi, k)
    else Min(ReplicasByMemory(lo, hi, k), ReplicasByCpu(host, lo, hi))
  }

  /** `_maxmemory_mib`. */
  function MaxMemoryMib(rule: Rule, mem: int): int
    requires MaxMemory(rule)
  {
    if rule.StreamMaxMemory? then (mem * 2) / 3 else mem - REDIS_CACHE_OVERHEAD_MIB
  }

  // ------------------------------------------------------------------ bounds

  lemma BetweenIsBetween(lo: int, hi: int, k: nat, steps: nat)
    requires lo <= hi && 0 < steps && k <= steps
    ensures lo <= Between(lo, hi, k, steps) <= hi
    ensures k == 0 ==> Between(lo, hi, k, steps) == lo
    ensures k == steps ==> Between(lo, hi, k, steps) == hi
  {
    var d := hi - lo;
    assert 0 <= k * d <= steps * d by {
      MulMonotone(k, steps, d);
    }
    DivMonotone(k * d, steps * d, steps);
    DivExact(d, steps);
    assert 0 * d == 0;
  }

  lemma BetweenMonotone(lo: int, hi: int, j: nat, k: nat, steps: nat)
    requires lo <= hi && 0 < steps && j <= k
    ensures Between(lo, hi, j, steps) <= Between(lo, hi, k, steps)
  {
    MulMonotone(j, k, hi - lo);
    DivMonotone(j * (hi - lo), k * (hi - lo), steps);
  }

  lemma MulMonotone(a: nat, b: nat, c: nat)
    requires a <= b
    ensures 0 <= a * c <= b * c
  {
  }

  lemma DivMonotone(a: nat, b: nat, c: nat)
    requires a <= b && c > 0
    ensures 0 <= a / c <= b / c
  {
    if a / c > b / c {
      MulMonotone(b / c + 1, a / c, c);
    }
  }

  lemma DivExact(d: nat, c: nat)
    requires c > 0
    ensures (c * d) / c == d
  {
    var q := (c * d) / c;
    assert c * q <= c * d < c * q + c;
    if q < d {
      MulMonotone(q + 1, d, c);
    } else if q > d {
      MulMonotone(d + 1, q, c);
    }
  }

  /** Every limit is between `small` and `large`, rises with the step, and starts and ends at them
      unless a measured peak lifts it. */
  lemma MemIsBetween(key: string, small: nat, large: nat, k: nat, role: Role)
    requires small <= large && k <= STEPS
    ensures small <= MemMib(key, small, large, k, role) <= large
    ensures k == STEPS ==> MemMib(key, small, large, k, role) == large
    ensures k == 0 && role.Server? ==> MemMib(key, small, large, k, role) == small
  {
    BetweenIsBetween(small, large, k, STEPS);
  }

  lemma MemMonotone(key: string, small: nat, large: nat, j: nat, k: nat, role: Role)
    requires small <= large && j <= k
    ensures MemMib(key, small, large, j, role) <= MemMib(key, small, large, k, role)
  {
    BetweenMonotone(small, large, j, k, STEPS);
  }

  /** On a development host no measured service gets less than its peak and a quarter, unless
      `large` itself is less. */
  lemma DevKeepsThePeak(key: string, small: nat, large: nat, k: nat)
    requires small <= large && k <= STEPS && PeakTenths(key).Some?
    ensures var mem := MemMib(key, small, large, k, Dev);
            mem == large || mem as real >= PeakTenths(key).value as real / 10.0 * 1.25
  {
    BetweenIsBetween(small, large, k, STEPS);
    var tenths := PeakTenths(key).value;
    var up := CeilDiv(tenths * 5, 10240);
    assert up * 10240 >= tenths * 5;
    assert (up * 256) as real >= tenths as real / 10.0 * 1.25;
  }

  lemma RoundedBelow(d: nat, k: nat)
    requires k <= STEPS
    ensures (2 * k * d + STEPS) / (2 * STEPS) <= d
    ensures k == 0 ==> (2 * k * d + STEPS) / (2 * STEPS) == 0
    ensures k == STEPS ==> (2 * k * d + STEPS) / (2 * STEPS) == d
  {
    MulMonotone(k, STEPS, d);
    assert 2 * k * d == 2 * (k * d);
    assert k == 0 ==> k * d == 0;
  }

  lemma ReplicasAreBetween(host: Host, lo: nat, hi: nat, k: nat, memoryBound: bool)
    requires lo <= hi && k <= STEPS
    ensures lo <= ReplicasAt(host, lo, hi, k, memoryBound) <= hi
    ensures ReplicasAt(host, lo, hi, k, memoryBound) <= ReplicasAt(host, lo, hi, k, true)
    ensures k == 0 ==> ReplicasAt(host, lo, hi, k, memoryBound) == lo
    ensures k == STEPS ==> ReplicasAt(host, lo, hi, k, true) == hi
  {
    RoundedBelow(hi - lo, k);
  }

  lemma ReplicasMonotone(lo: nat, hi: nat, j: nat, k: nat)
    requires lo <= hi && j <= k
    ensures ReplicasByMemory(lo, hi, j) <= ReplicasByMemory(lo, hi, k)
  {
    MulMonotone(j, k, hi - lo);
    assert 2 * j * (hi - lo) == 2 * (j * (hi - lo));
    assert 2 * k * (hi - lo) == 2 * (k * (hi - lo));
  }

  lemma CpusAreBetween(s: Setup, lo: int, hi: int)
    requires lo <= hi && s.cpuSpan > 0
    ensures lo <= CpuAt(s, lo, hi) <= hi
    ensures Hundredths(s.host.cpus) <= s.cpuFloor ==> CpuAt(s, lo, hi) == lo
    ensures Hundredths(s.host.cpus) >= s.cpuFloor + s.cpuSpan ==> CpuAt(s, lo, hi) == hi
  {
    BetweenIsBetween(lo, hi, Min(Max(Hundredths(s.host.cpus) - s.cpuFloor, 0), s.cpuSpan), s.cpuSpan);
  }
}
