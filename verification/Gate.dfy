/** The vulnerability and coverage halves of the supply-chain gate: `check_vulnerabilities` and
    `check_coverage` of deploy/supply-chain/supply_chain_check.py. Dates are day numbers. */
module Gate {
  import opened Wrappers
  import opened Text
  import opened Versions
  import opened Licences
  import opened PolicyFile

  datatype Vuln = Vuln(id: string, aliases: seq<string>)

  /** One element of the audit's `dependencies`; `named` says the name was a string. */
  datatype Dep =
    | NotADep
    | Dep(name: string, named: bool, version: string, skip: Option<string>, vulns: seq<Vuln>)

  /** A dependency pip-audit really looked at. */
  predicate Looked(d: Dep) {
    d.Dep? && d.skip.None?
  }

  /** `_audited`. */
  function Audited(deps: seq<Dep>): set<string> {
    set i | 0 <= i < |deps| && Looked(deps[i]) && deps[i].named :: Normalise(deps[i].name)
  }

  // ------------------------------------------------------------------ the freeze file

  /** The text before the first `==` or blank. */
  function FreezeName(line: string): string {
    if line == "" || "==" <= line || IsSpace(line[0]) then ""
    else [line[0]] + FreezeName(line[1..])
  }

  predicate Listed(line: string) {
    var text := Strip(line);
    text != "" && text[0] != '#' && text[0] != '-'
  }

  function FrozenNames(lines: seq<string>): set<string> {
    set i | 0 <= i < |lines| && Listed(lines[i]) :: Normalise(FreezeName(Strip(lines[i])))
  }

  // ------------------------------------------------------------------ advisories

  datatype Key = Key(package: string, version: string, id: string)

  /** The advisories found so far, each with the aliases any source gave it. */
  type Findings = map<Key, set<string>>

  function KeyOf(d: Dep, v: Vuln): Key
    requires d.Dep?
  {
    Key(Normalise(d.name), d.version, v.id)
  }

  function At(m: Findings, k: Key): set<string> {
    if k in m then m[k] else {}
  }

  /** `advisories.setdefault(key, ...)`, then the update of the aliases. */
  function Record(m: Findings, k: Key, v: Vuln): Findings {
    m[k := At(m, k) + Elements(v.aliases)]
  }

  function RecordAll(m: Findings, d: Dep, vulns: seq<Vuln>): Findings
    requires d.Dep?
    decreases |vulns|
  {
    if vulns == [] then m else RecordAll(Record(m, KeyOf(d, vulns[0]), vulns[0]), d, vulns[1..])
  }

  function Merge(m: Findings, deps: seq<Dep>): Findings
    decreases |deps|
  {
    if deps == [] then m
    else Merge(if Looked(deps[0]) then RecordAll(m, deps[0], deps[0].vulns) else m, deps[1..])
  }

  /** The audit reports advisory `v` for dependency `d`. */
  predicate Reports(deps: seq<Dep>, d: Dep, v: Vuln) {
    d in deps && Looked(d) && v in d.vulns
  }

  /** Recording says about every key what `m` says, and adds only what `d` reports. */
  lemma {:induction false} RecordAllAdds(m: Findings, d: Dep, vulns: seq<Vuln>, k: Key)
    requires d.Dep?
    ensures var r := RecordAll(m, d, vulns);
      && (k in r <==> k in m || exists v :: v in vulns && KeyOf(d, v) == k)
      && (forall a :: a in At(r, k) <==>
            (a in At(m, k) || exists v :: v in vulns && KeyOf(d, v) == k && a in v.aliases))
    decreases |vulns|
  {
    if vulns != [] {
      var m1 := Record(m, KeyOf(d, vulns[0]), vulns[0]);
      RecordAllAdds(m1, d, vulns[1..], k);
      assert forall v :: v in vulns <==> v == vulns[0] || v in vulns[1..];
    }
  }

  /** Merging loses no advisory and no alias, and invents none. */
  lemma {:induction false} MergeIsUnion(m: Findings, deps: seq<Dep>, k: Key)
    ensures var r := Merge(m, deps);
      && (k in r <==> k in m || exists d, v :: Reports(deps, d, v) && KeyOf(d, v) == k)
      && (forall a :: a in At(r, k) <==>
            (a in At(m, k)
             || exists d, v :: Reports(deps, d, v) && KeyOf(d, v) == k && a in v.aliases))
    decreases |deps|
  {
    if deps != [] {
      var m1 := if Looked(deps[0]) then RecordAll(m, deps[0], deps[0].vulns) else m;
      if Looked(deps[0]) {
        RecordAllAdds(m, deps[0], deps[0].vulns, k);
      }
      MergeIsUnion(m1, deps[1..], k);
      assert forall d, v :: Reports(deps, d, v) <==>
        ((d == deps[0] && Looked(d) && v in d.vulns) || Reports(deps[1..], d, v));
      assert forall v :: Looked(deps[0]) && v in deps[0].vulns ==> Reports(deps, deps[0], v);
    }
  }

  // ------------------------------------------------------------------ status

  datatype Status = Excepted(cover: VulnException) | Expired | Open

  predicate Matches(e: VulnException, package: string, ids: set<string>) {
    e.package == package && e.id in ids
  }

  function StatusOf(package: string, ids: set<string>, exceptions: seq<VulnException>, today: int,
                    problems: bool): Status
  {
    if exceptions == [] then (if problems then Expired else Open)
    else if !Matches(exceptions[0], package, ids) then
      StatusOf(package, ids, exceptions[1..], today, problems)
    else if exceptions[0].expires < today then
      StatusOf(package, ids, exceptions[1..], today, true)
    else Excepted(exceptions[0])
  }

  /** `_vulnerability_status`. */
  method VulnerabilityStatus(package: string, ids: set<string>, exceptions: seq<VulnException>,
                             today: int) returns (s: Status)
    ensures s == StatusOf(package, ids, exceptions, today, false)
  {
    var problems := false;
    for i := 0 to |exceptions|
      invariant StatusOf(package, ids, exceptions, today, false)
             == StatusOf(package, ids, exceptions[i..], today, problems)
    {
      assert exceptions[i..][0] == exceptions[i] && exceptions[i..][1..] == exceptions[i + 1..];
      if Matches(exceptions[i], package, ids) {
        if !(exceptions[i].expires < today) {
          return Excepted(exceptions[i]);
        }
        problems := true;
      }
    }
    return if problems then Expired else Open;
  }

  /** A valid exception names this advisory, or one of its aliases, for this package. */
  predicate CoveredBy(e: VulnException, exceptions: seq<VulnException>, package: string,
                      ids: set<string>, today: int)
  {
    e in exceptions && Matches(e, package, ids) && today <= e.expires
  }

  lemma {:induction false} ExceptedIffCovered(package: string, ids: set<string>,
      exceptions: seq<VulnException>, today: int, problems: bool)
    ensures var s := StatusOf(package, ids, exceptions, today, problems);
      && (s.Excepted? <==> exists e :: CoveredBy(e, exceptions, package, ids, today))
      && (s.Excepted? ==> CoveredBy(s.cover, exceptions, package, ids, today))
  {
    if exceptions != [] {
      var tail := exceptions[1..];
      var problems' := problems || Matches(exceptions[0], package, ids);
      ExceptedIffCovered(package, ids, tail, today, problems');
      ExceptedIffCovered(package, ids, tail, today, problems);
      assert forall e :: CoveredBy(e, exceptions, package, ids, today) <==>
        (CoveredBy(e, tail, package, ids, today)
         || (e == exceptions[0] && Matches(e, package, ids) && today <= e.expires));
    }
  }

  // ------------------------------------------------------------------ the vulnerability report

  datatype InputError = FutureException | NoDependencies | EmptyFreeze | FrozenNotAudited

  datatype VulnReport = VulnReport(audited: nat, rows: map<Key, Status>, violations: set<Key>)

  function IdsOf(k: Key, aliases: set<string>): set<string> {
    {k.id} + aliases
  }

  function StatusAt(k: Key, m: Findings, exceptions: seq<VulnException>, today: int): Status
    requires k in m
  {
    StatusOf(k.package, IdsOf(k, m[k]), exceptions, today, false)
  }

  predicate NoneInFuture(exceptions: seq<VulnException>, today: int) {
    forall i :: 0 <= i < |exceptions| ==> exceptions[i].added <= today
  }

  /** The check a vulnerability report must pass before it says anything, in the source's order. */
  function InputProblem(deps: Option<seq<Dep>>, frozen: seq<string>,
                        exceptions: seq<VulnException>, today: int): Option<InputError>
  {
    if !NoneInFuture(exceptions, today) then Some(FutureException)
    else if deps.None? then Some(NoDependencies)
    else if FrozenNames(frozen) == {} then Some(EmptyFreeze)
    else if FrozenNames(frozen) - Audited(deps.value) != {} then Some(FrozenNotAudited)
    else None
  }

  ghost function ReportOf(deps: seq<Dep>, exceptions: seq<VulnException>, today: int): VulnReport {
    var m := Merge(map[], deps);
    VulnReport(|Audited(deps)|,
               map k | k in m :: StatusAt(k, m, exceptions, today),
               set k | k in m && !StatusAt(k, m, exceptions, today).Excepted?)
  }

  method MergeAdvisories(deps: seq<Dep>) returns (m: Findings)
    ensures m == Merge(map[], deps)
  {
    m := map[];
    for i := 0 to |deps|
      invariant Merge(map[], deps) == Merge(m, deps[i..])
    {
      assert deps[i..][0] == deps[i] && deps[i..][1..] == deps[i + 1..];
      if Looked(deps[i]) {
        var vulns := deps[i].vulns;
        ghost var before := m;
        for j := 0 to |vulns|
          invariant RecordAll(before, deps[i], vulns) == RecordAll(m, deps[i], vulns[j..])
        {
          assert vulns[j..][0] == vulns[j] && vulns[j..][1..] == vulns[j + 1..];
          m := Record(m, KeyOf(deps[i], vulns[j]), vulns[j]);
        }
      }
    }
  }

  /** The loop of `check_vulnerabilities` over the merged advisories. */
  method JudgeAll(m: Findings, exceptions: seq<VulnException>, today: int)
    returns (rows: map<Key, Status>, violations: set<Key>)
    ensures rows == map k | k in m :: StatusAt(k, m, exceptions, today)
    ensures violations == set k | k in m && !StatusAt(k, m, exceptions, today).Excepted?
  {
    rows, violations := map[], {};
    var todo := m.Keys;
    while todo != {}
      invariant todo <= m.Keys && rows.Keys == m.Keys - todo
      invariant forall k :: k in rows ==> rows[k] == StatusAt(k, m, exceptions, today)
      invariant violations == set k | k in rows && !rows[k].Excepted?
      decreases todo
    {
      var k :| k in todo;
      var status := VulnerabilityStatus(k.package, IdsOf(k, m[k]), exceptions, today);
      rows := rows[k := status];
      if !status.Excepted? {
        violations := violations + {k};
      }
      todo := todo - {k};
    }
  }

  /** `check_vulnerabilities`, with its rows keyed instead of sorted. */
  method CheckVulnerabilities(deps: Option<seq<Dep>>, frozen: seq<string>,
                              exceptions: seq<VulnException>, today: int)
    returns (r: Result<VulnReport, InputError>)
    ensures var problem := InputProblem(deps, frozen, exceptions, today);
      r == if problem.Some? then Err(problem.value) else Ok(ReportOf(deps.value, exceptions, today))
  {
    for i := 0 to |exceptions|
      invariant NoneInFuture(exceptions[..i], today)
    {
      if exceptions[i].added > today {
        return Err(FutureException);
      }
    }
    assert exceptions[..|exceptions|] == exceptions;
    if deps.None? {
      return Err(NoDependencies);
    }
    var audited := Audited(deps.value);
    var wanted := FrozenNames(frozen);
    if wanted == {} {
      return Err(EmptyFreeze);
    }
    if wanted - audited != {} {
      return Err(FrozenNotAudited);
    }
    var m := MergeAdvisories(deps.value);
    var rows, violations := JudgeAll(m, exceptions, today);
    return Ok(VulnReport(|audited|, rows, violations));
  }

  // ------------------------------------------------------------------ coverage

  datatype Why = Skipped(reason: string) | NotFrozen | LostByAudit

  datatype Unaudited = Unaudited(name: string, version: string, why: Why)

  function SkipReasons(deps: seq<Dep>): map<string, string> {
    if deps == [] then map[]
    else
      var last := deps[|deps| - 1];
      var m := SkipReasons(deps[..|deps| - 1]);
      if last.Dep? && last.skip.Some? then m[Normalise(last.name) := last.skip.value] else m
  }

  function WhyMissing(key: string, skipped: map<string, string>, frozen: set<string>): Why {
    if key in skipped then Skipped(skipped[key])
    else if key !in frozen then NotFrozen
    else LostByAudit
  }

  function MissingOf(components: seq<Option<Component>>, audited: set<string>,
                     skipped: map<string, string>, frozen: set<string>): seq<Unaudited>
  {
    if components == [] then []
    else
      var tail := MissingOf(components[1..], audited, skipped, frozen);
      if components[0].None? || Normalise(components[0].value.name) in audited then tail
      else
        var c := components[0].value;
        [Unaudited(c.name, c.version, WhyMissing(Normalise(c.name), skipped, frozen))] + tail
  }

  /** `check_coverage`, in SBOM order; None stands for its InputError. */
  method CheckCoverage(components: seq<Option<Component>>, deps: Option<seq<Dep>>,
                       frozen: seq<string>) returns (r: Option<seq<Unaudited>>)
    ensures r == if deps.None? then None
                 else Some(MissingOf(components, Audited(deps.value), SkipReasons(deps.value),
                                     FrozenNames(frozen)))
  {
    if deps.None? {
      return None;
    }
    var audited := Audited(deps.value);
    var skipped := SkipReasons(deps.value);
    var names := FrozenNames(frozen);
    var missing: seq<Unaudited> := [];
    for i := 0 to |components|
      invariant MissingOf(components, audited, skipped, names)
             == missing + MissingOf(components[i..], audited, skipped, names)
    {
      ghost var tail := components[i..];
      assert tail[0] == components[i] && tail[1..] == components[i + 1..];
      if components[i].Some? {
        var c := components[i].value;
        var key := Normalise(c.name);
        if key !in audited {
          missing := missing + [Unaudited(c.name, c.version, WhyMissing(key, skipped, names))];
        }
      }
    }
    assert components[|components|..] == [] && missing + [] == missing;
    return Some(missing);
  }

  lemma {:induction false} NothingMissingIffAllAudited(components: seq<Option<Component>>,
      audited: set<string>, skipped: map<string, string>, frozen: set<string>)
    ensures MissingOf(components, audited, skipped, frozen) == []
       <==> forall c :: c in components && c.Some? ==> Normalise(c.value.name) in audited
  {
    if components != [] {
      NothingMissingIffAllAudited(components[1..], audited, skipped, frozen);
      assert forall c :: c in components <==> c == components[0] || c in components[1..];
    }
  }
}
