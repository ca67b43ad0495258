/** The verdict of the supply-chain gate, from its four inputs to its exit code: `main` and `_failed` of
    deploy/supply-chain/supply_chain_check.py; and what a pass rests on. */
module Verdict {
  import opened Wrappers
  import opened Text
  import opened Versions
  import opened Licences
  import opened PolicyFile
  import opened Gate

  /** The three reports of one run that got as far as a verdict, and `_failed` over them. */
  predicate Passed(licences: Report, vulns: VulnReport, missing: seq<Unaudited>) {
    licences.violations == [] && vulns.violations == {} && missing == []
  }

  /** Exception `e` is about advisory `v` of `d`, under its own id or an alias that the audit gives it. */
  ghost predicate IsAbout(e: VulnException, deps: seq<Dep>, d: Dep, v: Vuln)
    requires d.Dep?
  {
    e.package == Normalise(d.name)
    && (e.id == v.id
        || exists d', v' :: Reports(deps, d', v') && KeyOf(d', v') == KeyOf(d, v) && e.id in v'.aliases)
  }

  /** Some unexpired exception of the policy covers advisory `v` of dependency `d`. */
  ghost predicate Excused(deps: seq<Dep>, d: Dep, v: Vuln, exceptions: seq<VulnException>, today: int)
    requires d.Dep?
  {
    exists e :: e in exceptions && IsAbout(e, deps, d, v) && today <= e.expires
  }

  lemma CoveredIffExcused(deps: seq<Dep>, d: Dep, v: Vuln, exceptions: seq<VulnException>, today: int)
    requires Reports(deps, d, v)
    ensures KeyOf(d, v) in Merge(map[], deps)
    ensures StatusAt(KeyOf(d, v), Merge(map[], deps), exceptions, today).Excepted?
       <==> Excused(deps, d, v, exceptions, today)
  {
    var m, k := Merge(map[], deps), KeyOf(d, v);
    MergeIsUnion(map[], deps, k);
    ExceptedIffCovered(k.package, IdsOf(k, m[k]), exceptions, today, false);
    forall e ensures CoveredBy(e, exceptions, k.package, IdsOf(k, m[k]), today)
      <==> e in exceptions && e.package == k.package && today <= e.expires
           && (e.id == v.id || e.id in At(m, k))
    {
    }
  }

  /** What PASS says about the environment that was scanned. */
  ghost predicate Clean(components: seq<Component>, policy: Policy, deps: seq<Dep>,
                        exceptions: seq<VulnException>, today: int)
  {
    && (forall i :: 0 <= i < |components| ==> Acceptable(components[i], policy))
    && (forall i :: 0 <= i < |components| ==> Normalise(components[i].name) in Audited(deps))
    && (forall d, v :: Reports(deps, d, v) ==> Excused(deps, d, v, exceptions, today))
  }

  /** PASS is exact: the gate passes if and only if every component may ship and was audited, and
      every advisory the audit reports is excused by an exception valid today. */
  lemma PassIffClean(sbom: Sbom, policy: Policy, deps: seq<Dep>, frozen: seq<string>,
                     exceptions: seq<VulnException>, today: int)
    requires Usable(sbom)
    ensures var cs := Objects(sbom.components.value);
      Passed(ReportOn(cs, policy),
             ReportOf(deps, exceptions, today),
             MissingOf(sbom.components.value, Audited(deps), SkipReasons(deps), FrozenNames(frozen)))
      <==> Clean(cs, policy, deps, exceptions, today)
  {
    hide ReportOn, ReportOf, MissingOf, Audited, SkipReasons, FrozenNames, Acceptable, Excused, Normalise;
    var cs := Objects(sbom.components.value);
    CleanIffAllAcceptable(cs, policy);
    NothingMissingIffAllAudited(sbom.components.value, Audited(deps), SkipReasons(deps),
                                FrozenNames(frozen));
    assert forall i :: 0 <= i < |cs| ==> Some(cs[i]) in sbom.components.value;
    AdvisoriesCleanIffExcused(deps, exceptions, today);
  }

  lemma AdvisoriesCleanIffExcused(deps: seq<Dep>, exceptions: seq<VulnException>, today: int)
    ensures ReportOf(deps, exceptions, today).violations == {}
       <==> forall d, v :: Reports(deps, d, v) ==> Excused(deps, d, v, exceptions, today)
  {
    var m := Merge(map[], deps);
    var bad := ReportOf(deps, exceptions, today).violations;
    forall d, v | Reports(deps, d, v)
      ensures KeyOf(d, v) in m
      ensures KeyOf(d, v) !in bad <==> Excused(deps, d, v, exceptions, today)
    {
      CoveredIffExcused(deps, d, v, exceptions, today);
    }
    forall k | k in m ensures exists d, v :: Reports(deps, d, v) && KeyOf(d, v) == k {
      MergeIsUnion(map[], deps, k);
    }
  }

  // ------------------------------------------------------------------ the exit code

  /** 0 is a pass, 1 a violation, 2 a scan that did not run. */
  ghost function ExitCode(document: Option<Fields>, sbom: Sbom, deps: Option<seq<Dep>>,
                          frozen: seq<string>, today: int): nat
  {
    if document.None? || Load(document.value).None? || !Usable(sbom) then 2
    else
      var loaded := Load(document.value).value;
      if InputProblem(deps, frozen, loaded.exceptions, today).Some? then 2
      else if Passed(ReportOn(Objects(sbom.components.value), loaded.policy),
                     ReportOf(deps.value, loaded.exceptions, today),
                     MissingOf(sbom.components.value, Audited(deps.value), SkipReasons(deps.value),
                               FrozenNames(frozen)))
      then 0
      else 1
  }

  /** `main`, once the files are read; None stands for a policy that is no TOML. */
  method RunGate(document: Option<Fields>, sbom: Sbom, deps: Option<seq<Dep>>, frozen: seq<string>,
                 today: int) returns (code: nat)
    ensures code == ExitCode(document, sbom, deps, frozen, today)
  {
    if document.None? {
      return 2;
    }
    var loaded := LoadPolicy(document.value);
    if loaded.None? {
      return 2;
    }
    var licences := CheckLicences(sbom, loaded.value.policy);
    if licences.None? {
      return 2;
    }
    var vulns := CheckVulnerabilities(deps, frozen, loaded.value.exceptions, today);
    if vulns.Err? {
      return 2;
    }
    // The audit has its list by now, so coverage is never refused.
    var coverage := CheckCoverage(sbom.components.value, deps, frozen);
    return if licences.value.violations == [] && vulns.value.violations == {} && coverage.value == []
      then 0 else 1;
  }

  /** The decision was made by the owner on exactly these licence entries, and the release lies between
      the releases that two clauses of the decision name. */
  ghost predicate StillDecided(c: Component, d: Decision) {
    && DecisionId(d.decision) && multiset(LicenceTexts(c.entries)) == multiset(d.declared)
    && ReleaseOf(c.version).Some?
    && exists i: nat, j: nat :: LowerClauseAt(d.versions, i) && UpperClauseAt(d.versions, j)
         && TupleAtMost(d.versions[i].bound, ReleaseOf(c.version).value)
         && TupleAtMost(ReleaseOf(c.version).value, d.versions[j].bound)
  }

  /** The licence of a component without a decision can be read and is satisfied. */
  predicate LicenceSatisfied(c: Component, policy: Policy) {
    var e := ComponentExpression(c.entries, policy.aliases);
    e.Some? && Satisfied(e.value, OkIds(c, policy), policy.exceptions)
  }

  /** An exception of the owner's in force today, and for ninety days more at most. */
  predicate InForce(e: VulnException, today: int) {
    DecisionId(e.decision) && e.added <= today <= e.expires <= today + MAX_EXCEPTION_DAYS
  }

  lemma AcceptableRestsOn(data: Fields, c: Component)
    requires Load(data).Some? && Acceptable(c, Load(data).value.policy)
    ensures var policy := Load(data).value.policy;
      if Normalise(c.name) in policy.packages
      then StillDecided(c, policy.packages[Normalise(c.name)]) else LicenceSatisfied(c, policy)
  {
    hide Load, DecisionId, Normalise;
    var policy := Load(data).value.policy;
    LoadedPolicyIsBounded(data);
    if Normalise(c.name) in policy.packages {
      var d := policy.packages[Normalise(c.name)];
      var i, j := ClosedRangeIsBounded(d.versions);
      assert VersionIn(c.version, d.versions);
    }
  }

  /** What exit code 0 says, from the text of the policy on: every component was audited, and ships
      because an owner decision made on these very licences names releases on both sides of it, or
      because its licence is satisfied; and every advisory is excused by an exception of the owner's
      that had started by today and ends within ninety days of today. */
  lemma PassRestsOn(document: Option<Fields>, sbom: Sbom, deps: Option<seq<Dep>>, frozen: seq<string>,
                    today: int)
    requires ExitCode(document, sbom, deps, frozen, today) == 0
    ensures document.Some? && Load(document.value).Some? && Usable(sbom) && deps.Some?
    ensures var policy, cs := Load(document.value).value.policy, Objects(sbom.components.value);
      forall i :: 0 <= i < |cs| ==>
        && Normalise(cs[i].name) in Audited(deps.value)
        && (if Normalise(cs[i].name) in policy.packages
            then StillDecided(cs[i], policy.packages[Normalise(cs[i].name)])
            else LicenceSatisfied(cs[i], policy))
    ensures forall d, v :: Reports(deps.value, d, v) ==>
      exists e :: e in Load(document.value).value.exceptions && IsAbout(e, deps.value, d, v)
                  && InForce(e, today)
  {
    var loaded := Load(document.value).value;
    hide Load;
    var cs := Objects(sbom.components.value);
    PassIffClean(sbom, loaded.policy, deps.value, frozen, loaded.exceptions, today);
    forall i | 0 <= i < |cs|
      ensures if Normalise(cs[i].name) in loaded.policy.packages
              then StillDecided(cs[i], loaded.policy.packages[Normalise(cs[i].name)])
              else LicenceSatisfied(cs[i], loaded.policy)
    {
      AcceptableRestsOn(document.value, cs[i]);
    }
    LoadedPolicyIsBounded(document.value);
    forall d, v | Reports(deps.value, d, v)
      ensures exists e :: e in loaded.exceptions && IsAbout(e, deps.value, d, v) && InForce(e, today)
    {
      ExcuseIsInForce(deps.value, d, v, loaded.exceptions, today);
    }
  }

  lemma ExcuseIsInForce(deps: seq<Dep>, d: Dep, v: Vuln, exceptions: seq<VulnException>, today: int)
    requires Reports(deps, d, v) && Excused(deps, d, v, exceptions, today)
    requires NoneInFuture(exceptions, today) && forall e :: e in exceptions ==> Loadable(e)
    ensures exists e :: e in exceptions && IsAbout(e, deps, d, v) && InForce(e, today)
  {
    hide DecisionId, Normalise;
    var e :| e in exceptions && IsAbout(e, deps, d, v) && today <= e.expires;
    var i :| 0 <= i < |exceptions| && exceptions[i] == e;
    assert exceptions[i].added <= today;
  }

  /** The gate exits with 0 if and only if its inputs are accepted and the environment is clean. */
  lemma ExitsZeroIffClean(document: Option<Fields>, sbom: Sbom, deps: Option<seq<Dep>>,
                          frozen: seq<string>, today: int)
    ensures ExitCode(document, sbom, deps, frozen, today) == 0
       <==> document.Some? && Load(document.value).Some? && Usable(sbom)
            && InputProblem(deps, frozen, Load(document.value).value.exceptions, today).None?
            && Clean(Objects(sbom.components.value), Load(document.value).value.policy, deps.value,
                     Load(document.value).value.exceptions, today)
  {
    hide Load, Clean;
    if document.Some? && Load(document.value).Some? && Usable(sbom) && deps.Some? {
      var loaded := Load(document.value).value;
      PassIffClean(sbom, loaded.policy, deps.value, frozen, loaded.exceptions, today);
    }
  }
}
