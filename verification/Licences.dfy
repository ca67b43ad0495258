/** The licence half of the supply-chain gate: `_unmet`, `component_expression`, `_decided`,
    `_check_component` and `check_licences` of deploy/supply-chain/supply_chain_check.py. */
module Licences {
  import opened Wrappers
  import opened Text
  import opened Spdx
  import opened SpdxProofs
  import opened Versions

  // ------------------------------------------------------------------ satisfaction

  datatype Missing = MissingId(name: string) | MissingWith(base: string, exception: string)

  /** `_unmet`: what stops `e` from being satisfied; empty means satisfied. */
  function Unmet(e: Expr, ids: set<string>, exceptions: set<string>): seq<Missing>
    decreases e, 1
  {
    match e
    case Id(name) => if name in ids then [] else [MissingId(name)]
    case With(base, exception) =>
      if base in ids && exception in exceptions then [] else [MissingWith(base, exception)]
    case And(items) => UnmetAll(items, ids, exceptions)
    case Or(items) =>
      if AnyMet(items, ids, exceptions) then [] else UnmetAll(items, ids, exceptions)
  }

  function UnmetAll(items: seq<Expr>, ids: set<string>, exceptions: set<string>): seq<Missing>
    decreases items, 0
  {
    if items == [] then []
    else Unmet(items[0], ids, exceptions) + UnmetAll(items[1..], ids, exceptions)
  }

  predicate AnyMet(items: seq<Expr>, ids: set<string>, exceptions: set<string>)
    decreases items, 0
  {
    items != [] && (Unmet(items[0], ids, exceptions) == [] || AnyMet(items[1..], ids, exceptions))
  }

  /** What the expression means: OR is a choice, AND needs every part. */
  predicate Satisfied(e: Expr, ids: set<string>, exceptions: set<string>) {
    match e
    case Id(name) => name in ids
    case With(base, exception) => base in ids && exception in exceptions
    case And(items) => forall i :: 0 <= i < |items| ==> Satisfied(items[i], ids, exceptions)
    case Or(items) => exists i :: 0 <= i < |items| && Satisfied(items[i], ids, exceptions)
  }

  /** No Or without alternatives anywhere: weaker than the shape the parser establishes. */
  predicate Alternatives(e: Expr) {
    match e
    case Id(_) => true
    case With(_, _) => true
    case And(items) => forall i :: 0 <= i < |items| ==> Alternatives(items[i])
    case Or(items) => items != [] && forall i :: 0 <= i < |items| ==> Alternatives(items[i])
  }

  lemma {:induction false} WellFormedHasAlternatives(e: Expr)
    requires WellFormed(e)
    ensures Alternatives(e)
    decreases e, 1
  {
    if Compound(e) {
      AllHaveAlternatives(e.items);
    }
  }

  lemma {:induction false} AllHaveAlternatives(items: seq<Expr>)
    requires AllWellFormed(items)
    ensures forall i :: 0 <= i < |items| ==> Alternatives(items[i])
    decreases items, 0
  {
    if items != [] {
      WellFormedHasAlternatives(items[0]);
      AllHaveAlternatives(items[1..]);
      assert forall i :: 0 < i < |items| ==> items[i] == items[1..][i - 1];
    }
  }

  /** The licence check is exact: it reports nothing exactly when the expression is satisfied. */
  lemma {:induction false} UnmetIsExact(e: Expr, ids: set<string>, exceptions: set<string>)
    requires Alternatives(e)
    ensures Unmet(e, ids, exceptions) == [] <==> Satisfied(e, ids, exceptions)
    decreases e, 1
  {
    if Compound(e) {
      UnmetItems(e.items, ids, exceptions);
    }
  }

  lemma {:induction false} UnmetItems(items: seq<Expr>, ids: set<string>, exceptions: set<string>)
    requires forall i :: 0 <= i < |items| ==> Alternatives(items[i])
    ensures UnmetAll(items, ids, exceptions) == []
       <==> forall i :: 0 <= i < |items| ==> Satisfied(items[i], ids, exceptions)
    ensures AnyMet(items, ids, exceptions)
       <==> exists i :: 0 <= i < |items| && Satisfied(items[i], ids, exceptions)
    decreases items, 0
  {
    if items != [] {
      var tail := items[1..];
      UnmetIsExact(items[0], ids, exceptions);
      UnmetItems(tail, ids, exceptions);
      assert forall i :: 0 < i < |items| ==> items[i] == tail[i - 1];
      assert forall i :: 0 <= i < |tail| ==> tail[i] == items[i + 1];
    }
  }

  /** Why the shape matters: an Or without alternatives is reported as satisfied. */
  lemma EmptyOrIsMisread(ids: set<string>, exceptions: set<string>)
    ensures Unmet(Or([]), ids, exceptions) == [] && !Satisfied(Or([]), ids, exceptions)
  {
    assert UnmetAll([], ids, exceptions) == [];
  }

  /** Allowing more never breaks a satisfied expression. */
  lemma {:induction false} SatisfiedIsMonotone(e: Expr, ids: set<string>, exceptions: set<string>,
                                               ids': set<string>, exceptions': set<string>)
    requires ids <= ids' && exceptions <= exceptions' && Satisfied(e, ids, exceptions)
    ensures Satisfied(e, ids', exceptions')
  {
    match e
    case And(items) =>
      forall i | 0 <= i < |items| ensures Satisfied(items[i], ids', exceptions') {
        SatisfiedIsMonotone(items[i], ids, exceptions, ids', exceptions');
      }
    case Or(items) =>
      var i :| 0 <= i < |items| && Satisfied(items[i], ids, exceptions);
      SatisfiedIsMonotone(items[i], ids, exceptions, ids', exceptions');
    case _ =>
  }

  predicate Grants(m: Missing, ids: set<string>, exceptions: set<string>) {
    match m
    case MissingId(name) => name in ids
    case MissingWith(base, exception) => base in ids && exception in exceptions
  }

  /** Everything reported has been granted. */
  predicate Granted(missing: seq<Missing>, ids: set<string>, exceptions: set<string>) {
    forall i :: 0 <= i < |missing| ==> Grants(missing[i], ids, exceptions)
  }

  lemma GrantedParts(left: seq<Missing>, right: seq<Missing>,
                     ids: set<string>, exceptions: set<string>)
    requires Granted(left + right, ids, exceptions)
    ensures Granted(left, ids, exceptions) && Granted(right, ids, exceptions)
  {
    assert forall i :: 0 <= i < |left| ==> left[i] == (left + right)[i];
    assert forall i :: 0 <= i < |right| ==> right[i] == (left + right)[|left| + i];
  }

  /** The report is complete: granting what it names makes the expression satisfied. */
  lemma {:induction false} GrantingUnmetSatisfies(e: Expr, ids: set<string>, exceptions: set<string>,
                                                  ids': set<string>, exceptions': set<string>)
    requires Alternatives(e) && ids <= ids' && exceptions <= exceptions'
    requires Granted(Unmet(e, ids, exceptions), ids', exceptions')
    ensures Satisfied(e, ids', exceptions')
    decreases e, 1
  {
    UnmetIsExact(e, ids, exceptions);
    if Unmet(e, ids, exceptions) == [] {
      SatisfiedIsMonotone(e, ids, exceptions, ids', exceptions');
    } else if Compound(e) {
      GrantingItems(e.items, ids, exceptions, ids', exceptions');
      if e.Or? {
        assert Satisfied(e.items[0], ids', exceptions');
      }
    } else {
      assert Grants(Unmet(e, ids, exceptions)[0], ids', exceptions');
    }
  }

  lemma {:induction false} GrantingItems(items: seq<Expr>, ids: set<string>, exceptions: set<string>,
                                         ids': set<string>, exceptions': set<string>)
    requires forall i :: 0 <= i < |items| ==> Alternatives(items[i])
    requires ids <= ids' && exceptions <= exceptions'
    requires Granted(UnmetAll(items, ids, exceptions), ids', exceptions')
    ensures forall i :: 0 <= i < |items| ==> Satisfied(items[i], ids', exceptions')
    decreases items, 0
  {
    if items != [] {
      GrantedParts(Unmet(items[0], ids, exceptions), UnmetAll(items[1..], ids, exceptions),
                   ids', exceptions');
      GrantingUnmetSatisfies(items[0], ids, exceptions, ids', exceptions');
      GrantingItems(items[1..], ids, exceptions, ids', exceptions');
      assert forall i :: 0 < i < |items| ==> items[i] == items[1..][i - 1];
    }
  }

  // ------------------------------------------------------------------ components

  /** The `id` key of a licence object: absent, a string, or something else. */
  datatype IdField = NoId | TextId(id: string) | OddId

  /** The `text` key: absent, not an object, or an object with what is read of it. */
  datatype TextField = NoText | OddText | Attached(encoded: bool, content: Option<string>)

  datatype Licence = Licence(id: IdField, name: Option<string>, text: TextField)

  /** One element of `licenses`, with the two keys that are read when they have the right type. */
  datatype Entry = NotAnObject | Entry(expression: Option<string>, license: Option<Licence>)

  datatype Component = Component(name: string, version: string, kind: string, entries: seq<Entry>)

  datatype Decision =
    Decision(expression: Expr, declared: seq<string>, versions: Range, decision: string)

  datatype Policy = Policy(
    allowed: set<string>, approved: set<string>, exceptions: set<string>, agpl: set<string>,
    fontLicences: set<string>, fontExtensions: seq<string>,
    aliases: map<string, string>, packages: map<string, Decision>)

  const CLASSIFIER_PREFIX := "License :: OSI Approved :: "

  function RemovePrefix(text: string, prefix: string): string {
    if prefix <= text then text[|prefix|..] else text
  }

  predicate Separator(c: char) {
    c in "-_."
  }

  /** Every run of separators becomes one hyphen. */
  function CollapseSeparators(name: string, inRun: bool): string {
    if name == "" then ""
    else if Separator(name[0]) then
      (if inRun then "" else "-") + CollapseSeparators(name[1..], true)
    else [name[0]] + CollapseSeparators(name[1..], false)
  }

  /** `normalise_name` (PEP 503). */
  function Normalise(name: string): string {
    Lower(CollapseSeparators(name, false))
  }

  /** `_licence_name`. */
  function LicenceName(licence: Licence): Option<string> {
    if licence.text.Attached? && licence.text.encoded then None
    else if licence.text.Attached? && licence.text.content.Some? then
      Some(Strip(licence.text.content.value))
    else if licence.name.Some? then Some(RemovePrefix(Strip(licence.name.value), CLASSIFIER_PREFIX))
    else None
  }

  /** `_licence_texts`. */
  function LicenceTexts(entries: seq<Entry>): seq<string> {
    if entries == [] then []
    else
      var tail := LicenceTexts(entries[1..]);
      var entry := entries[0];
      if entry.NotAnObject? then tail
      else if entry.expression.Some? then [entry.expression.value] + tail
      else if entry.license.None? then tail
      else if entry.license.value.id.TextId? then [entry.license.value.id.id] + tail
      else if LicenceName(entry.license.value).Some? then
        [LicenceName(entry.license.value).value] + tail
      else tail
  }

  function FirstExpression(entries: seq<Entry>): Option<string> {
    if entries == [] then None
    else if entries[0].Entry? && entries[0].expression.Some? then entries[0].expression
    else FirstExpression(entries[1..])
  }

  function LicencesOf(entries: seq<Entry>): seq<Licence> {
    if entries == [] then []
    else if entries[0].Entry? && entries[0].license.Some? then
      [entries[0].license.value] + LicencesOf(entries[1..])
    else LicencesOf(entries[1..])
  }

  function IdsIn(licences: seq<Licence>): seq<Expr> {
    if licences == [] then []
    else if licences[0].id.TextId? then [Id(licences[0].id.id)] + IdsIn(licences[1..])
    else IdsIn(licences[1..])
  }

  function NamesIn(licences: seq<Licence>): seq<string> {
    if licences == [] then []
    else if licences[0].id.NoId? && LicenceName(licences[0]).Some? then
      [LicenceName(licences[0]).value] + NamesIn(licences[1..])
    else NamesIn(licences[1..])
  }

  function ClassifierNames(licences: seq<Licence>): set<string> {
    if licences == [] then {}
    else
      var l := licences[0];
      (if l.name.Some? && CLASSIFIER_PREFIX <= l.name.value && l.text.NoText?
       then {Strip(RemovePrefix(l.name.value, CLASSIFIER_PREFIX))} else {})
      + ClassifierNames(licences[1..])
  }

  function Keep(names: seq<string>, wanted: set<string>): seq<string> {
    if names == [] then []
    else (if names[0] in wanted then [names[0]] else []) + Keep(names[1..], wanted)
  }

  function Aliased(name: string, aliases: map<string, string>): string {
    if name in aliases then aliases[name] else name
  }

  /** The expressions the names stand for; None when one of them cannot be read. */
  function ParseNames(names: seq<string>, aliases: map<string, string>): Option<seq<Expr>> {
    if names == [] then Some([])
    else
      var head := Parse(Aliased(names[0], aliases));
      var tail := ParseNames(names[1..], aliases);
      if head.None? || tail.None? then None else Some([head.value] + tail.value)
  }

  /** `component_expression`: an expression wins, then the ids, then the names; several are an AND. */
  function ComponentExpression(entries: seq<Entry>, aliases: map<string, string>): Option<Expr> {
    var text := FirstExpression(entries);
    if text.Some? then Parse(Strip(text.value))
    else
      var licences := LicencesOf(entries);
      var ids := IdsIn(licences);
      if ids != [] then Some(GroupAnd(ids))
      else
        var names := NamesIn(licences);
        var classifiers := Keep(names, ClassifierNames(licences));
        var parts := ParseNames(if classifiers != [] then classifiers else names, aliases);
        if parts.None? || parts.value == [] then None else Some(GroupAnd(parts.value))
  }

  /** `_is_font_file`. */
  predicate FontFile(c: Component, policy: Policy) {
    c.kind == "file"
    && exists i :: 0 <= i < |policy.fontExtensions| && EndsWith(Lower(c.name), policy.fontExtensions[i])
  }

  datatype Basis = Allowed | Approved | Decided(decision: string) | Font | Violating

  datatype Row = Row(name: string, version: string, basis: Basis, agpl: bool)

  datatype Violation =
    | Stale(outside: bool, redeclared: bool)
    | Unreadable
    | NotAllowed(unmet: seq<Missing>)

  type Outcome = (Row, Option<Violation>)

  /** `_decided`; two sorted lists are equal exactly when the multisets are. */
  function CheckDecided(c: Component, d: Decision, policy: Policy): Outcome {
    var outside := !VersionIn(c.version, d.versions);
    var redeclared := multiset(LicenceTexts(c.entries)) != multiset(d.declared);
    if outside || redeclared then
      (Row(c.name, c.version, Violating, false), Some(Stale(outside, redeclared)))
    else
      (Row(c.name, c.version, Decided(d.decision), Ids(d.expression) * policy.agpl != {}), None)
  }

  function OkIds(c: Component, policy: Policy): set<string> {
    policy.allowed + policy.approved + (if FontFile(c, policy) then policy.fontLicences else {})
  }

  /** `_check_component`. */
  function CheckComponent(c: Component, policy: Policy): Outcome {
    var key := Normalise(c.name);
    if key in policy.packages then CheckDecided(c, policy.packages[key], policy)
    else
      var e := ComponentExpression(c.entries, policy.aliases);
      if e.None? then (Row(c.name, c.version, Violating, false), Some(Unreadable))
      else
        var unmet := Unmet(e.value, OkIds(c, policy), policy.exceptions);
        var ids := Ids(e.value);
        var agpl := ids * policy.agpl != {};
        if unmet != [] then (Row(c.name, c.version, Violating, agpl), Some(NotAllowed(unmet)))
        else if FontFile(c, policy) && ids * policy.fontLicences != {} then
          (Row(c.name, c.version, Font, agpl), None)
        else
          var basis := if ids * (policy.approved - policy.allowed) != {} then Approved else Allowed;
          (Row(c.name, c.version, basis, agpl), None)
  }

  // ------------------------------------------------------------------ report

  datatype Sbom = Sbom(root: bool, components: Option<seq<Option<Component>>>)

  datatype Report = Report(rows: seq<Row>, violations: seq<Violation>)

  function Checks(cs: seq<Component>, policy: Policy): (r: seq<Outcome>)
    ensures |r| == |cs| && forall i :: 0 <= i < |cs| ==> r[i] == CheckComponent(cs[i], policy)
  {
    seq(|cs|, i requires 0 <= i < |cs| => CheckComponent(cs[i], policy))
  }

  function Rows(checks: seq<Outcome>): seq<Row> {
    if checks == [] then [] else Rows(checks[..|checks| - 1]) + [checks[|checks| - 1].0]
  }

  function Violations(checks: seq<Outcome>): seq<Violation> {
    if checks == [] then []
    else Violations(checks[..|checks| - 1]) + Listed(checks[|checks| - 1].1)
  }

  /** Rows and violations, in SBOM order. */
  function ReportOn(cs: seq<Component>, policy: Policy): Report {
    Report(Rows(Checks(cs, policy)), Violations(Checks(cs, policy)))
  }

  function Listed(v: Option<Violation>): seq<Violation> {
    if v.Some? then [v.value] else []
  }

  predicate AllObjects(components: seq<Option<Component>>) {
    forall i :: 0 <= i < |components| ==> components[i].Some?
  }

  function Objects(components: seq<Option<Component>>): (r: seq<Component>)
    requires AllObjects(components)
    ensures |r| == |components| && forall i :: 0 <= i < |r| ==> r[i] == components[i].value
  {
    seq(|components|, i requires 0 <= i < |components| => components[i].value)
  }

  /** An SBOM that is worth checking: a root, and at least one component, all of them objects. */
  predicate Usable(sbom: Sbom) {
    sbom.root && sbom.components.Some? && sbom.components.value != []
    && AllObjects(sbom.components.value)
  }

  /** One component more. */
  method AddRow(rows: seq<Row>, violations: seq<Violation>, component: Component, policy: Policy,
                ghost done: seq<Component>)
    returns (moreRows: seq<Row>, moreViolations: seq<Violation>)
    requires Report(rows, violations) == ReportOn(done, policy)
    ensures Report(moreRows, moreViolations) == ReportOn(done + [component], policy)
  {
    ReportAppend(done, component, policy);
    var (row, violation) := CheckComponent(component, policy);
    moreRows, moreViolations := rows + [row], violations;
    if violation.Some? {
      moreViolations := moreViolations + [violation.value];
    }
  }

  /** The loop of `check_licences`. */
  method CheckRows(components: seq<Option<Component>>, policy: Policy) returns (r: Option<Report>)
    ensures r.Some? == AllObjects(components)
    ensures r.Some? ==> r.value == ReportOn(Objects(components), policy)
  {
    var rows: seq<Row> := [];
    var violations: seq<Violation> := [];
    ghost var done: seq<Component> := [];
    for n := 0 to |components|
      invariant |done| == n
      invariant forall i :: 0 <= i < n ==> components[i] == Some(done[i])
      invariant Report(rows, violations) == ReportOn(done, policy)
    {
      if components[n].None? {
        assert !AllObjects(components);
        return None;
      }
      rows, violations := AddRow(rows, violations, components[n].value, policy, done);
      done := done + [components[n].value];
    }
    AllDone(components, done);
    return Some(Report(rows, violations));
  }

  lemma AllDone(components: seq<Option<Component>>, done: seq<Component>)
    requires |done| == |components|
    requires forall i :: 0 <= i < |done| ==> components[i] == Some(done[i])
    ensures AllObjects(components) && Objects(components) == done
  {
  }

  /** `check_licences`; None stands for its InputError. */
  method CheckLicences(sbom: Sbom, policy: Policy) returns (r: Option<Report>)
    ensures r.Some? == Usable(sbom)
    ensures r.Some? ==> r.value == ReportOn(Objects(sbom.components.value), policy)
  {
    if !sbom.root || sbom.components.None? || sbom.components.value == [] {
      return None;
    }
    r := CheckRows(sbom.components.value, policy);
  }

  lemma ReportAppend(cs: seq<Component>, c: Component, policy: Policy)
    ensures ReportOn(cs + [c], policy)
         == Report(ReportOn(cs, policy).rows + [CheckComponent(c, policy).0],
                   ReportOn(cs, policy).violations + Listed(CheckComponent(c, policy).1))
  {
    var checks := Checks(cs + [c], policy);
    assert checks[..|cs|] == Checks(cs, policy);
  }

  // ------------------------------------------------------------------ what a clean report means

  /** An owner decision that still describes the component. */
  predicate DecisionHolds(c: Component, d: Decision) {
    VersionIn(c.version, d.versions) && multiset(LicenceTexts(c.entries)) == multiset(d.declared)
  }

  /** The component may ship: its decision holds, or it has none and its licence is satisfied. */
  predicate Acceptable(c: Component, policy: Policy) {
    var key := Normalise(c.name);
    if key in policy.packages then DecisionHolds(c, policy.packages[key])
    else
      var e := ComponentExpression(c.entries, policy.aliases);
      e.Some? && Satisfied(e.value, OkIds(c, policy), policy.exceptions)
  }

  lemma {:induction false} ParsedNamesAreWellFormed(names: seq<string>, aliases: map<string, string>)
    requires ParseNames(names, aliases).Some?
    ensures forall i :: 0 <= i < |ParseNames(names, aliases).value| ==>
      Alternatives(ParseNames(names, aliases).value[i])
  {
    if names != [] {
      var text := Aliased(names[0], aliases);
      ParseIsStable(text);
      WellFormedHasAlternatives(Parse(text).value);
      ParsedNamesAreWellFormed(names[1..], aliases);
      assert ParseNames(names, aliases).value[1..] == ParseNames(names[1..], aliases).value;
    }
  }

  lemma {:induction false} IdsAreLeaves(licences: seq<Licence>)
    ensures forall i :: 0 <= i < |IdsIn(licences)| ==> IdsIn(licences)[i].Id?
  {
    if licences != [] {
      IdsAreLeaves(licences[1..]);
    }
  }

  /** No component can bring an Or without alternatives, so every one is read exactly. */
  lemma ComponentExpressionHasAlternatives(entries: seq<Entry>, aliases: map<string, string>)
    requires ComponentExpression(entries, aliases).Some?
    ensures Alternatives(ComponentExpression(entries, aliases).value)
  {
    var text := FirstExpression(entries);
    var licences := LicencesOf(entries);
    if text.Some? {
      ParseIsStable(Strip(text.value));
      WellFormedHasAlternatives(Parse(Strip(text.value)).value);
    } else if IdsIn(licences) != [] {
      IdsAreLeaves(licences);
    } else {
      var names := NamesIn(licences);
      var classifiers := Keep(names, ClassifierNames(licences));
      ParsedNamesAreWellFormed(if classifiers != [] then classifiers else names, aliases);
    }
  }

  lemma ComponentPassesIffAcceptable(c: Component, policy: Policy)
    ensures CheckComponent(c, policy).1.None? <==> Acceptable(c, policy)
  {
    var e := ComponentExpression(c.entries, policy.aliases);
    if e.Some? {
      ComponentExpressionHasAlternatives(c.entries, policy.aliases);
      UnmetIsExact(e.value, OkIds(c, policy), policy.exceptions);
    }
  }

  lemma {:induction false} NoneViolates(checks: seq<Outcome>)
    ensures Violations(checks) == [] <==> forall i :: 0 <= i < |checks| ==> checks[i].1.None?
    decreases |checks|
  {
    if checks != [] {
      NoneViolates(checks[..|checks| - 1]);
    }
  }

  /** The licence report is clean exactly when every component of the SBOM may ship. */
  lemma CleanIffAllAcceptable(cs: seq<Component>, policy: Policy)
    ensures ReportOn(cs, policy).violations == []
       <==> forall i :: 0 <= i < |cs| ==> Acceptable(cs[i], policy)
  {
    var checks := Checks(cs, policy);
    NoneViolates(checks);
    forall i | 0 <= i < |cs| ensures checks[i].1.None? <==> Acceptable(cs[i], policy) {
      ComponentPassesIffAcceptable(cs[i], policy);
    }
  }

  /** Several SPDX ids are an AND, never a choice: each one has to be allowed. */
  lemma {:induction false} EveryIdMustBeAllowed(c: Component, policy: Policy, licence: Licence)
    requires Normalise(c.name) !in policy.packages && FirstExpression(c.entries).None?
    requires licence in LicencesOf(c.entries) && licence.id.TextId?
    requires CheckComponent(c, policy).1.None?
    ensures licence.id.id in OkIds(c, policy)
  {
    var licences := LicencesOf(c.entries);
    IdIsListed(licences, licence);
    ComponentPassesIffAcceptable(c, policy);
    var i :| 0 <= i < |IdsIn(licences)| && IdsIn(licences)[i] == Id(licence.id.id);
    assert Satisfied(IdsIn(licences)[i], OkIds(c, policy), policy.exceptions);
  }

  lemma {:induction false} IdIsListed(licences: seq<Licence>, licence: Licence)
    requires licence in licences && licence.id.TextId?
    ensures Id(licence.id.id) in IdsIn(licences)
  {
    if licences[0] != licence {
      IdIsListed(licences[1..], licence);
    }
  }
}
