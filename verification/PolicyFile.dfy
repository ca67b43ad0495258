/** The policy file of the supply-chain gate: `load_policy` and what it calls, from the parsed TOML
    document to the policy; deploy/supply-chain/supply_chain_check.py. Dates are day numbers. */
module PolicyFile {
  import opened Wrappers
  import opened Text
  import opened Spdx
  import opened SpdxProofs
  import opened Versions
  import opened Licences

  const MAX_EXCEPTION_DAYS := 90

  /** A TOML value. `Number` is whatever Python compares as a number, so a boolean is 0 or 1; `Other`
      holds the rest, a date with a time of day among it. */
  datatype Value =
    | Words(text: string)
    | Number(n: real)
    | Day(day: int)
    | Items(items: seq<Value>)
    | Table(fields: Fields)
    | Other

  type Fields = map<string, Value>

  datatype VulnException =
    VulnException(id: string, package: string, decision: string, added: int, expires: int)

  datatype Loaded = Loaded(policy: Policy, exceptions: seq<VulnException>)

  // ------------------------------------------------------------------ reading one key

  /** `_section`; None stands for the InputError here and below. */
  function Section(data: Fields, key: string): Option<Fields> {
    if key !in data then Some(map[]) else if data[key].Table? then Some(data[key].fields) else None
  }

  function AllTables(items: seq<Value>): Option<seq<Fields>> {
    if items == [] then Some([])
    else
      var tail := AllTables(items[1..]);
      if !items[0].Table? || tail.None? then None else Some([items[0].fields] + tail.value)
  }

  /** `_entries`. */
  function Entries(data: Fields, key: string): Option<seq<Fields>> {
    if key !in data then Some([]) else if data[key].Items? then AllTables(data[key].items) else None
  }

  function AllWords(items: seq<Value>): Option<seq<string>> {
    if items == [] then Some([])
    else
      var tail := AllWords(items[1..]);
      if !items[0].Words? || tail.None? then None else Some([items[0].text] + tail.value)
  }

  /** `_strings`. */
  function Strings(table: Fields, key: string): Option<seq<string>> {
    if key !in table then Some([]) else if table[key].Items? then AllWords(table[key].items) else None
  }

  /** `_text`. */
  function NonBlank(entry: Fields, key: string): Option<string> {
    if key in entry && entry[key].Words? && Strip(entry[key].text) != ""
    then Some(Strip(entry[key].text)) else None
  }

  /** An owner decision: `SRS D-<n>` or `INC<n>-Q-<n>`. */
  predicate DecisionId(text: string) {
    || ("SRS D-" <= text && IsNatural(text[6..]))
    || ("INC" <= text && exists i :: 3 < i < |text| - 3 && AllDigits(text[3..i])
                                     && text[i..i + 3] == "-Q-" && IsNatural(text[i + 3..]))
  }

  /** `_decision`. */
  function OwnerDecision(entry: Fields): Option<string> {
    if "decision" in entry && entry["decision"].Words? && DecisionId(entry["decision"].text)
    then Some(entry["decision"].text) else None
  }

  /** `_calendar_date`. */
  function CalendarDay(entry: Fields, key: string): Option<int> {
    if key in entry && entry[key].Day? then Some(entry[key].day) else None
  }

  // ------------------------------------------------------------------ one entry

  /** `_package_decision`. */
  function PackageDecision(entry: Fields): Option<(string, Decision)> {
    var name, text, versions := NonBlank(entry, "name"), NonBlank(entry, "expression"),
                                NonBlank(entry, "versions");
    var reason, decision := NonBlank(entry, "reason"), OwnerDecision(entry);
    var declared := if "declared" in entry then Strings(entry, "declared") else None;
    if name.None? || text.None? || declared.None? || versions.None? || reason.None? || decision.None?
    then None
    else
      var expression, range := Parse(text.value), ParseRange(versions.value);
      if expression.None? || range.None? then None
      else Some((Normalise(name.value),
                 Decision(expression.value, declared.value, range.value, decision.value)))
  }

  /** `_vulnerability_exception`. */
  function VulnerabilityException(entry: Fields): Option<VulnException> {
    var id, package, reason := NonBlank(entry, "id"), NonBlank(entry, "package"),
                               NonBlank(entry, "reason");
    var added, expires := CalendarDay(entry, "added"), CalendarDay(entry, "expires");
    var decision := OwnerDecision(entry);
    if id.None? || package.None? || reason.None? || added.None? || expires.None? || decision.None?
    then None
    else if expires.value < added.value || expires.value - added.value > MAX_EXCEPTION_DAYS then None
    else Some(VulnException(id.value, Normalise(package.value), decision.value,
                            added.value, expires.value))
  }

  // ------------------------------------------------------------------ the lists

  /** `done`, then the ids of `entries`, each of which names its decision. */
  function ReadApproved(done: set<string>, entries: seq<Fields>): Option<set<string>>
    decreases |entries|
  {
    if entries == [] then Some(done)
    else
      var id := NonBlank(entries[0], "id");
      if id.None? || OwnerDecision(entries[0]).None? then None
      else ReadApproved(done + {id.value}, entries[1..])
  }

  /** `done`, then the decisions of `entries`; a package has one. */
  function ReadPackages(done: map<string, Decision>, entries: seq<Fields>)
    : Option<map<string, Decision>>
    decreases |entries|
  {
    if entries == [] then Some(done)
    else
      var found := PackageDecision(entries[0]);
      if found.None? || found.value.0 in done then None
      else ReadPackages(done[found.value.0 := found.value.1], entries[1..])
  }

  predicate SameAdvisory(a: VulnException, b: VulnException) {
    a.package == b.package && a.id == b.id
  }

  predicate AlreadyExcepted(done: seq<VulnException>, e: VulnException) {
    exists i :: 0 <= i < |done| && SameAdvisory(done[i], e)
  }

  /** `done`, then the exceptions of `entries`; an advisory of a package has one. */
  function ReadExceptions(done: seq<VulnException>, entries: seq<Fields>): Option<seq<VulnException>>
    decreases |entries|
  {
    if entries == [] then Some(done)
    else
      var found := VulnerabilityException(entries[0]);
      if found.None? || AlreadyExcepted(done, found.value) then None
      else ReadExceptions(done + [found.value], entries[1..])
  }

  /** `[aliases]` as text to text. */
  function AliasesOf(table: Fields): Option<map<string, string>> {
    if forall k :: k in table ==> table[k].Words?
    then Some(map k | k in table :: table[k].text) else None
  }

  /** What the document of a policy file says; None when it is refused. */
  function Load(data: Fields): Option<Loaded> {
    var allow, fonts, aliases, flag := Section(data, "allow"), Section(data, "fonts"),
                                       Section(data, "aliases"), Section(data, "flag");
    if !("version" in data && data["version"] == Number(1.0)) then None
    else if allow.None? || fonts.None? || aliases.None? || flag.None? then None
    else
      var approvals, packages, vulnerabilities :=
        Entries(allow.value, "approved"), Entries(data, "package"), Entries(data, "vulnerability");
      if approvals.None? || packages.None? || vulnerabilities.None? then None
      else
        var approved, decided, excepted :=
          ReadApproved({}, approvals.value), ReadPackages(map[], packages.value),
          ReadExceptions([], vulnerabilities.value);
        var spdx, exceptions, agpl := Strings(allow.value, "spdx"), Strings(allow.value, "exceptions"),
                                      Strings(flag.value, "agpl");
        var fontIds, extensions := Strings(fonts.value, "spdx"), Strings(fonts.value, "extensions");
        var names := AliasesOf(aliases.value);
        if approved.None? || decided.None? || excepted.None? || spdx.None? || exceptions.None?
           || agpl.None? || fontIds.None? || extensions.None? || names.None?
        then None
        else
          Some(Loaded(
            Policy(Elements(spdx.value), approved.value, Elements(exceptions.value),
                   Elements(agpl.value), Elements(fontIds.value), extensions.value,
                   names.value, decided.value),
            excepted.value))
  }

  function Elements(xs: seq<string>): set<string> {
    set x | x in xs
  }

  // ------------------------------------------------------------------ the code

  method LoadApproved(entries: seq<Fields>) returns (r: Option<set<string>>)
    ensures r == ReadApproved({}, entries)
  {
    var approved: set<string> := {};
    for i := 0 to |entries|
      invariant ReadApproved({}, entries) == ReadApproved(approved, entries[i..])
    {
      assert entries[i..][0] == entries[i] && entries[i..][1..] == entries[i + 1..];
      var id := NonBlank(entries[i], "id");
      if id.None? || OwnerDecision(entries[i]).None? {
        return None;
      }
      approved := approved + {id.value};
    }
    return Some(approved);
  }

  method LoadPackages(entries: seq<Fields>) returns (r: Option<map<string, Decision>>)
    ensures r == ReadPackages(map[], entries)
  {
    var packages: map<string, Decision> := map[];
    for i := 0 to |entries|
      invariant ReadPackages(map[], entries) == ReadPackages(packages, entries[i..])
    {
      assert entries[i..][0] == entries[i] && entries[i..][1..] == entries[i + 1..];
      var found := PackageDecision(entries[i]);
      if found.None? || found.value.0 in packages {
        return None;
      }
      packages := packages[found.value.0 := found.value.1];
    }
    return Some(packages);
  }

  method LoadExceptions(entries: seq<Fields>) returns (r: Option<seq<VulnException>>)
    ensures r == ReadExceptions([], entries)
  {
    var vulnerabilities: seq<VulnException> := [];
    for i := 0 to |entries|
      invariant ReadExceptions([], entries) == ReadExceptions(vulnerabilities, entries[i..])
    {
      assert entries[i..][0] == entries[i] && entries[i..][1..] == entries[i + 1..];
      var found := VulnerabilityException(entries[i]);
      if found.None? || AlreadyExcepted(vulnerabilities, found.value) {
        return None;
      }
      vulnerabilities := vulnerabilities + [found.value];
    }
    return Some(vulnerabilities);
  }

  /** `load_policy`, from the parsed document on. */
  method LoadPolicy(data: Fields) returns (r: Option<Loaded>)
    ensures r == Load(data)
  {
    if !("version" in data && data["version"] == Number(1.0)) {
      return None;
    }
    var allow, fonts, aliases, flag := Section(data, "allow"), Section(data, "fonts"),
                                       Section(data, "aliases"), Section(data, "flag");
    if allow.None? || fonts.None? || aliases.None? || flag.None? {
      return None;
    }
    var approvals, packages, vulnerabilities :=
      Entries(allow.value, "approved"), Entries(data, "package"), Entries(data, "vulnerability");
    if approvals.None? || packages.None? || vulnerabilities.None? {
      return None;
    }
    var approved := LoadApproved(approvals.value);
    var decided := LoadPackages(packages.value);
    var excepted := LoadExceptions(vulnerabilities.value);
    var spdx, exceptions, agpl := Strings(allow.value, "spdx"), Strings(allow.value, "exceptions"),
                                  Strings(flag.value, "agpl");
    var fontIds, extensions := Strings(fonts.value, "spdx"), Strings(fonts.value, "extensions");
    var names := AliasesOf(aliases.value);
    if approved.None? || decided.None? || excepted.None? || spdx.None? || exceptions.None?
       || agpl.None? || fontIds.None? || extensions.None? || names.None? {
      return None;
    }
    return Some(Loaded(
      Policy(Elements(spdx.value), approved.value, Elements(exceptions.value), Elements(agpl.value),
             Elements(fontIds.value), extensions.value, names.value, decided.value),
      excepted.value));
  }

  // ------------------------------------------------------------------ what is accepted, and what it says

  function NameAt(entries: seq<Fields>, i: nat): string
    requires i < |entries| && PackageDecision(entries[i]).Some?
  {
    PackageDecision(entries[i]).value.0
  }

  /** Every entry reads, and no two name the same package, nor one of `done`. */
  predicate PackagesRead(done: set<string>, entries: seq<Fields>) {
    && (forall i :: 0 <= i < |entries| ==> PackageDecision(entries[i]).Some?)
    && (forall i :: 0 <= i < |entries| ==> NameAt(entries, i) !in done)
    && (forall i, j :: 0 <= i < j < |entries| ==> NameAt(entries, i) != NameAt(entries, j))
  }

  lemma PackagesReadStep(done: set<string>, entries: seq<Fields>)
    requires entries != [] && PackageDecision(entries[0]).Some?
    ensures PackagesRead(done, entries)
       <==> NameAt(entries, 0) !in done && PackagesRead(done + {NameAt(entries, 0)}, entries[1..])
  {
    hide PackageDecision;
    var tail := entries[1..];
    assert forall i :: 0 <= i < |tail| ==> tail[i] == entries[i + 1];
    assert forall i :: 0 < i < |entries| ==> entries[i] == tail[i - 1];
    if PackagesRead(done + {NameAt(entries, 0)}, tail) && NameAt(entries, 0) !in done {
      forall i | 0 < i < |entries|
        ensures PackageDecision(entries[i]).Some?
        ensures NameAt(entries, i) !in done && NameAt(entries, 0) != NameAt(entries, i)
      {
        assert NameAt(tail, i - 1) == NameAt(entries, i);
      }
      forall i, j | 0 <= i < j < |entries| ensures NameAt(entries, i) != NameAt(entries, j) {
        if i > 0 {
          assert NameAt(tail, i - 1) != NameAt(tail, j - 1);
        }
      }
    }
    if PackagesRead(done, entries) {
      forall i | 0 <= i < |tail|
        ensures PackageDecision(tail[i]).Some?
        ensures NameAt(tail, i) !in done + {NameAt(entries, 0)}
      {
        assert NameAt(entries, 0) != NameAt(entries, i + 1);
      }
      forall i, j | 0 <= i < j < |tail| ensures NameAt(tail, i) != NameAt(tail, j) {
        assert NameAt(entries, i + 1) != NameAt(entries, j + 1);
      }
    }
  }

  /** The package table is accepted if and only if every entry reads and no package is decided twice. */
  lemma {:induction false} PackagesReadIff(done: map<string, Decision>, entries: seq<Fields>)
    ensures ReadPackages(done, entries).Some? <==> PackagesRead(done.Keys, entries)
    decreases |entries|
  {
    hide PackageDecision;
    if entries != [] && PackageDecision(entries[0]).Some? {
      var found := PackageDecision(entries[0]).value;
      PackagesReadStep(done.Keys, entries);
      assert done[found.0 := found.1].Keys == done.Keys + {found.0};
      PackagesReadIff(done[found.0 := found.1], entries[1..]);
    }
  }

  /** Then it holds exactly the decisions of its entries. */
  lemma {:induction false} PackagesAreTheEntries(done: map<string, Decision>, entries: seq<Fields>,
                                                 name: string, d: Decision)
    requires ReadPackages(done, entries).Some?
    ensures var r := ReadPackages(done, entries).value;
      (name in r && r[name] == d)
      <==> (name in done && done[name] == d) || DecidedBy(entries, name, d)
    decreases |entries|
  {
    hide PackageDecision;
    if entries != [] {
      var found := PackageDecision(entries[0]).value;
      PackagesAreTheEntries(done[found.0 := found.1], entries[1..], name, d);
      DecidedByStep(entries, name, d);
    }
  }

  lemma DecidedByStep(entries: seq<Fields>, name: string, d: Decision)
    requires entries != []
    ensures DecidedBy(entries, name, d)
       <==> PackageDecision(entries[0]) == Some((name, d)) || DecidedBy(entries[1..], name, d)
  {
    hide PackageDecision;
    var tail := entries[1..];
    if DecidedBy(entries, name, d) {
      var i :| 0 <= i < |entries| && PackageDecision(entries[i]) == Some((name, d));
      assert i > 0 ==> tail[i - 1] == entries[i];
    }
    if DecidedBy(tail, name, d) {
      var i :| 0 <= i < |tail| && PackageDecision(tail[i]) == Some((name, d));
      assert entries[i + 1] == tail[i];
    }
  }

  predicate DecidedBy(entries: seq<Fields>, name: string, d: Decision) {
    exists i :: 0 <= i < |entries| && PackageDecision(entries[i]) == Some((name, d))
  }

  predicate AllExceptionsRead(entries: seq<Fields>) {
    forall i :: 0 <= i < |entries| ==> VulnerabilityException(entries[i]).Some?
  }

  function ExceptionsOf(entries: seq<Fields>): seq<VulnException> {
    if entries == [] then []
    else
      var found := VulnerabilityException(entries[0]);
      (if found.Some? then [found.value] else []) + ExceptionsOf(entries[1..])
  }

  /** No two are about the same advisory of one package. */
  predicate Distinct(exceptions: seq<VulnException>) {
    forall i, j :: 0 <= i < j < |exceptions| ==> !SameAdvisory(exceptions[i], exceptions[j])
  }

  lemma DistinctStep(done: seq<VulnException>, e: VulnException, rest: seq<VulnException>)
    requires Distinct(done)
    ensures Distinct(done + [e]) <==> !AlreadyExcepted(done, e)
    ensures (done + [e]) + rest == done + ([e] + rest)
    ensures Distinct((done + [e]) + rest) ==> Distinct(done + [e])
  {
    var more := done + [e];
    assert more[|done|] == e;
    if AlreadyExcepted(done, e) {
      var i :| 0 <= i < |done| && SameAdvisory(done[i], e);
      assert more[i] == done[i];
    }
    if Distinct(more + rest) {
      assert forall i :: 0 <= i < |more| ==> (more + rest)[i] == more[i];
    }
  }

  /** The exception table is accepted if and only if every entry reads and no two are about the same
      advisory of one package; then it holds the exceptions of its entries, in order. */
  lemma {:induction false} ExceptionsReadIff(done: seq<VulnException>, entries: seq<Fields>)
    requires Distinct(done)
    ensures ReadExceptions(done, entries)
         == if AllExceptionsRead(entries) && Distinct(done + ExceptionsOf(entries))
            then Some(done + ExceptionsOf(entries)) else None
    decreases |entries|
  {
    hide VulnerabilityException, Distinct;
    if entries == [] {
      assert done + [] == done;
    } else {
      var found, tail := VulnerabilityException(entries[0]), entries[1..];
      assert AllExceptionsRead(entries) <==> found.Some? && AllExceptionsRead(tail) by {
        assert forall i :: 0 < i < |entries| ==> entries[i] == tail[i - 1];
        assert forall i :: 0 <= i < |tail| ==> tail[i] == entries[i + 1];
      }
      if found.Some? {
        DistinctStep(done, found.value, ExceptionsOf(tail));
        if !AlreadyExcepted(done, found.value) {
          ExceptionsReadIff(done + [found.value], tail);
        }
      }
    }
  }

  // ------------------------------------------------------------------ a loaded policy

  /** What `_vulnerability_exception` lets into a policy. */
  predicate Loadable(e: VulnException) {
    e.added <= e.expires <= e.added + MAX_EXCEPTION_DAYS && DecisionId(e.decision)
  }

  /** What an owner decision of a loaded policy was accepted with. */
  predicate Pinned(d: Decision) {
    Closed(Ops(d.versions)) && DecisionId(d.decision) && WellFormed(d.expression)
  }

  lemma EntriesArePinned(entry: Fields)
    requires PackageDecision(entry).Some?
    ensures Pinned(PackageDecision(entry).value.1)
  {
    ParseIsStable(NonBlank(entry, "expression").value);
  }

  lemma {:induction false} ExceptionsOfIsWhole(entries: seq<Fields>)
    requires AllExceptionsRead(entries)
    ensures forall e :: e in ExceptionsOf(entries) ==> Loadable(e)
  {
    if entries != [] {
      assert forall i :: 0 <= i < |entries| - 1 ==> entries[1..][i] == entries[i + 1];
      ExceptionsOfIsWhole(entries[1..]);
      EntriesAreLoadable(entries[0]);
    }
  }

  lemma EntriesAreLoadable(entry: Fields)
    requires VulnerabilityException(entry).Some?
    ensures Loadable(VulnerabilityException(entry).value)
  {
  }

  /** Everything in a loaded policy that widens it rests on an owner decision and is bounded: a package
      by a closed range of versions, an exception by ninety days; and there is at most one of each. */
  lemma LoadedPolicyIsBounded(data: Fields)
    requires Load(data).Some?
    ensures var p := Load(data).value;
      && (forall name :: name in p.policy.packages ==> Pinned(p.policy.packages[name]))
      && (forall e :: e in p.exceptions ==> Loadable(e)) && Distinct(p.exceptions)
  {
    var p := Load(data).value;
    var packages, exceptions := Entries(data, "package").value, Entries(data, "vulnerability").value;
    ReadTables(data);
    forall name | name in p.policy.packages ensures Pinned(p.policy.packages[name]) {
      PackagesAreTheEntries(map[], packages, name, p.policy.packages[name]);
      var i :| 0 <= i < |packages| && PackageDecision(packages[i]) == Some((name, p.policy.packages[name]));
      EntriesArePinned(packages[i]);
    }
    ExceptionsReadIff([], exceptions);
    assert [] + ExceptionsOf(exceptions) == ExceptionsOf(exceptions);
    ExceptionsOfIsWhole(exceptions);
  }

  lemma ReadTables(data: Fields)
    requires Load(data).Some?
    ensures Entries(data, "package").Some? && Entries(data, "vulnerability").Some?
    ensures ReadPackages(map[], Entries(data, "package").value) == Some(Load(data).value.policy.packages)
    ensures ReadExceptions([], Entries(data, "vulnerability").value) == Some(Load(data).value.exceptions)
  {
  }

  // ------------------------------------------------------------------ nothing without a decision

  /** The entries that widen a policy: extra ids, package decisions and exceptions. */
  function Widening(data: Fields): Option<seq<Fields>> {
    var allow := Section(data, "allow");
    if allow.None? then None
    else
      var approvals, packages, vulnerabilities :=
        Entries(allow.value, "approved"), Entries(data, "package"), Entries(data, "vulnerability");
      if approvals.None? || packages.None? || vulnerabilities.None? then None
      else Some(approvals.value + packages.value + vulnerabilities.value)
  }

  lemma {:induction false} ApprovedAreDecided(done: set<string>, entries: seq<Fields>)
    requires ReadApproved(done, entries).Some?
    ensures forall i :: 0 <= i < |entries| ==> OwnerDecision(entries[i]).Some?
    decreases |entries|
  {
    hide NonBlank, OwnerDecision;
    if entries != [] {
      ApprovedAreDecided(done + {NonBlank(entries[0], "id").value}, entries[1..]);
      assert forall i :: 0 < i < |entries| ==> entries[i] == entries[1..][i - 1];
    }
  }

  /** One entry without the id of an owner decision, and the whole policy is refused. */
  lemma EveryWideningIsDecided(data: Fields, i: nat)
    requires Load(data).Some?
    ensures Widening(data).Some?
    ensures i < |Widening(data).value| ==> OwnerDecision(Widening(data).value[i]).Some?
  {
    hide PackageDecision, VulnerabilityException, OwnerDecision, ReadPackages, ReadExceptions;
    var approvals := Entries(Section(data, "allow").value, "approved").value;
    var packages, exceptions := Entries(data, "package").value, Entries(data, "vulnerability").value;
    ReadTables(data);
    ApprovedAreDecided({}, approvals);
    PackagesReadIff(map[], packages);
    ExceptionsReadIff([], exceptions);
    forall k | 0 <= k < |packages| ensures OwnerDecision(packages[k]).Some? {
      EntryIsDecided(packages[k]);
    }
    forall k | 0 <= k < |exceptions| ensures OwnerDecision(exceptions[k]).Some? {
      EntryIsDecided(exceptions[k]);
    }
  }

  lemma EntryIsDecided(entry: Fields)
    ensures PackageDecision(entry).Some? || VulnerabilityException(entry).Some?
       ==> OwnerDecision(entry).Some?
  {
  }
}
