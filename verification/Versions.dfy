/** Release numbers and version ranges of deploy/supply-chain/supply_chain_check.py:
    `_release`, `parse_versions`, `version_in`. */
module Versions {
  import opened Wrappers
  import opened Text

  /** A release number: its components, most significant first. */
  type Release = seq<nat>

  datatype Op = Equal | NotEqual | AtLeast | AtMost | Above | Below

  datatype Clause = Clause(op: Op, bound: Release)

  type Range = seq<Clause>

  // ------------------------------------------------------------------ text

  /** `text.split(separator)`. */
  function Split(text: string, separator: char): (parts: seq<string>)
    ensures parts != []
  {
    if text == "" then [""]
    else
      var tail := Split(text[1..], separator);
      if text[0] == separator then [""] + tail else [[text[0]] + tail[0]] + tail[1..]
  }

  /** The pattern of dot-separated runs of ASCII digits. */
  predicate IsRelease(text: string) {
    var parts := Split(text, '.');
    forall i :: 0 <= i < |parts| ==> IsNatural(parts[i])
  }

  function Numbers(parts: seq<string>): (r: seq<nat>)
    requires forall i :: 0 <= i < |parts| ==> IsNatural(parts[i])
    ensures |r| == |parts|
  {
    if parts == [] then []
    else assert IsNatural(parts[0]); [DigitsValue(parts[0])] + Numbers(parts[1..])
  }

  /** The components with trailing zeros dropped, but never the last one left. */
  function StripZeros(parts: seq<nat>): seq<nat> {
    if |parts| > 1 && parts[|parts| - 1] == 0 then StripZeros(parts[..|parts| - 1]) else parts
  }

  function ReleaseOf(text: string): Option<Release> {
    if IsRelease(text) then Some(StripZeros(Numbers(Split(text, '.')))) else None
  }

  /** `_release`: the loop that pops trailing zeros. */
  method ReadRelease(text: string) returns (r: Option<Release>)
    ensures r == ReleaseOf(text)
  {
    if !IsRelease(text) {
      return None;
    }
    var parts := Numbers(Split(text, '.'));
    ghost var all := parts;
    while |parts| > 1 && parts[|parts| - 1] == 0
      invariant StripZeros(parts) == StripZeros(all)
    {
      parts := parts[..|parts| - 1];
    }
    return Some(parts);
  }

  /** The operator alternatives, in the order the pattern tries them, with what follows. */
  function SplitOp(text: string): Option<(Op, string)> {
    if "==" <= text then Some((Equal, text[2..]))
    else if "!=" <= text then Some((NotEqual, text[2..]))
    else if ">=" <= text then Some((AtLeast, text[2..]))
    else if "<=" <= text then Some((AtMost, text[2..]))
    else if ">" <= text then Some((Above, text[1..]))
    else if "<" <= text then Some((Below, text[1..]))
    else None
  }

  function ParseClause(raw: string): Option<Clause> {
    var found := SplitOp(Strip(raw));
    if found.None? then None
    else
      var release := ReleaseOf(StripLeft(found.value.1));
      if release.None? then None else Some(Clause(found.value.0, release.value))
  }

  /** `done`, then the clauses of `raws`; None as soon as one is not a comparison. */
  function ParseClauses(done: Range, raws: seq<string>): Option<Range>
    decreases |raws|
  {
    if raws == [] then Some(done)
    else
      var clause := ParseClause(raws[0]);
      if clause.None? then None else ParseClauses(done + [clause.value], raws[1..])
  }

  function Ops(range: Range): set<Op> {
    set i | 0 <= i < |range| :: range[i].op
  }

  /** `==`, or a lower and an upper bound. */
  predicate Closed(ops: set<Op>) {
    Equal in ops || ((AtLeast in ops || Above in ops) && (Below in ops || AtMost in ops))
  }

  function ParseRange(text: string): Option<Range> {
    var range := ParseClauses([], Split(text, ','));
    if range.Some? && Closed(Ops(range.value)) then range else None
  }

  /** The loop of `parse_versions` over the comma-separated clauses. */
  method ReadClauses(raws: seq<string>) returns (r: Option<Range>)
    ensures r == ParseClauses([], raws)
  {
    var clauses: Range := [];
    for i := 0 to |raws|
      invariant ParseClauses([], raws) == ParseClauses(clauses, raws[i..])
    {
      var clause := ParseClause(raws[i]);
      assert raws[i..][1..] == raws[i + 1..];
      if clause.None? {
        return None;
      }
      clauses := clauses + [clause.value];
    }
    return Some(clauses);
  }

  /** `parse_versions`; None stands for its ValueError. */
  method ParseVersions(text: string) returns (r: Option<Range>)
    ensures r == ParseRange(text)
  {
    r := ReadClauses(Split(text, ','));
    if r.Some? && !Closed(Ops(r.value)) {
      r := None;
    }
  }

  // ------------------------------------------------------------------ order

  /** Python's order on tuples: the first difference decides, a proper prefix is smaller. */
  predicate TupleLess(a: Release, b: Release) {
    if b == [] then false
    else if a == [] then true
    else a[0] < b[0] || (a[0] == b[0] && TupleLess(a[1..], b[1..]))
  }

  predicate TupleAtMost(a: Release, b: Release) {
    a == b || TupleLess(a, b)
  }

  predicate Meets(release: Release, clause: Clause) {
    match clause.op
    case Equal => release == clause.bound
    case NotEqual => release != clause.bound
    case AtLeast => TupleAtMost(clause.bound, release)
    case AtMost => TupleAtMost(release, clause.bound)
    case Above => TupleLess(clause.bound, release)
    case Below => TupleLess(release, clause.bound)
  }

  /** `version_in`. */
  predicate VersionIn(version: string, range: Range) {
    var release := ReleaseOf(version);
    release.Some? && forall i :: 0 <= i < |range| ==> Meets(release.value, range[i])
  }

  /** `a` written with `n` components, zeros filled in on the right. */
  function Pad(a: Release, n: nat): (r: Release)
    requires |a| <= n
    ensures |r| == n
    ensures forall i :: 0 <= i < n ==> r[i] == (if i < |a| then a[i] else 0)
  {
    a + seq(n - |a|, _ => 0)
  }

  lemma {:induction false} StripZerosPads(a: Release, n: nat)
    requires |a| <= n
    ensures |StripZeros(a)| <= |a| && Pad(StripZeros(a), n) == Pad(a, n)
    ensures a != [] ==> StripZeros(a) != []
    ensures |StripZeros(a)| > 1 ==> StripZeros(a)[|StripZeros(a)| - 1] != 0
  {
    if |a| > 1 && a[|a| - 1] == 0 {
      StripZerosPads(a[..|a| - 1], n);
    }
  }

  /** Empty, or ending in a component that counts. */
  predicate NoTrailingZero(a: Release) {
    a == [] || a[|a| - 1] != 0
  }

  function Head(a: Release): nat {
    if a == [] then 0 else a[0]
  }

  function Tail(a: Release): Release {
    if a == [] then [] else a[1..]
  }

  lemma PadStep(a: Release, n: nat)
    requires |a| <= n && n > 0
    ensures Pad(a, n) == [Head(a)] + Pad(Tail(a), n - 1)
  {
  }

  lemma LessByHead(x: nat, a: Release, y: nat, b: Release)
    ensures TupleLess([x] + a, [y] + b) <==> x < y || (x == y && TupleLess(a, b))
    ensures [x] + a == [y] + b <==> x == y && a == b
  {
    assert ([x] + a)[1..] == a && ([y] + b)[1..] == b;
    assert ([x] + a)[0] == x && ([y] + b)[0] == y;
  }

  /** Without trailing zeros a missing component compares as a zero. */
  lemma LessByParts(a: Release, b: Release)
    requires NoTrailingZero(a) && NoTrailingZero(b)
    ensures NoTrailingZero(Tail(a)) && NoTrailingZero(Tail(b))
    ensures TupleLess(a, b)
       <==> Head(a) < Head(b) || (Head(a) == Head(b) && TupleLess(Tail(a), Tail(b)))
  {
  }

  lemma EqualByParts(a: Release, b: Release)
    requires NoTrailingZero(a) && NoTrailingZero(b)
    ensures a == b <==> Head(a) == Head(b) && Tail(a) == Tail(b)
  {
    if a != [] && b != [] && Head(a) == Head(b) && Tail(a) == Tail(b) {
      assert a == [Head(a)] + Tail(a) && b == [Head(b)] + Tail(b);
    }
  }

  lemma {:induction false} PaddingKeepsOrder(a: Release, b: Release, n: nat)
    requires NoTrailingZero(a) && NoTrailingZero(b) && |a| <= n && |b| <= n
    ensures TupleLess(a, b) <==> TupleLess(Pad(a, n), Pad(b, n))
    ensures a == b <==> Pad(a, n) == Pad(b, n)
    decreases n
  {
    if n > 0 {
      PadStep(a, n);
      PadStep(b, n);
      LessByHead(Head(a), Pad(Tail(a), n - 1), Head(b), Pad(Tail(b), n - 1));
      LessByParts(a, b);
      EqualByParts(a, b);
      PaddingKeepsOrder(Tail(a), Tail(b), n - 1);
    }
  }

  /** The same when the first component may be zero. */
  lemma PaddingKeepsOrderFromHead(x: Release, y: Release, n: nat)
    requires x != [] && y != [] && |x| <= n && |y| <= n
    requires NoTrailingZero(Tail(x)) && NoTrailingZero(Tail(y))
    ensures TupleLess(x, y) <==> TupleLess(Pad(x, n), Pad(y, n))
    ensures x == y <==> Pad(x, n) == Pad(y, n)
  {
    PadStep(x, n);
    PadStep(y, n);
    PaddingKeepsOrder(Tail(x), Tail(y), n - 1);
    LessByHead(Head(x), Pad(Tail(x), n - 1), Head(y), Pad(Tail(y), n - 1));
    assert x == [Head(x)] + Tail(x) && y == [Head(y)] + Tail(y);
    LessByHead(Head(x), Tail(x), Head(y), Tail(y));
  }

  lemma TailOfStripped(a: Release)
    requires a != []
    ensures StripZeros(a) != [] && |StripZeros(a)| <= |a| && NoTrailingZero(Tail(StripZeros(a)))
  {
    StripZerosPads(a, |a|);
  }

  /** Comparing stripped tuples is comparing the releases with zeros filled in: 5.14 is 5.14.0,
      and 5.14 is below 5.14.0.1. */
  lemma StrippedOrderIsPaddedOrder(a: Release, b: Release, n: nat)
    requires a != [] && b != [] && |a| <= n && |b| <= n
    ensures TupleLess(StripZeros(a), StripZeros(b)) <==> TupleLess(Pad(a, n), Pad(b, n))
    ensures StripZeros(a) == StripZeros(b) <==> Pad(a, n) == Pad(b, n)
  {
    TailOfStripped(a);
    TailOfStripped(b);
    PaddingKeepsOrderFromHead(StripZeros(a), StripZeros(b), n);
    StripZerosPads(a, n);
    StripZerosPads(b, n);
  }

  predicate LowerClauseAt(range: Range, i: nat) {
    i < |range| && range[i].op in {Equal, AtLeast, Above}
  }

  predicate UpperClauseAt(range: Range, j: nat) {
    j < |range| && range[j].op in {Equal, AtMost, Below}
  }

  /** Every version in the range lies between the releases that clauses `i` and `j` of it name, the
      first from below and the second from above. */
  ghost predicate Bounds(range: Range, i: nat, j: nat) {
    && LowerClauseAt(range, i) && UpperClauseAt(range, j)
    && forall version :: VersionIn(version, range) ==>
         TupleAtMost(range[i].bound, ReleaseOf(version).value)
         && TupleAtMost(ReleaseOf(version).value, range[j].bound)
  }

  lemma ClausesBound(range: Range, i: nat, j: nat)
    requires LowerClauseAt(range, i) && UpperClauseAt(range, j)
    ensures Bounds(range, i, j)
  {
    forall version | VersionIn(version, range)
      ensures TupleAtMost(range[i].bound, ReleaseOf(version).value)
      ensures TupleAtMost(ReleaseOf(version).value, range[j].bound)
    {
      assert Meets(ReleaseOf(version).value, range[i]);
      assert Meets(ReleaseOf(version).value, range[j]);
    }
  }

  /** Every range `parse_versions` accepts is bounded on both sides by releases that two of its clauses
      name: no future release passes unreviewed. */
  lemma ClosedRangeIsBounded(range: Range) returns (i: nat, j: nat)
    requires Closed(Ops(range))
    ensures Bounds(range, i, j)
  {
    i := LowerClause(range);
    j := UpperClause(range);
    ClausesBound(range, i, j);
  }

  lemma LowerClause(range: Range) returns (i: nat)
    requires Closed(Ops(range))
    ensures LowerClauseAt(range, i)
  {
    var op :| op in Ops(range) && op in {Equal, AtLeast, Above};
    i :| 0 <= i < |range| && range[i].op == op;
  }

  lemma UpperClause(range: Range) returns (i: nat)
    requires Closed(Ops(range))
    ensures UpperClauseAt(range, i)
  {
    var op :| op in Ops(range) && op in {Equal, AtMost, Below};
    i :| 0 <= i < |range| && range[i].op == op;
  }
}
