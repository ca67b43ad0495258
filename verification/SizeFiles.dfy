/** The plan from the text of the size files on: `_read_values`, `_ladder` and the rules by which
    `_values` reads their two ends; deploy/auto_size.py. */
module SizeFiles {
  import opened Wrappers
  import opened Text
  import opened Sizes
  import opened Sizer
  import opened Planner
  import opened EnvBlock

  /** One entry of a dictionary that keeps its order. */
  datatype Pair = Pair(key: string, value: string)

  // ------------------------------------------------------------------ one file

  predicate Skipped(line: string) {
    "#" <= line || Blank(line)
  }

  predicate Has(pairs: seq<Pair>, key: string) {
    exists i :: 0 <= i < |pairs| && pairs[i].key == key
  }

  /** The place of a key. */
  function PlaceOf(pairs: seq<Pair>, key: string): (i: nat)
    requires Has(pairs, key)
    ensures i < |pairs| && pairs[i].key == key
  {
    if pairs[0].key == key then 0
    else
      assert exists i :: 1 <= i < |pairs| && pairs[i].key == key;
      assert forall i :: 1 <= i < |pairs| ==> pairs[1..][i - 1] == pairs[i];
      1 + PlaceOf(pairs[1..], key)
  }

  /** `values[key] = value`: a key keeps its place. */
  function Put(pairs: seq<Pair>, key: string, value: string): seq<Pair> {
    if Has(pairs, key) then pairs[PlaceOf(pairs, key) := Pair(key, value)]
    else pairs + [Pair(key, value)]
  }

  function ValuesOf(lines: seq<string>): seq<Pair> {
    if lines == [] then []
    else
      var before, last := ValuesOf(lines[..|lines| - 1]), lines[|lines| - 1];
      if Skipped(last) then before else Put(before, KeyOf(last), ValueIn(last))
  }

  /** `_read_values`. */
  method ReadValues(lines: seq<string>) returns (values: seq<Pair>)
    ensures values == ValuesOf(lines)
  {
    values := [];
    for i := 0 to |lines|
      invariant values == ValuesOf(lines[..i])
    {
      assert lines[..i + 1][..i] == lines[..i];
      if !Skipped(lines[i]) {
        values := Put(values, KeyOf(lines[i]), ValueIn(lines[i]));
      }
    }
    assert lines[..|lines|] == lines;
  }

  predicate KeysDiffer(pairs: seq<Pair>) {
    forall i, j :: 0 <= i < j < |pairs| ==> pairs[i].key != pairs[j].key
  }

  lemma {:induction false} ValuesHaveDistinctKeys(lines: seq<string>)
    ensures KeysDiffer(ValuesOf(lines))
  {
    if lines != [] {
      ValuesHaveDistinctKeys(lines[..|lines| - 1]);
    }
  }

  /** The last line that sets a key decides. */
  function LastWord(lines: seq<string>, key: string): Option<string> {
    if lines == [] then None
    else
      var last := lines[|lines| - 1];
      if !Skipped(last) && KeyOf(last) == key then Some(ValueIn(last))
      else LastWord(lines[..|lines| - 1], key)
  }

  /** The dictionary says of each key what the last line about it says, and of no other key anything. */
  lemma {:induction false} ValuesAreLastWords(lines: seq<string>, key: string, value: string)
    ensures Pair(key, value) in ValuesOf(lines) <==> LastWord(lines, key) == Some(value)
  {
    if lines != [] {
      var before, last := ValuesOf(lines[..|lines| - 1]), lines[|lines| - 1];
      ValuesAreLastWords(lines[..|lines| - 1], key, value);
      ValuesHaveDistinctKeys(lines[..|lines| - 1]);
      if !Skipped(last) {
        PutSets(before, KeyOf(last), ValueIn(last), key, value);
      }
    }
  }

  lemma PutSets(pairs: seq<Pair>, k: string, v: string, key: string, value: string)
    requires KeysDiffer(pairs)
    ensures Pair(key, value) in Put(pairs, k, v)
       <==> if key == k then value == v else Pair(key, value) in pairs
  {
    var after := Put(pairs, k, v);
    if Has(pairs, k) {
      var at := PlaceOf(pairs, k);
      assert after[at] == Pair(k, v);
      assert forall i :: 0 <= i < |pairs| && i != at ==> after[i] == pairs[i] && pairs[i].key != k;
    } else {
      assert after[|pairs|] == Pair(k, v);
      assert forall i :: 0 <= i < |pairs| ==> after[i] == pairs[i] && pairs[i].key != k;
    }
  }

  // ------------------------------------------------------------------ the ladder

  /** The rules of every key of `large`, with the ends of both files; None where the source raises. */
  function LadderOf(small: seq<Pair>, large: seq<Pair>): Option<seq<Rung>> {
    if large == [] then Some([])
    else
      var key, tail := large[0].key, LadderOf(small, large[1..]);
      if !Has(small, key) || tail.None? then None
      else
        var rung := ReadRung(key, small[PlaceOf(small, key)].value, large[0].value);
        if rung.None? then None else Some([rung.value] + tail.value)
  }

  /** The rung of one key of `large`. */
  predicate RungFor(small: seq<Pair>, big: Pair, rung: Rung) {
    && Has(small, big.key) && rung.key == big.key
    && ReadRung(big.key, small[PlaceOf(small, big.key)].value, big.value) == Some(rung)
  }

  lemma {:induction false} LadderFollowsLarge(small: seq<Pair>, large: seq<Pair>)
    requires LadderOf(small, large).Some?
    ensures var ladder := LadderOf(small, large).value;
      |ladder| == |large| && forall i :: 0 <= i < |large| ==> RungFor(small, large[i], ladder[i])
  {
    hide ReadRung, PlaceOf, Has;
    if large != [] {
      LadderFollowsLarge(small, large[1..]);
      FirstRung(small, large);
      var ladder := LadderOf(small, large).value;
      forall i | 0 <= i < |large| ensures RungFor(small, large[i], ladder[i]) {
        if i > 0 {
          assert large[i] == large[1..][i - 1] && ladder[i] == LadderOf(small, large[1..]).value[i - 1];
        }
      }
    }
  }

  lemma FirstRung(small: seq<Pair>, large: seq<Pair>)
    requires large != [] && LadderOf(small, large).Some?
    ensures LadderOf(small, large[1..]).Some? && LadderOf(small, large).value != []
    ensures RungFor(small, large[0], LadderOf(small, large).value[0])
  {
    hide PlaceOf, Has;
  }

  /** A ladder that is read has one rung a key. */
  lemma ReadLadderIsDistinct(small: seq<Pair>, lines: seq<string>)
    requires LadderOf(small, ValuesOf(lines)).Some?
    ensures Distinct(LadderOf(small, ValuesOf(lines)).value)
  {
    ValuesHaveDistinctKeys(lines);
    LadderFollowsLarge(small, ValuesOf(lines));
  }

  // ------------------------------------------------------------------ from the files to the plan

  /** A set-up whose ladder is what the two files say. */
  predicate FromFiles(s: Setup, small: seq<string>, large: seq<string>) {
    LadderOf(ValuesOf(small), ValuesOf(large)) == Some(s.ladder)
  }

  /** What the files and the Compose rows have to bring: ends in order, a limit for each maximum, and rows
      that read. That no key comes twice is the reader's own doing. */
  predicate Usable(s: Setup) {
    && GoodRungs(s.ladder) && GoodMaxima(s.ladder)
    && (forall row :: row in s.rows ==> GoodRow(s.ladder, row))
    && s.cpuSpan > 0 && s.host.cpus >= 0.0
  }

  lemma FilesMakeGood(s: Setup, small: seq<string>, large: seq<string>)
    requires Usable(s) && FromFiles(s, small, large)
    ensures Good(s)
  {
    ReadLadderIsDistinct(ValuesOf(small), large);
  }

  /** `compute`, the files read first; `rest` is the set-up but for its ladder. None where reading the
      files raises. */
  method ComputeFromFiles(small: seq<string>, large: seq<string>, rest: Setup)
    returns (verdict: Option<Planner.Verdict>)
    requires var ladder := LadderOf(ValuesOf(small), ValuesOf(large));
      ladder.Some? ==> Usable(rest.(ladder := ladder.value))
    ensures var ladder := LadderOf(ValuesOf(small), ValuesOf(large));
      && (verdict.Some? <==> ladder.Some?)
      && (verdict.Some? ==>
            var s := rest.(ladder := ladder.value);
            && Good(s) && FromFiles(s, small, large)
            && (verdict.value.Refused? <==> s.role.Server? && !Fits(s, 0, true))
            && (verdict.value.Planned? ==>
                  && verdict.value.k <= STEPS
                  && (if Fits(s, 0, true) then LargestFitting(s, verdict.value.k) else verdict.value.k == 0)
                  && verdict.value.values == Values(s, verdict.value.k, false)))
  {
    var low := ReadValues(small);
    var high := ReadValues(large);
    var ladder := LadderOf(low, high);
    if ladder.None? {
      return None;
    }
    FilesMakeGood(rest.(ladder := ladder.value), small, large);
    var planned := Compute(rest.(ladder := ladder.value));
    return Some(planned);
  }

  /** How the text of a limit, of a count or of a share of a vCPU is read back. */
  function Reading(key: string, text: string): Option<nat> {
    if EndsWith(key, "_CPUS") then ReadCpus(text)
    else if EndsWith(key, "_MEM") then ReadMib(text)
    else if EndsWith(key, "_REPLICAS") then ReadNat(text)
    else None
  }

  predicate HasEnds(key: string) {
    EndsWith(key, "_CPUS") || EndsWith(key, "_MEM") || EndsWith(key, "_REPLICAS")
  }

  /** From text to text: what is planned for a key, read back, lies between what the two files say last
      about that key. */
  lemma PlannedValueIsBetweenTheFiles(s: Setup, small: seq<string>, large: seq<string>, key: string,
                                      k: nat, memoryBound: bool)
    requires Usable(s) && FromFiles(s, small, large) && k <= STEPS
    requires HasEnds(key) && LastWord(large, key).Some?
    ensures Good(s)
    ensures key in Values(s, k, memoryBound) && LastWord(small, key).Some?
    ensures var low, high := Reading(key, LastWord(small, key).value),
                             Reading(key, LastWord(large, key).value);
      var planned := Reading(key, Values(s, k, memoryBound)[key]);
      low.Some? && high.Some? && planned.Some? && low.value <= planned.value <= high.value
  {
    FilesMakeGood(s, small, large);
    var big := LastWord(large, key).value;
    ValuesAreLastWords(large, key, big);
    var i :| 0 <= i < |ValuesOf(large)| && ValuesOf(large)[i] == Pair(key, big);
    LadderFollowsLarge(ValuesOf(small), ValuesOf(large));
    var at := PlaceOf(ValuesOf(small), key);
    ValuesAreLastWords(small, key, ValuesOf(small)[at].value);
    assert ValuesOf(small)[at] == Pair(key, ValuesOf(small)[at].value);
    LookupFinds(s.ladder, i);
    KindOfRung(key, ValuesOf(small)[at].value, big);
    EveryValueIsBetween(s, s.ladder[i], k, memoryBound);
  }

  /** The ends of a rung are what its two texts read as. */
  lemma KindOfRung(key: string, small: string, large: string)
    requires HasEnds(key) && ReadRung(key, small, large).Some?
    ensures key != "POSTGRES_CONFIG_FILE"
    ensures Reading(key, small).Some? && Reading(key, large).Some?
    ensures var rule := ReadRung(key, small, large).value.rule;
      && (rule.Cpus? || rule.Memory? || rule.Replicas?)
      && rule.lo == Reading(key, small).value && rule.hi == Reading(key, large).value
      && (rule.Cpus? <==> EndsWith(key, "_CPUS"))
      && (rule.Memory? ==> !EndsWith(key, "_CPUS") && EndsWith(key, "_MEM"))
      && (rule.Replicas? ==> !EndsWith(key, "_CPUS") && !EndsWith(key, "_MEM") && EndsWith(key, "_REPLICAS"))
  {
  }
}
