/** Page accounting of the PDF inspector: `_failure_reason`, `_inspect_range` and `inspect_file` of
    services/ele_parse/__main__.py. A page is its number; `child` is what the limited child process
    answers for a range, each range being asked at most once. */
module Pages {
  import opened Wrappers
  import opened Text

  const CHUNK_PAGES: nat := 200

  datatype Reason = ParseTimeout | MemoryLimit | ParseError

  datatype Lost = Lost(page: int, reason: Reason)

  datatype Answer = Found(pages: seq<int>) | Refused(status: int, code: string)

  type Child = (int, int) -> Answer

  datatype Report = Report(pages: seq<int>, failed: seq<Lost>)

  /** `_failure_reason`. None for a refusal that is not tried again. */
  function FailureReason(status: int, code: string): Option<Reason> {
    if status == 504 && code == "timeout" then Some(ParseTimeout)
    else if status == 507 && code == "memory_limit" then Some(MemoryLimit)
    else if status == 500 && code == "parse_error" then Some(ParseError)
    else None
  }

  /** The pages of the range that the answer leaves out. */
  function Missing(found: seq<int>, first: int, last: int): seq<Lost>
    decreases last - first + 1
  {
    if first > last then []
    else (if first in found then [] else [Lost(first, ParseError)]) + Missing(found, first + 1, last)
  }

  function Add(a: Report, b: Report): Report {
    Report(a.pages + b.pages, a.failed + b.failed)
  }

  /** A range of one page. */
  function PageReport(child: Child, n: int): Result<Report, Answer> {
    match child(n, n)
    case Found(pages) => Ok(Report(pages, Missing(pages, n, n)))
    case Refused(status, code) =>
      (match FailureReason(status, code)
       case None => Err(child(n, n))
       case Some(reason) => Ok(Report([], [Lost(n, reason)])))
  }

  /** Page by page, after what is known already. */
  function Singles(child: Child, first: int, last: int, known: Report): Result<Report, Answer>
    decreases last - first + 1
  {
    if first > last then Ok(known)
    else
      match PageReport(child, first)
      case Err(refused) => Err(refused)
      case Ok(report) => Singles(child, first + 1, last, Add(known, report))
  }

  /** `_inspect_range`. */
  function RangeReport(child: Child, first: int, last: int): Result<Report, Answer> {
    if first == last then PageReport(child, first)
    else
      match child(first, last)
      case Found(pages) => Ok(Report(pages, Missing(pages, first, last)))
      case Refused(status, code) =>
        if FailureReason(status, code).None? then Err(child(first, last))
        else Singles(child, first, last, Report([], []))
  }

  /** The ranges of 200, from `first` on. */
  function Chunks(child: Child, first: int, count: int, known: Report): Result<Report, Answer>
    decreases count - first + 1
  {
    if first > count then Ok(known)
    else
      match RangeReport(child, first, Min(first + CHUNK_PAGES - 1, count))
      case Err(refused) => Err(refused)
      case Ok(report) => Chunks(child, first + CHUNK_PAGES, count, Add(known, report))
  }

  class Inspection {
    const child: Child
    var failed: seq<Lost>

    constructor (child: Child)
      ensures this.child == child && failed == []
    {
      this.child, failed := child, [];
    }

    /** `_inspect_range`; what is lost goes to the list that every range shares. */
    method InspectRange(first: int, last: int) returns (r: Result<seq<int>, Answer>)
      requires first <= last
      modifies this
      ensures var report := RangeReport(child, first, last);
              match report
              case Err(refused) => r == Err(refused)
              case Ok(done) => r == Ok(done.pages) && failed == old(failed) + done.failed
      decreases last - first
    {
      var answer := child(first, last);
      match answer {
        case Refused(status, code) =>
          var reason := FailureReason(status, code);
          if reason.None? {
            return Err(answer);
          }
          if first == last {
            failed := failed + [Lost(first, reason.value)];
            return Ok([]);
          }
          var pages: seq<int> := [];
          assert failed[|old(failed)|..] == [];
          for number := first to last + 1
            invariant |failed| >= |old(failed)| && failed[..|old(failed)|] == old(failed)
            invariant RangeReport(child, first, last)
                   == Singles(child, number, last, Report(pages, failed[|old(failed)|..]))
          {
            ghost var lost := failed[|old(failed)|..];
            ghost var before := failed;
            var more := InspectRange(number, number);
            if more.Err? {
              return Err(more.error);
            }
            assert failed == before + failed[|before|..];
            assert failed[|old(failed)|..] == lost + failed[|before|..];
            pages := pages + more.value;
          }
          return Ok(pages);
        case Found(found) =>
          var missing := MissingPages(found, first, last);
          failed := failed + missing;
          return Ok(found);
      }
    }

    method MissingPages(found: seq<int>, first: int, last: int) returns (lost: seq<Lost>)
      requires first <= last
      ensures lost == Missing(found, first, last)
    {
      lost := [];
      for n := first to last + 1
        invariant Missing(found, first, last) == lost + Missing(found, n, last)
      {
        if n !in found {
          lost := lost + [Lost(n, ParseError)];
        }
      }
    }

    /** `inspect_file`, from the summary on. */
    method InspectFile(summary: Result<nat, Answer>) returns (r: Result<Report, Answer>)
      requires failed == []
      modifies this
      ensures r == match summary
                   case Err(refused) => Err(refused)
                   case Ok(count) => Chunks(child, 1, count, Report([], []))
    {
      if summary.Err? {
        return Err(summary.error);
      }
      var count := summary.value;
      var pages: seq<int> := [];
      var first := 1;
      while first <= count
        invariant Chunks(child, 1, count, Report([], []))
               == Chunks(child, first, count, Report(pages, failed))
        decreases count - first + 1
      {
        var more := InspectRange(first, Min(first + CHUNK_PAGES - 1, count));
        if more.Err? {
          return Err(more.error);
        }
        pages := pages + more.value;
        first := first + CHUNK_PAGES;
      }
      return Ok(Report(pages, failed));
    }
  }

  // ------------------------------------------------------------------ every page once

  /** What services/ele_parse/inspect.py answers: pages of the range, in ascending order. */
  predicate Ascending(pages: seq<int>, first: int, last: int) {
    && (forall i :: 0 <= i < |pages| ==> first <= pages[i] <= last)
    && forall i, j :: 0 <= i < j < |pages| ==> pages[i] < pages[j]
  }

  ghost predicate Honest(child: Child, count: int) {
    forall first, last :: 1 <= first <= last <= count && child(first, last).Found? ==>
                            Ascending(child(first, last).pages, first, last)
  }

  /** What becomes of a page. */
  datatype Fate = Read | Gone(reason: Reason)

  predicate Retried(answer: Answer) {
    answer.Refused? && FailureReason(answer.status, answer.code).Some?
  }

  /** The answer that decides about page `n` of the range: the range's own, or the page's when the
      range is asked again. */
  function Deciding(child: Child, first: int, last: int, n: int): Answer {
    if Retried(child(first, last)) then child(n, n) else child(first, last)
  }

  function FateIn(answer: Answer, n: int): Fate {
    match answer
    case Found(pages) => if n in pages then Read else Gone(ParseError)
    case Refused(status, code) =>
      (match FailureReason(status, code)
       case Some(reason) => Gone(reason)
       case None => Gone(ParseError))
  }

  /** The first page of the range of 200 a page lies in. */
  function ChunkOf(n: int): int {
    (n - 1) / CHUNK_PAGES * CHUNK_PAGES + 1
  }

  /** What becomes of page `n` of `count`. */
  function FateOf(child: Child, count: int, n: int): Fate {
    FateIn(Deciding(child, ChunkOf(n), Min(ChunkOf(n) + CHUNK_PAGES - 1, count), n), n)
  }

  /** The report of `first..last` when every page has its fate: those that were read, and those that
      are gone with their reasons, both in ascending order. */
  function ByFate(fate: int -> Fate, first: int, last: int): Report
    decreases last - first + 1
  {
    if first > last then Report([], [])
    else
      Add(match fate(first)
          case Read => Report([first], [])
          case Gone(reason) => Report([], [Lost(first, reason)]),
          ByFate(fate, first + 1, last))
  }

  lemma AddIsAssociative(a: Report, b: Report, c: Report)
    ensures Add(Add(a, b), c) == Add(a, Add(b, c))
  {
    assert a.pages + b.pages + c.pages == a.pages + (b.pages + c.pages);
    assert a.failed + b.failed + c.failed == a.failed + (b.failed + c.failed);
  }

  lemma {:induction false} ByFateSplits(fate: int -> Fate, first: int, middle: int, last: int)
    requires first <= middle <= last + 1
    ensures ByFate(fate, first, last) == Add(ByFate(fate, first, middle - 1), ByFate(fate, middle, last))
    decreases middle - first
  {
    if first == middle {
      var r := ByFate(fate, middle, last);
      assert [] + r.pages == r.pages && [] + r.failed == r.failed;
    } else {
      ByFateSplits(fate, first + 1, middle, last);
      AddIsAssociative(ByFate(fate, first, first), ByFate(fate, first + 1, middle - 1),
                       ByFate(fate, middle, last));
      OneStep(fate, first, last);
      OneStep(fate, first, middle - 1);
    }
  }

  lemma OneStep(fate: int -> Fate, first: int, last: int)
    requires first <= last
    ensures ByFate(fate, first, last) == Add(ByFate(fate, first, first), ByFate(fate, first + 1, last))
  {
    var head := match fate(first)
                case Read => Report([first], [])
                case Gone(reason) => Report([], [Lost(first, reason)]);
    assert ByFate(fate, first + 1, first) == Report([], []);
    assert head.pages + [] == head.pages && head.failed + [] == head.failed;
    assert Add(head, Report([], [])) == head;
  }

  lemma {:induction false} SameFates(f: int -> Fate, g: int -> Fate, first: int, last: int)
    requires forall n :: first <= n <= last ==> f(n) == g(n)
    ensures ByFate(f, first, last) == ByFate(g, first, last)
    decreases last - first + 1
  {
    if first <= last {
      SameFates(f, g, first + 1, last);
    }
  }

  /** An ascending answer is its members in order, and what it leaves out is the rest in order. */
  lemma {:induction false} AnswerByFate(pages: seq<int>, all: seq<int>, first: int, last: int)
    requires Ascending(pages, first, last) && (pages == [] || first <= last)
    requires forall n :: first <= n <= last ==> (n in pages <==> n in all)
    ensures Report(pages, Missing(all, first, last))
         == ByFate(n => FateIn(Found(all), n), first, last)
    decreases last - first + 1
  {
    if first <= last {
      if pages != [] && pages[0] == first {
        assert pages == [first] + pages[1..];
        assert |pages| > 1 ==> pages[0] < pages[1] <= last;
        AnswerByFate(pages[1..], all, first + 1, last);
      } else {
        assert first !in pages;
        AnswerByFate(pages, all, first + 1, last);
      }
    }
  }

  lemma {:induction false} SinglesByFate(child: Child, first: int, last: int, known: Report)
    requires forall n :: first <= n <= last && child(n, n).Found? ==> Ascending(child(n, n).pages, n, n)
    requires Singles(child, first, last, known).Ok?
    ensures Singles(child, first, last, known).value
         == Add(known, ByFate(n => FateIn(child(n, n), n), first, last))
    decreases last - first + 1
  {
    var fate := n => FateIn(child(n, n), n);
    if first <= last {
      PageByFate(child, first);
      var report := PageReport(child, first).value;
      SinglesByFate(child, first + 1, last, Add(known, report));
      SameFates(fate, n => FateIn(child(first, first), n), first, first);
      OneStep(fate, first, last);
      AddIsAssociative(known, report, ByFate(fate, first + 1, last));
    } else {
      assert known.pages + [] == known.pages && known.failed + [] == known.failed;
    }
  }

  lemma PageByFate(child: Child, n: int)
    requires child(n, n).Found? ==> Ascending(child(n, n).pages, n, n)
    requires PageReport(child, n).Ok?
    ensures PageReport(child, n).value == ByFate(m => FateIn(child(n, n), m), n, n)
  {
    match child(n, n)
    case Found(pages) => AnswerByFate(pages, pages, n, n);
    case Refused(_, _) =>
      assert ByFate(m => FateIn(child(n, n), m), n + 1, n) == Report([], []);
  }

  lemma RangeByFate(child: Child, first: int, last: int)
    requires first <= last
    requires forall f, l :: first <= f <= l <= last && child(f, l).Found? ==>
                              Ascending(child(f, l).pages, f, l)
    requires RangeReport(child, first, last).Ok?
    ensures RangeReport(child, first, last).value
         == ByFate(n => FateIn(Deciding(child, first, last, n), n), first, last)
  {
    var fate := n => FateIn(Deciding(child, first, last, n), n);
    if first == last {
      PageByFate(child, first);
      SameFates(fate, n => FateIn(child(first, first), n), first, first);
    } else if child(first, last).Found? {
      var pages := child(first, last).pages;
      AnswerByFate(pages, pages, first, last);
      SameFates(fate, n => FateIn(Found(pages), n), first, last);
    } else {
      SinglesByFate(child, first, last, Report([], []));
      SameFates(fate, n => FateIn(child(n, n), n), first, last);
      var r := ByFate(fate, first, last);
      assert [] + r.pages == r.pages && [] + r.failed == r.failed;
    }
  }

  lemma ChunkStart(first: int, n: int)
    requires first >= 1 && (first - 1) % CHUNK_PAGES == 0 && first <= n < first + CHUNK_PAGES
    ensures ChunkOf(n) == first
  {
  }

  /** One range of 200 holds the fates of its pages. */
  lemma ChunkByFate(child: Child, first: int, count: int)
    requires 1 <= first <= count && (first - 1) % CHUNK_PAGES == 0 && Honest(child, count)
    requires RangeReport(child, first, Min(first + CHUNK_PAGES - 1, count)).Ok?
    ensures var last := Min(first + CHUNK_PAGES - 1, count);
      RangeReport(child, first, last).value == ByFate(n => FateOf(child, count, n), first, last)
  {
    hide RangeReport, ByFate, FateIn, Deciding;
    var last := Min(first + CHUNK_PAGES - 1, count);
    var fate := n => FateOf(child, count, n);
    RangeByFate(child, first, last);
    forall n | first <= n <= last ensures fate(n) == FateIn(Deciding(child, first, last, n), n) {
      ChunkStart(first, n);
    }
    SameFates(fate, n => FateIn(Deciding(child, first, last, n), n), first, last);
  }

  lemma {:induction false} ChunksByFate(child: Child, first: int, count: int, known: Report)
    requires first >= 1 && (first - 1) % CHUNK_PAGES == 0 && Honest(child, count)
    requires Chunks(child, first, count, known).Ok?
    ensures Chunks(child, first, count, known).value
         == Add(known, ByFate(n => FateOf(child, count, n), first, count))
    decreases count - first + 1
  {
    hide RangeReport, FateOf, Honest;
    var fate := n => FateOf(child, count, n);
    if first <= count {
      var last := Min(first + CHUNK_PAGES - 1, count);
      var report := RangeReport(child, first, last).value;
      ChunkByFate(child, first, count);
      NextChunk(child, first, count, Add(known, report));
      ByFateSplits(fate, first, last + 1, count);
      AddIsAssociative(known, report, ByFate(fate, last + 1, count));
    } else {
      assert known.pages + [] == known.pages && known.failed + [] == known.failed;
    }
  }

  lemma NextChunk(child: Child, first: int, count: int, known: Report)
    requires 1 <= first <= count && (first - 1) % CHUNK_PAGES == 0 && Honest(child, count)
    requires Chunks(child, first + CHUNK_PAGES, count, known).Ok?
    ensures Chunks(child, first + CHUNK_PAGES, count, known).value
         == Add(known, ByFate(n => FateOf(child, count, n), Min(first + CHUNK_PAGES - 1, count) + 1,
                              count))
    decreases count - first
  {
    var last := Min(first + CHUNK_PAGES - 1, count);
    ChunksByFate(child, first + CHUNK_PAGES, count, known);
    var fate := n => FateOf(child, count, n);
    if last == count {
      assert ByFate(fate, last + 1, count) == Report([], []);
      assert ByFate(fate, first + CHUNK_PAGES, count) == Report([], []);
    }
  }

  // ------------------------------------------------------------------ what the report says

  /** The whole report is the fate of each page: whatever ranges were tried and retried, page `n` is
      in `pages` or in `failed_pages` as the answer that decided about it says. */
  lemma ReportIsByFate(child: Child, count: nat)
    requires Honest(child, count) && Chunks(child, 1, count, Report([], [])).Ok?
    ensures Chunks(child, 1, count, Report([], [])).value
         == ByFate(n => FateOf(child, count, n), 1, count)
  {
    ChunksByFate(child, 1, count, Report([], []));
    var r := ByFate(n => FateOf(child, count, n), 1, count);
    assert [] + r.pages == r.pages && [] + r.failed == r.failed;
  }

  predicate InPages(r: Report, n: int) {
    n in r.pages
  }

  predicate InFailed(r: Report, n: int) {
    exists i :: 0 <= i < |r.failed| && r.failed[i].page == n
  }

  predicate InOrder(r: Report, first: int, last: int) {
    && Ascending(r.pages, first, last)
    && (forall i :: 0 <= i < |r.failed| ==> first <= r.failed[i].page <= last)
    && forall i, j :: 0 <= i < j < |r.failed| ==> r.failed[i].page < r.failed[j].page
  }

  lemma {:induction false} ByFateIsInOrder(fate: int -> Fate, first: int, last: int)
    ensures InOrder(ByFate(fate, first, last), first, last)
    decreases last - first + 1
  {
    if first <= last {
      ByFateIsInOrder(fate, first + 1, last);
    }
  }

  lemma NamedInSum(a: Report, b: Report, n: int)
    ensures InFailed(Add(a, b), n) <==> InFailed(a, n) || InFailed(b, n)
    ensures InPages(Add(a, b), n) <==> InPages(a, n) || InPages(b, n)
  {
    var all := Add(a, b).failed;
    if InFailed(a, n) {
      var i :| 0 <= i < |a.failed| && a.failed[i].page == n;
      assert all[i].page == n;
    }
    if InFailed(b, n) {
      var i :| 0 <= i < |b.failed| && b.failed[i].page == n;
      assert all[|a.failed| + i].page == n;
    }
  }

  lemma {:induction false} ByFatePlaces(fate: int -> Fate, first: int, last: int, n: int)
    requires first <= n <= last
    ensures InPages(ByFate(fate, first, last), n) <==> fate(n).Read?
    ensures InFailed(ByFate(fate, first, last), n) <==> !fate(n).Read?
    ensures fate(n).Gone? ==> Lost(n, fate(n).reason) in ByFate(fate, first, last).failed
    decreases last - first + 1
  {
    var head, rest := ByFate(fate, first, first), ByFate(fate, first + 1, last);
    OneStep(fate, first, last);
    NamedInSum(head, rest, n);
    OneFate(fate, first, n);
    if n > first {
      ByFatePlaces(fate, first + 1, last, n);
    } else {
      ByFateIsInOrder(fate, first + 1, last);
      assert !InPages(rest, n) && !InFailed(rest, n);
    }
  }

  lemma OneFate(fate: int -> Fate, first: int, n: int)
    ensures InPages(ByFate(fate, first, first), n) <==> n == first && fate(n).Read?
    ensures InFailed(ByFate(fate, first, first), n) <==> n == first && !fate(n).Read?
    ensures n == first && fate(n).Gone? ==>
              Lost(n, fate(n).reason) in ByFate(fate, first, first).failed
  {
    var one := ByFate(fate, first, first);
    assert ByFate(fate, first + 1, first) == Report([], []);
    if fate(first).Gone? {
      assert one.failed == [Lost(first, fate(first).reason)] && one.pages == [];
      assert one.failed[0].page == first;
    } else {
      assert one.failed == [] && one.pages == [first];
    }
  }

  /** Every page is accounted for exactly once, and both lists ascend. */
  lemma EveryPageOnce(child: Child, count: nat, n: int)
    requires Honest(child, count) && Chunks(child, 1, count, Report([], [])).Ok?
    ensures var r := Chunks(child, 1, count, Report([], [])).value;
            && InOrder(r, 1, count)
            && (1 <= n <= count ==> (InPages(r, n) <==> !InFailed(r, n)))
            && (!(1 <= n <= count) ==> !InPages(r, n) && !InFailed(r, n))
            && (1 <= n <= count && FateOf(child, count, n).Gone? ==>
                  Lost(n, FateOf(child, count, n).reason) in r.failed)
  {
    ReportIsByFate(child, count);
    var fate := n => FateOf(child, count, n);
    ByFateIsInOrder(fate, 1, count);
    if 1 <= n <= count {
      ByFatePlaces(fate, 1, count, n);
    }
  }

  // ------------------------------------------------------------------ when there is a report

  /** A refusal that is not tried again. */
  predicate Final(answer: Answer) {
    answer.Refused? && FailureReason(answer.status, answer.code).None?
  }

  lemma {:induction false} SinglesFailIff(child: Child, first: int, last: int, known: Report)
    ensures Singles(child, first, last, known).Err? <==>
              exists n :: first <= n <= last && Final(child(n, n))
    decreases last - first + 1
  {
    if first <= last && PageReport(child, first).Ok? {
      SinglesFailIff(child, first + 1, last, Add(known, PageReport(child, first).value));
    }
  }

  predicate Spoiled(child: Child, count: int, n: int) {
    var first := ChunkOf(n);
    var last := Min(first + CHUNK_PAGES - 1, count);
    Final(Deciding(child, first, last, n))
  }

  lemma RangeFailsIff(child: Child, first: int, count: int)
    requires 1 <= first <= count && (first - 1) % CHUNK_PAGES == 0
    ensures var last := Min(first + CHUNK_PAGES - 1, count);
            RangeReport(child, first, last).Err? <==>
              exists n :: first <= n <= last && Spoiled(child, count, n)
  {
    var last := Min(first + CHUNK_PAGES - 1, count);
    forall n | first <= n <= last
      ensures Spoiled(child, count, n) <==> Final(Deciding(child, first, last, n))
    {
      ChunkStart(first, n);
    }
    assert first <= first <= last;
    if Retried(child(first, last)) && first < last {
      SinglesFailIff(child, first, last, Report([], []));
      assert forall n :: Deciding(child, first, last, n) == child(n, n);
    } else if first < last {
      assert Spoiled(child, count, first) <==> Final(child(first, last));
    } else {
      assert Spoiled(child, count, first) <==> Final(child(first, first));
    }
  }

  /** The inspection fails as a whole exactly when some page is decided by a refusal of another kind
      than a timeout, the memory limit or a parse error. */
  lemma {:induction false} NoReportIff(child: Child, first: int, count: int, known: Report)
    requires first >= 1 && (first - 1) % CHUNK_PAGES == 0
    ensures Chunks(child, first, count, known).Err? <==>
              exists n :: first <= n <= count && Spoiled(child, count, n)
    decreases count - first + 1
  {
    if first <= count {
      var last := Min(first + CHUNK_PAGES - 1, count);
      RangeFailsIff(child, first, count);
      if RangeReport(child, first, last).Ok? {
        NoReportIff(child, first + CHUNK_PAGES, count,
                    Add(known, RangeReport(child, first, last).value));
      }
    }
  }
}
