/** What the batcher keeps over every interleaving of callers, `run` and the shutdown. */
module BatchingProofs {
  import opened Batching

  // ------------------------------------------------------------------ runs

  ghost predicate Legal(s: State, steps: seq<Step>)
    requires WellIndexed(s)
    decreases |steps|
  {
    steps == [] || (Enabled(s, steps[0]) && Legal(Next(s, steps[0]), steps[1..]))
  }

  ghost function DoAll(s: State, steps: seq<Step>): (r: State)
    requires WellIndexed(s) && Legal(s, steps)
    ensures WellIndexed(r) && r.maxTexts == s.maxTexts
    decreases |steps|
  {
    if steps == [] then s else DoAll(Next(s, steps[0]), steps[1..])
  }

  // ------------------------------------------------------------------ the invariant

  function Range(lo: nat, hi: nat): seq<nat>
    requires lo <= hi
  {
    seq(hi - lo, i requires 0 <= i < hi - lo => lo + i)
  }

  function Flatten(batches: seq<seq<nat>>): seq<nat> {
    if batches == [] then [] else Flatten(batches[..|batches| - 1]) + batches[|batches| - 1]
  }

  /** Drained and not yet in a batch. */
  function Aside(phase: Phase): seq<nat> {
    match phase
    case Window(held, _) => held
    case Cancelled(lost, closed) => lost + closed
    case _ => []
  }

  function Size(texts: seq<seq<string>>, ids: seq<nat>): nat
    requires Below(ids, |texts|)
  {
    if ids == [] then 0 else Size(texts, ids[..|ids| - 1]) + |texts[ids[|ids| - 1]]|
  }

  /** Nobody has answered the waiter yet, though it may have left. */
  predicate Open(s: State, i: nat) {
    i in s.queue || i in Held(s.phase) || (s.phase.Cancelled? && i in s.phase.lost)
  }

  /** Without its last request the batch is under the cap. */
  predicate Bounded(texts: seq<seq<string>>, maxTexts: nat, ids: seq<nat>) {
    ids != [] && Below(ids, |texts|) && Size(texts, ids[..|ids| - 1]) < maxTexts
  }

  /** Every request goes through exactly once, in the order of submission. */
  predicate InOrder(s: State) {
    Flatten(s.batches) + Aside(s.phase) + s.queue == Range(0, |s.texts|)
  }

  predicate Answering(s: State) {
    |s.outcomes| == |s.texts|
    && forall i: nat :: i < |s.outcomes| ==>
         if Open(s, i) then s.outcomes[i].Waiting? || s.outcomes[i].Left?
         else !s.outcomes[i].Waiting?
  }

  predicate BatchesBounded(s: State) {
    && (forall b :: 0 <= b < |s.batches| ==> Bounded(s.texts, s.maxTexts, s.batches[b]))
    && (s.phase.Window? ==> Bounded(s.texts, s.maxTexts, s.phase.held)
                            && s.phase.total == Size(s.texts, s.phase.held) < s.maxTexts)
  }

  predicate Inv(s: State) {
    && s.maxTexts >= 1
    && WellIndexed(s)
    && InOrder(s)
    && Answering(s)
    && BatchesBounded(s)
    && (s.phase.Encoding? ==> s.batches != [] && s.batches[|s.batches| - 1] == s.phase.batch)
  }

  // ------------------------------------------------------------------ the pieces

  /** Draining moves requests from the queue to the batch and leaves their order alone; it stops only
      at the cap or at an empty queue. */
  lemma {:induction false} DrainMoves(texts: seq<seq<string>>, maxTexts: nat, queue: seq<nat>,
                                      held: seq<nat>, total: nat)
    requires Below(queue, |texts|) && Below(held, |texts|)
    requires Bounded(texts, maxTexts, held) && total == Size(texts, held)
    ensures var r := Drain(texts, maxTexts, queue, held, total);
            && r.1 + r.0 == held + queue && Bounded(texts, maxTexts, r.1)
            && r.2 == Size(texts, r.1) && (r.0 == [] || r.2 >= maxTexts)
    decreases |queue|
  {
    if total < maxTexts && queue != [] {
      var more := held + [queue[0]];
      assert more[..|more| - 1] == held;
      DrainMoves(texts, maxTexts, queue[1..], more, total + |texts[queue[0]]|);
      assert more + queue[1..] == held + queue;
    }
  }

  /** Failing touches the named waiters that still wait, and nobody else. */
  lemma {:induction false} FailAllAt(outcomes: seq<Outcome>, ids: seq<nat>, i: nat)
    requires Below(ids, |outcomes|) && i < |outcomes|
    ensures FailAll(outcomes, ids)[i]
         == if i in ids && outcomes[i].Waiting? then Failed else outcomes[i]
    decreases |ids|
  {
    if ids != [] {
      FailAllAt(Settle(outcomes, ids[0], Failed), ids[1..], i);
    }
  }

  /** Handing out touches the members of the batch that still wait, and nobody else. */
  lemma {:induction false} DeliverAt(texts: seq<seq<string>>, outcomes: seq<Outcome>, batch: seq<nat>,
                                     k: nat, start: nat, vectors: seq<Vector>, tokens: seq<int>, i: nat)
    requires |outcomes| == |texts| && Below(batch, |texts|) && k <= |batch| && i < |texts|
    ensures var r := Deliver(texts, outcomes, batch, k, start, vectors, tokens);
            if From(batch, k, i) && outcomes[i].Waiting? then r[i].Answered? else r[i] == outcomes[i]
    decreases |batch| - k
  {
    hide Sum, Slice;
    if k < |batch| {
      FromNext(batch, k, i);
      var end := start + |texts[batch[k]]|;
      var more := Settle(outcomes, batch[k], Mine(vectors, tokens, start, end));
      DeliverAt(texts, more, batch, k + 1, end, vectors, tokens, i);
    }
  }

  /** The waiter is in the batch, at place `k` or later. */
  predicate From(batch: seq<nat>, k: nat, i: nat) {
    exists j :: k <= j < |batch| && batch[j] == i
  }

  lemma FromNext(batch: seq<nat>, k: nat, i: nat)
    requires k < |batch|
    ensures From(batch, k, i) <==> batch[k] == i || From(batch, k + 1, i)
  {
    if From(batch, k, i) {
      var j :| k <= j < |batch| && batch[j] == i;
    }
  }

  lemma FromStart(batch: seq<nat>, i: nat)
    ensures From(batch, 0, i) <==> i in batch
  {
  }

  function Map<A, B>(f: A -> B, xs: seq<A>): seq<B> {
    seq(|xs|, k requires 0 <= k < |xs| => f(xs[k]))
  }

  /** What a caller gets for its own texts alone. */
  function Due(enc: string -> Vector, cost: string -> int, texts: seq<string>): Outcome {
    Answered(Map(enc, texts), Sum(Map(cost, texts)))
  }

  /** One image for each element, in order. */
  predicate Images<A, B(==)>(f: A -> B, xs: seq<A>, ys: seq<B>) {
    |ys| == |xs| && forall k :: 0 <= k < |xs| ==> ys[k] == f(xs[k])
  }

  lemma OwnSlice<A, B>(f: A -> B, all: seq<A>, ys: seq<B>, start: nat, own: seq<A>)
    requires Images(f, all, ys) && start + |own| <= |all| && all[start..start + |own|] == own
    ensures Slice(ys, start, start + |own|) == Map(f, own)
  {
    assert forall k :: 0 <= k < |own| ==> own[k] == all[start + k];
  }

  /** Every slice handed out is what `dues` says of its waiter. */
  predicate Sliced(texts: seq<seq<string>>, batch: seq<nat>, k: nat, start: nat, vectors: seq<Vector>,
                   tokens: seq<int>, dues: seq<Outcome>)
    requires |dues| == |texts| && Below(batch, |texts|) && k <= |batch|
    decreases |batch| - k
  {
    k == |batch|
    || (var end := start + |texts[batch[k]]|;
        && Mine(vectors, tokens, start, end) == dues[batch[k]]
        && Sliced(texts, batch, k + 1, end, vectors, tokens, dues))
  }

  lemma SlicedNext(texts: seq<seq<string>>, batch: seq<nat>, k: nat, start: nat,
                   vectors: seq<Vector>, tokens: seq<int>, dues: seq<Outcome>)
    requires |dues| == |texts| && Below(batch, |texts|) && k < |batch|
    requires Mine(vectors, tokens, start, start + |texts[batch[k]]|) == dues[batch[k]]
    requires Sliced(texts, batch, k + 1, start + |texts[batch[k]]|, vectors, tokens, dues)
    ensures Sliced(texts, batch, k, start, vectors, tokens, dues)
  {
  }

  lemma {:induction false} DeliverGives(texts: seq<seq<string>>, outcomes: seq<Outcome>,
                                        batch: seq<nat>, k: nat, start: nat, vectors: seq<Vector>,
                                        tokens: seq<int>, dues: seq<Outcome>, i: nat)
    requires |outcomes| == |texts| == |dues| && Below(batch, |texts|) && k <= |batch| && i < |texts|
    requires Sliced(texts, batch, k, start, vectors, tokens, dues)
    ensures Deliver(texts, outcomes, batch, k, start, vectors, tokens)[i]
         == if From(batch, k, i) && outcomes[i].Waiting? then dues[i] else outcomes[i]
    decreases |batch| - k
  {
    if k < |batch| {
      FromNext(batch, k, i);
      var more := Settle(outcomes, batch[k], dues[batch[k]]);
      DeliverGives(texts, more, batch, k + 1, start + |texts[batch[k]]|, vectors, tokens, dues, i);
    }
  }

  function Dues(enc: string -> Vector, cost: string -> int, texts: seq<seq<string>>)
    : (r: seq<Outcome>)
    ensures |r| == |texts| && forall i :: 0 <= i < |texts| ==> r[i] == Due(enc, cost, texts[i])
  {
    seq(|texts|, i requires 0 <= i < |texts| => Due(enc, cost, texts[i]))
  }

  /** With one vector and one count for each text in order, every slice is the caller's own. */
  lemma {:induction false} SlicedByOwner(enc: string -> Vector, cost: string -> int,
                                         texts: seq<seq<string>>, batch: seq<nat>, k: nat, start: nat,
                                         all: seq<string>, vectors: seq<Vector>, tokens: seq<int>)
    requires Below(batch, |texts|) && k <= |batch| && Below(batch[k..], |texts|) && start <= |all|
    requires all[start..] == TextsOf(texts, batch[k..])
    requires Images(enc, all, vectors) && Images(cost, all, tokens)
    ensures Sliced(texts, batch, k, start, vectors, tokens, Dues(enc, cost, texts))
    decreases |batch| - k
  {
    if k < |batch| {
      var own := texts[batch[k]];
      TextsFrom(texts, batch, k, all, start);
      OwnSlice(enc, all, vectors, start, own);
      OwnSlice(cost, all, tokens, start, own);
      SlicedByOwner(enc, cost, texts, batch, k + 1, start + |own|, all, vectors, tokens);
      SlicedNext(texts, batch, k, start, vectors, tokens, Dues(enc, cost, texts));
    }
  }

  lemma TextsFrom(texts: seq<seq<string>>, batch: seq<nat>, k: nat, all: seq<string>, start: nat)
    requires k < |batch| && Below(batch[k..], |texts|) && start <= |all|
    requires all[start..] == TextsOf(texts, batch[k..])
    ensures Below(batch[k + 1..], |texts|) && batch[k] < |texts|
    ensures var own := texts[batch[k]];
            && start + |own| <= |all| && all[start..start + |own|] == own
            && all[start + |own|..] == TextsOf(texts, batch[k + 1..])
  {
    var own, rest := texts[batch[k]], batch[k + 1..];
    assert batch[k..][0] == batch[k] && batch[k..][1..] == rest;
    assert all[start..] == own + TextsOf(texts, rest);
    assert all[start..start + |own|] == all[start..][..|own|];
    assert all[start + |own|..] == all[start..][|own|..];
  }

  /** In the order of submission, a waiter's number says in which part it is. */
  lemma Parted(a: seq<nat>, b: seq<nat>, c: seq<nat>, n: nat)
    requires a + b + c == Range(0, n)
    ensures forall i: nat :: i in a <==> i < |a|
    ensures forall i: nat :: i in b <==> |a| <= i < |a| + |b|
    ensures forall i: nat :: i in c <==> |a| + |b| <= i < n
    ensures n == |a| + |b| + |c|
  {
    var all := a + b + c;
    assert |all| == n;
    assert forall k :: 0 <= k < |a| ==> a[k] == all[k] == k;
    assert forall k :: 0 <= k < |b| ==> b[k] == all[|a| + k] == |a| + k;
    assert forall k :: 0 <= k < |c| ==> c[k] == all[|a| + |b| + k] == |a| + |b| + k;
    forall i: nat | i < n
      ensures i < |a| ==> i in a
      ensures |a| <= i < |a| + |b| ==> i in b
      ensures |a| + |b| <= i ==> i in c
    {
      if i < |a| { assert a[i] == i; }
      else if i < |a| + |b| { assert b[i - |a|] == i; }
      else { assert c[i - |a| - |b|] == i; }
    }
  }

  lemma SizeGrows(texts: seq<seq<string>>, more: seq<seq<string>>, ids: seq<nat>)
    requires Below(ids, |texts|)
    ensures Below(ids, |texts + more|) && Size(texts + more, ids) == Size(texts, ids)
  {
  }

  // ------------------------------------------------------------------ every step keeps it

  lemma SubmitKeeps(s: State, texts: seq<string>)
    requires Inv(s) && Enabled(s, Submit(texts))
    ensures Inv(Next(s, Submit(texts)))
  {
    var t := Next(s, Submit(texts));
    var n := |s.texts|;
    assert Range(0, n + 1) == Range(0, n) + [n];
    assert Flatten(t.batches) + Aside(t.phase) + t.queue
        == Flatten(s.batches) + Aside(s.phase) + s.queue + [n];
    assert Below(t.queue, |t.texts|);
    assert t.queue[|s.queue|] == n;
    forall i: nat | i < n ensures Open(t, i) == Open(s, i) {
      assert i in t.queue <==> i in s.queue;
    }
    forall b | 0 <= b < |s.batches| ensures Bounded(t.texts, t.maxTexts, s.batches[b]) {
      SizeGrows(s.texts, [texts], s.batches[b][..|s.batches[b]| - 1]);
    }
    if s.phase.Window? {
      SizeGrows(s.texts, [texts], s.phase.held);
      SizeGrows(s.texts, [texts], s.phase.held[..|s.phase.held| - 1]);
    }
  }

  /** `run` drained some of the queue into `held`; nothing else has changed. */
  predicate Drained(s: State, taken: State, held: seq<nat>) {
    && (s.phase.Idle? || s.phase.Window?)
    && taken == s.(queue := taken.queue)
    && held + taken.queue == Aside(s.phase) + s.queue
    && Bounded(s.texts, s.maxTexts, held) && Below(taken.queue, |s.texts|)
  }

  function Waits(taken: State, held: seq<nat>): State
    requires Below(held, |taken.texts|)
  {
    taken.(phase := Window(held, Size(taken.texts, held)))
  }

  lemma OrderSurvives(s: State, taken: State, held: seq<nat>)
    requires InOrder(s) && Drained(s, taken, held)
    ensures InOrder(Dispatch(taken, held)) && InOrder(Waits(taken, held))
  {
    var flat := Flatten(s.batches);
    var t := Dispatch(taken, held);
    assert t.batches[..|s.batches|] == s.batches;
    assert Flatten(t.batches) == flat + held;
    assert flat + held + taken.queue == flat + (held + taken.queue);
    assert flat + (Aside(s.phase) + s.queue) == flat + Aside(s.phase) + s.queue;
    assert flat + held + [] + taken.queue == flat + held + taken.queue;
  }

  lemma OpenSurvives(s: State, taken: State, held: seq<nat>, i: nat)
    requires Drained(s, taken, held)
    ensures Open(Dispatch(taken, held), i) == Open(s, i) == Open(Waits(taken, held), i)
  {
    assert i in held + taken.queue <==> i in held || i in taken.queue;
    assert i in Aside(s.phase) + s.queue <==> i in Aside(s.phase) || i in s.queue;
    assert Held(s.phase) == Aside(s.phase);
  }

  /** Draining into `held`, and dispatching it or waiting a window. */
  lemma DispatchKeeps(s: State, taken: State, held: seq<nat>)
    requires Inv(s) && Drained(s, taken, held)
    ensures Inv(Dispatch(taken, held))
    ensures Size(s.texts, held) < s.maxTexts ==> Inv(Waits(taken, held))
  {
    OrderSurvives(s, taken, held);
    forall i: nat ensures Open(Dispatch(taken, held), i) == Open(s, i) == Open(Waits(taken, held), i) {
      OpenSurvives(s, taken, held, i);
    }
    assert Held(Dispatch(taken, held).phase) == held == Held(Waits(taken, held).phase);
  }

  lemma WakeKeeps(s: State)
    requires Inv(s) && Enabled(s, Wake)
    ensures Inv(Next(s, Wake))
    ensures Next(s, Wake).phase.Encoding? && s.window ==>
              Size(s.texts, Next(s, Wake).phase.batch) >= s.maxTexts
  {
    var first := s.queue[0];
    var r := Drain(s.texts, s.maxTexts, s.queue[1..], [first], |s.texts[first]|);
    assert [first][..0] == [] && Size(s.texts, []) == 0;
    DrainMoves(s.texts, s.maxTexts, s.queue[1..], [first], |s.texts[first]|);
    assert [first] + s.queue[1..] == s.queue;
    DispatchKeeps(s, s.(queue := r.0), r.1);
  }

  lemma WindowEndsKeeps(s: State)
    requires Inv(s) && Enabled(s, WindowEnds)
    ensures Inv(Next(s, WindowEnds))
    ensures Next(s, WindowEnds).queue == [] ||
            Size(s.texts, Next(s, WindowEnds).phase.batch) >= s.maxTexts
  {
    assert Held(s.phase) == s.phase.held;
    var r := Drain(s.texts, s.maxTexts, s.queue, s.phase.held, s.phase.total);
    DrainMoves(s.texts, s.maxTexts, s.queue, s.phase.held, s.phase.total);
    DispatchKeeps(s, s.(queue := r.0), r.1);
  }

  /** Leaving `batch` for good, when all its members and only they were answered. */
  lemma BatchClosed(s: State, t: State)
    requires Inv(s) && s.phase.Encoding? && |t.outcomes| == |s.outcomes|
    requires t == s.(outcomes := t.outcomes, phase := t.phase)
    requires t.phase == Idle || t.phase == Phase.Cancelled([], [])
    requires forall i: nat :: i < |t.outcomes| ==>
               if i in s.phase.batch && s.outcomes[i].Waiting? then !t.outcomes[i].Waiting?
               else t.outcomes[i] == s.outcomes[i]
    ensures Inv(t)
  {
    var before := Flatten(s.batches[..|s.batches| - 1]);
    assert Aside(t.phase) == [] == Aside(s.phase);
    assert Flatten(t.batches) + Aside(t.phase) + t.queue
        == Flatten(s.batches) + Aside(s.phase) + s.queue;
    assert before + s.phase.batch + s.queue == Range(0, |s.texts|);
    Parted(before, s.phase.batch, s.queue, |s.texts|);
    assert Held(s.phase) == s.phase.batch && Held(t.phase) == [];
  }

  lemma EncodedKeeps(s: State, vectors: seq<Vector>, tokens: seq<int>)
    requires Inv(s) && Enabled(s, Encoded(vectors, tokens))
    ensures Inv(Next(s, Encoded(vectors, tokens)))
  {
    assert Held(s.phase) == s.phase.batch;
    var t := Next(s, Encoded(vectors, tokens));
    forall i: nat | i < |t.outcomes|
      ensures if i in s.phase.batch && s.outcomes[i].Waiting? then !t.outcomes[i].Waiting?
              else t.outcomes[i] == s.outcomes[i]
    {
      DeliverAt(s.texts, s.outcomes, s.phase.batch, 0, 0, vectors, tokens, i);
      FromStart(s.phase.batch, i);
    }
    BatchClosed(s, t);
  }

  lemma FailedKeeps(s: State, step: Step)
    requires Inv(s) && s.phase.Encoding? && (step == EncodeFails || step == Cancel)
    ensures Inv(Next(s, step))
  {
    assert Held(s.phase) == s.phase.batch;
    var t := Next(s, step);
    forall i: nat | i < |t.outcomes|
      ensures if i in s.phase.batch && s.outcomes[i].Waiting? then !t.outcomes[i].Waiting?
              else t.outcomes[i] == s.outcomes[i]
    {
      FailAllAt(s.outcomes, s.phase.batch, i);
    }
    BatchClosed(s, t);
  }

  lemma CancelKeeps(s: State)
    requires Inv(s) && Enabled(s, Cancel)
    ensures Inv(Next(s, Cancel))
  {
    if s.phase.Encoding? {
      FailedKeeps(s, Cancel);
    } else {
      var t := Next(s, Cancel);
      assert Aside(t.phase) == Aside(s.phase);
      assert Held(t.phase) == [];
      assert s.phase.Window? ==> Held(s.phase) == t.phase.lost;
      assert s.phase.Idle? ==> Held(s.phase) == [] == t.phase.lost;
      assert forall i: nat :: Open(t, i) == Open(s, i);
    }
  }

  lemma CloseKeeps(s: State)
    requires Inv(s) && Enabled(s, Close)
    ensures Inv(Next(s, Close))
  {
    var t := Next(s, Close);
    var flat := Flatten(s.batches);
    assert flat + Aside(t.phase) + t.queue == flat + Aside(s.phase) + s.queue;
    assert flat + s.phase.lost + (s.phase.closed + s.queue) == Range(0, |s.texts|);
    Parted(flat, s.phase.lost, s.phase.closed + s.queue, |s.texts|);
    assert Held(t.phase) == [] == Held(s.phase);
    forall i: nat | i < |t.outcomes|
      ensures if Open(t, i) then t.outcomes[i].Waiting? || t.outcomes[i].Left?
              else !t.outcomes[i].Waiting?
    {
      FailAllAt(s.outcomes, s.queue, i);
      assert i in s.queue ==> i in s.phase.closed + s.queue;
    }
  }

  lemma StepKeeps(s: State, step: Step)
    requires Inv(s) && Enabled(s, step)
    ensures Inv(Next(s, step))
  {
    match step
    case Submit(texts) => SubmitKeeps(s, texts);
    case Leave(id) => assert forall i: nat :: Open(Next(s, step), i) == Open(s, i);
    case Wake => WakeKeeps(s);
    case WindowEnds => WindowEndsKeeps(s);
    case Encoded(vectors, tokens) => EncodedKeeps(s, vectors, tokens);
    case EncodeFails => FailedKeeps(s, EncodeFails);
    case Cancel => CancelKeeps(s);
    case Close => CloseKeeps(s);
  }

  lemma {:induction false} RunKeeps(s: State, steps: seq<Step>)
    requires Inv(s) && Legal(s, steps)
    ensures Inv(DoAll(s, steps))
    decreases |steps|
  {
    if steps != [] {
      StepKeeps(s, steps[0]);
      RunKeeps(Next(s, steps[0]), steps[1..]);
    }
  }

  // ------------------------------------------------------------------ whole runs

  lemma StartKeeps(maxTexts: nat, window: bool)
    requires maxTexts >= 1
    ensures Inv(Start(maxTexts, window))
  {
    assert Held(Start(maxTexts, window).phase) == [];
  }

  /** Whoever was answered got the vectors and the token sum of its own texts. */
  predicate Honest(enc: string -> Vector, cost: string -> int, s: State) {
    |s.outcomes| == |s.texts|
    && forall i :: 0 <= i < |s.outcomes| && s.outcomes[i].Answered? ==>
                     s.outcomes[i] == Due(enc, cost, s.texts[i])
  }

  /** The encoder maps texts one by one, and the tokenizer counts them one by one. */
  ghost predicate Faithful(enc: string -> Vector, cost: string -> int, s: State, steps: seq<Step>)
    requires WellIndexed(s) && Legal(s, steps)
    decreases |steps|
  {
    steps == []
    || ((steps[0].Encoded? ==>
           var all := TextsOf(s.texts, EncodedBatch(s));
           Images(enc, all, steps[0].vectors) && Images(cost, all, steps[0].tokens))
        && Faithful(enc, cost, Next(s, steps[0]), steps[1..]))
  }

  function EncodedBatch(s: State): (r: seq<nat>)
    requires WellIndexed(s) && s.phase.Encoding?
    ensures Below(r, |s.texts|)
  {
    assert Held(s.phase) == s.phase.batch;
    s.phase.batch
  }

  lemma StepIsHonest(enc: string -> Vector, cost: string -> int, s: State, step: Step)
    requires WellIndexed(s) && Enabled(s, step) && Honest(enc, cost, s)
    requires step.Encoded? ==>
               var all := TextsOf(s.texts, EncodedBatch(s));
               Images(enc, all, step.vectors) && Images(cost, all, step.tokens)
    ensures Honest(enc, cost, Next(s, step))
  {
    var t := Next(s, step);
    assert Held(s.phase) == match s.phase { case Window(h, _) => h case Encoding(b) => b case _ => [] };
    forall i | 0 <= i < |t.outcomes| && t.outcomes[i].Answered?
      ensures t.outcomes[i] == Due(enc, cost, t.texts[i])
    {
      if step.Encoded? {
        var all := TextsOf(s.texts, s.phase.batch);
        assert s.phase.batch[0..] == s.phase.batch && all[0..] == all;
        SlicedByOwner(enc, cost, s.texts, s.phase.batch, 0, 0, all, step.vectors, step.tokens);
        DeliverGives(s.texts, s.outcomes, s.phase.batch, 0, 0, step.vectors, step.tokens,
                     Dues(enc, cost, s.texts), i);
      } else if step.EncodeFails? || (step.Cancel? && s.phase.Encoding?) {
        FailAllAt(s.outcomes, s.phase.batch, i);
      } else if step.Close? {
        FailAllAt(s.outcomes, s.queue, i);
      }
    }
  }

  /** Batching is invisible: however calls are folded together, whoever is answered gets exactly what
      its own texts encode to and cost, as if it had been alone. */
  lemma {:induction false} BatchingIsInvisible(enc: string -> Vector, cost: string -> int, s: State,
                                               steps: seq<Step>)
    requires WellIndexed(s) && Honest(enc, cost, s)
    requires Legal(s, steps) && Faithful(enc, cost, s, steps)
    ensures Honest(enc, cost, DoAll(s, steps))
    decreases |steps|
  {
    if steps != [] {
      StepIsHonest(enc, cost, s, steps[0]);
      BatchingIsInvisible(enc, cost, Next(s, steps[0]), steps[1..]);
    }
  }

  lemma StepSetsOnce(s: State, step: Step, i: nat)
    requires Inv(s) && Enabled(s, step) && i < |s.outcomes|
    ensures i < |Next(s, step).outcomes|
    ensures !s.outcomes[i].Waiting? ==> Next(s, step).outcomes[i] == s.outcomes[i]
  {
    assert Held(s.phase) == match s.phase { case Window(h, _) => h case Encoding(b) => b case _ => [] };
    if step.Encoded? {
      DeliverAt(s.texts, s.outcomes, s.phase.batch, 0, 0, step.vectors, step.tokens, i);
    } else if step.EncodeFails? || (step.Cancel? && s.phase.Encoding?) {
      FailAllAt(s.outcomes, s.phase.batch, i);
    } else if step.Close? {
      FailAllAt(s.outcomes, s.queue, i);
    }
  }

  /** No future is set twice: an outcome, once there, is there for the rest of the run. */
  lemma {:induction false} NoFutureIsSetTwice(s: State, steps: seq<Step>, i: nat)
    requires Inv(s) && Legal(s, steps) && i < |s.outcomes|
    ensures i < |DoAll(s, steps).outcomes|
    ensures !s.outcomes[i].Waiting? ==> DoAll(s, steps).outcomes[i] == s.outcomes[i]
    decreases |steps|
  {
    if steps != [] {
      StepSetsOnce(s, steps[0], i);
      StepKeeps(s, steps[0]);
      NoFutureIsSetTwice(Next(s, steps[0]), steps[1..], i);
    }
  }

  /** Over every run: the batches are the order of submission, cut into pieces; each piece without its
      last request is under the cap; and between batches everybody in them has an answer. */
  lemma BatchesAreTheOrder(maxTexts: nat, window: bool, steps: seq<Step>)
    requires maxTexts >= 1 && WellIndexed(Start(maxTexts, window))
    requires Legal(Start(maxTexts, window), steps)
    ensures var s := DoAll(Start(maxTexts, window), steps);
            && Flatten(s.batches) + Aside(s.phase) + s.queue == Range(0, |s.texts|)
            && (forall b :: 0 <= b < |s.batches| ==> Bounded(s.texts, maxTexts, s.batches[b]))
            && (s.phase.Idle? ==>
                  forall i: nat :: i < |s.outcomes| && i in Flatten(s.batches) ==>
                                     !s.outcomes[i].Waiting?)
  {
    StartKeeps(maxTexts, window);
    RunKeeps(Start(maxTexts, window), steps);
    var s := DoAll(Start(maxTexts, window), steps);
    Parted(Flatten(s.batches), Aside(s.phase), s.queue, |s.texts|);
    assert s.phase.Idle? ==> Held(s.phase) == [];
  }

  /** A batch goes out under the cap only when nobody was left in the queue or no window is waited. */
  lemma NoRequestIsLeftBehind(s: State, step: Step)
    requires Inv(s) && Enabled(s, step) && !s.phase.Encoding? && Next(s, step).phase.Encoding?
    ensures var t := Next(s, step);
            t.queue == [] || Size(t.texts, EncodedBatch(t)) >= t.maxTexts
  {
    if step.Wake? {
      WakeKeeps(s);
      var first := s.queue[0];
      assert [first][..0] == [] && Size(s.texts, []) == 0;
      DrainMoves(s.texts, s.maxTexts, s.queue[1..], [first], |s.texts[first]|);
    } else {
      WindowEndsKeeps(s);
    }
  }

  // ------------------------------------------------------------------ the cap

  lemma {:induction false} SizeMonotone(texts: seq<seq<string>>, ids: seq<nat>, i: nat, j: nat)
    requires Below(ids, |texts|) && i <= j <= |ids|
    ensures Size(texts, ids[..i]) <= Size(texts, ids[..j])
    decreases j
  {
    if i < j {
      assert ids[..j][..j - 1] == ids[..j - 1];
      SizeMonotone(texts, ids, i, j - 1);
    }
  }

  /** Everybody `run` could put into its next batch, in order: what it holds, then the queue. */
  function Candidates(s: State): seq<nat> {
    Aside(s.phase) + s.queue
  }

  /** How many of the candidates a step of `run` has taken when it leaves the state `t`. */
  function TakenBy(s: State, t: State): int {
    |Candidates(s)| - |t.queue|
  }

  lemma Partition(texts: seq<seq<string>>, maxTexts: nat, all: seq<nat>, taken: seq<nat>, rest: seq<nat>)
    requires Below(all, |texts|) && taken + rest == all && Bounded(texts, maxTexts, taken)
    requires rest == [] || Size(texts, taken) >= maxTexts
    ensures taken == all[..|taken|]
    ensures forall k: nat :: k < |all| ==>
              (k < |taken| <==> k == 0 || Size(texts, all[..k]) < maxTexts)
  {
    var n := |taken|;
    assert taken == all[..n] && taken[..n - 1] == all[..n - 1];
    forall k: nat | k < |all| ensures k < n <==> k == 0 || Size(texts, all[..k]) < maxTexts {
      if k < n {
        SizeMonotone(texts, all, k, n - 1);
      } else {
        SizeMonotone(texts, all, n, k);
      }
    }
  }

  /** What a step of `run` has taken, and what it left in the queue. */
  predicate Split(s: State, t: State) {
    && Held(t.phase) + t.queue == Candidates(s) && Bounded(s.texts, s.maxTexts, Held(t.phase))
    && (t.queue == [] || Size(s.texts, Held(t.phase)) >= s.maxTexts)
  }

  lemma WakeSplits(s: State)
    requires Inv(s) && Enabled(s, Wake)
    ensures Split(s, Next(s, Wake))
  {
    hide Answering, BatchesBounded, Flatten;
    var first := s.queue[0];
    assert [first][..0] == [] && Size(s.texts, []) == 0;
    DrainMoves(s.texts, s.maxTexts, s.queue[1..], [first], |s.texts[first]|);
    assert [first] + s.queue[1..] == s.queue;
    assert Candidates(s) == s.queue;
  }

  lemma WindowSplits(s: State)
    requires Inv(s) && Enabled(s, WindowEnds)
    ensures Split(s, Next(s, WindowEnds))
  {
    hide Answering, Flatten;
    assert Held(s.phase) == s.phase.held;
    DrainMoves(s.texts, s.maxTexts, s.queue, s.phase.held, s.phase.total);
    assert Candidates(s) == s.phase.held + s.queue;
  }

  lemma CandidatesAreBelow(s: State)
    requires Inv(s)
    ensures Below(Candidates(s), |s.texts|)
  {
    Parted(Flatten(s.batches), Aside(s.phase), s.queue, |s.texts|);
    forall k | 0 <= k < |Aside(s.phase)| ensures Aside(s.phase)[k] < |s.texts| {
      assert Aside(s.phase)[k] in Aside(s.phase);
    }
  }

  /** `_drain` on the waiting order, whenever `run` drains: the k-th candidate is taken if and only if it
      is the first, or the texts before it are fewer than the cap. Its own texts play no part. */
  lemma TakenIffUnderTheCap(s: State, step: Step, k: nat)
    requires Inv(s) && Enabled(s, step) && (step.Wake? || step.WindowEnds?) && k < |Candidates(s)|
    ensures Below(Candidates(s), |s.texts|)
    ensures var t := Next(s, step);
            && 0 < TakenBy(s, t) <= |Candidates(s)|
            && Held(t.phase) == Candidates(s)[..TakenBy(s, t)]
            && (k < TakenBy(s, t) <==> k == 0 || Size(s.texts, Candidates(s)[..k]) < s.maxTexts)
  {
    CandidatesAreBelow(s);
    if step.Wake? {
      WakeSplits(s);
    } else {
      WindowSplits(s);
    }
    hide Next, Inv, Size, Bounded, Aside;
    var t := Next(s, step);
    Partition(s.texts, s.maxTexts, Candidates(s), Held(t.phase), t.queue);
  }

  /** The k-th of these, not the first, brings the texts over the cap. */
  predicate CrossesAt(texts: seq<seq<string>>, maxTexts: nat, ids: seq<nat>, k: nat)
    requires Below(ids, |texts|)
  {
    1 <= k < |ids| && Size(texts, ids[..k + 1]) > maxTexts
  }

  predicate Crossing(texts: seq<seq<string>>, maxTexts: nat, ids: seq<nat>)
    requires Below(ids, |texts|)
  {
    exists k :: 1 <= k < |ids| && CrossesAt(texts, maxTexts, ids, k)
  }

  /** The candidates reach over the cap from below it: the k-th finds room, and not enough. */
  predicate JumpsAt(texts: seq<seq<string>>, maxTexts: nat, ids: seq<nat>, k: nat)
    requires Below(ids, |texts|)
  {
    1 <= k < |ids| && Size(texts, ids[..k]) < maxTexts < Size(texts, ids[..k + 1])
  }

  /** The documented rule leaves a request that would cross the cap in the queue. `run` breaks it when it
      drains, if and only if some candidate finds room under the cap and not enough of it. */
  lemma CrossingIsTakenIff(s: State, step: Step)
    requires Inv(s) && Enabled(s, step) && (step.Wake? || step.WindowEnds?)
    ensures Below(Candidates(s), |s.texts|) && Below(Held(Next(s, step).phase), |s.texts|)
    ensures Crossing(s.texts, s.maxTexts, Held(Next(s, step).phase))
       <==> exists k: nat :: k < |Candidates(s)| && JumpsAt(s.texts, s.maxTexts, Candidates(s), k)
  {
    var all, t := Candidates(s), Next(s, step);
    assert step.Wake? ==> s.queue != [];
    TakenIffUnderTheCap(s, step, 0);
    hide Inv, Next, Enabled, Aside, Held, Size;
    var held := Held(t.phase);
    if k: nat :| 1 <= k < |held| && CrossesAt(s.texts, s.maxTexts, held, k) {
      assert held[..k + 1] == all[..k + 1];
      TakenIffUnderTheCap(s, step, k);
      assert JumpsAt(s.texts, s.maxTexts, all, k);
    }
    if k: nat :| k < |all| && JumpsAt(s.texts, s.maxTexts, all, k) {
      TakenIffUnderTheCap(s, step, k);
      assert held[..k + 1] == all[..k + 1];
      assert CrossesAt(s.texts, s.maxTexts, held, k);
    }
  }

  /** Over every run: a batch holds a request that crossed the cap, if and only if it is not alone and has
      more texts than the others leave room for; and only the last request of a batch can be one. */
  lemma BatchCrossesIff(maxTexts: nat, window: bool, steps: seq<Step>, b: nat)
    requires maxTexts >= 1 && WellIndexed(Start(maxTexts, window))
    requires Legal(Start(maxTexts, window), steps)
    requires b < |DoAll(Start(maxTexts, window), steps).batches|
    ensures var s := DoAll(Start(maxTexts, window), steps);
            var batch := s.batches[b];
            && Below(batch, |s.texts|) && batch != []
            && (Crossing(s.texts, maxTexts, batch)
                <==> |batch| > 1
                     && |s.texts[batch[|batch| - 1]]| > maxTexts - Size(s.texts, batch[..|batch| - 1]))
            && (forall k :: 1 <= k < |batch| - 1 ==> !CrossesAt(s.texts, maxTexts, batch, k))
  {
    hide DoAll, Legal, Flatten, Start;
    BatchesAreTheOrder(maxTexts, window, steps);
    var s := DoAll(Start(maxTexts, window), steps);
    var batch := s.batches[b];
    assert Bounded(s.texts, maxTexts, batch);
    var last := |batch| - 1;
    assert batch[..last + 1] == batch;
    forall k | 1 <= k < last ensures !CrossesAt(s.texts, maxTexts, batch, k) {
      SizeMonotone(s.texts, batch, k + 1, last);
    }
    assert last >= 1 ==>
      (CrossesAt(s.texts, maxTexts, batch, last) <==> Size(s.texts, batch) > maxTexts);
  }

  /** A cap of two, a request of one text and one of two: the second crosses the cap and is taken. */
  lemma CrossingRequestIsTaken()
    ensures var s := Start(2, false);
            var steps := [Submit(["a"]), Submit(["b", "c"]), Wake];
            && WellIndexed(s) && Legal(s, steps)
            && DoAll(s, steps).batches == [[0, 1]]
            && Below([0, 1], |DoAll(s, steps).texts|) && Size(DoAll(s, steps).texts, [0, 1]) == 3
  {
    var s0 := Start(2, false);
    var steps := [Submit(["a"]), Submit(["b", "c"]), Wake];
    var s1 := Next(s0, Submit(["a"]));
    var s2 := Next(s1, Submit(["b", "c"]));
    assert s2.texts == [["a"], ["b", "c"]] && s2.queue == [0, 1];
    assert s2.queue[1..] == [1] && [1][1..] == [];
    var s3 := Next(s2, Wake);
    CrossingDrain(s2.texts);
    assert s3.batches == [[0, 1]] && s3.texts == s2.texts;
    assert steps[1..] == [Submit(["b", "c"]), Wake] && steps[1..][1..] == [Wake];
    assert steps[1..][1..][1..] == [];
  }

  lemma CrossingDrain(texts: seq<seq<string>>)
    requires texts == [["a"], ["b", "c"]]
    ensures Below([1], 2) && Below([0, 1], 2)
    ensures Drain(texts, 2, [1], [0], 1) == ([], [0, 1], 3) && Size(texts, [0, 1]) == 3
  {
    assert [1][1..] == [] && [0] + [1] == [0, 1];
    assert [0, 1][..1] == [0] && [0][..0] == [];
    assert Size(texts, [0]) == Size(texts, []) + 1;
  }

  // ------------------------------------------------------------------ shutdown

  /** Between the cancellation and `close` only callers move. */
  ghost predicate OnlyLeaving(s: State, steps: seq<Step>) {
    forall k :: 0 <= k < |steps| ==> steps[k].Leave? && steps[k].id < |s.outcomes|
  }

  lemma {:induction false} LeavingIsLegal(s: State, steps: seq<Step>)
    requires Inv(s) && OnlyLeaving(s, steps)
    ensures Legal(s, steps) && DoAll(s, steps).phase == s.phase && Inv(DoAll(s, steps))
    ensures |DoAll(s, steps).outcomes| == |s.outcomes|
    decreases |steps|
  {
    if steps != [] {
      assert steps[0].Leave?;
      StepKeeps(s, steps[0]);
      var t := Next(s, steps[0]);
      assert forall k :: 0 <= k < |steps[1..]| ==> steps[1..][k] == steps[k + 1];
      LeavingIsLegal(t, steps[1..]);
    }
  }

  /** The state after `run` is cancelled, callers leave, `close` drains the queue, and more leave. */
  ghost function ShutDown(s: State, before: seq<Step>, after: seq<Step>): (r: State)
    requires Inv(s) && Enabled(s, Cancel)
    requires OnlyLeaving(s, before) && OnlyLeaving(s, after)
    ensures Inv(r) && r.phase.Cancelled? && r.queue == [] && |r.outcomes| == |s.outcomes|
    ensures r.phase.lost == if s.phase.Window? then s.phase.held else []
  {
    CancelKeeps(s);
    var cancelled := Next(s, Cancel);
    LeavingIsLegal(cancelled, before);
    var t := DoAll(cancelled, before);
    CloseKeeps(t);
    LeavingIsLegal(Next(t, Close), after);
    LeavingKeepsQueue(Next(t, Close), after);
    DoAll(Next(t, Close), after)
  }

  lemma {:induction false} LeavingKeepsQueue(s: State, steps: seq<Step>)
    requires Inv(s) && OnlyLeaving(s, steps) && Legal(s, steps)
    ensures DoAll(s, steps).queue == s.queue
    decreases |steps|
  {
    if steps != [] {
      assert steps[0].Leave?;
      StepKeeps(s, steps[0]);
      assert forall k :: 0 <= k < |steps[1..]| ==> steps[1..][k] == steps[k + 1];
      LeavingKeepsQueue(Next(s, steps[0]), steps[1..]);
    }
  }

  /** After cancel and `close` a waiter is still waiting exactly if `run` had drained it and was
      cancelled in the window, and its caller has not left. */
  lemma ShutdownForgetsExactlyTheWindow(s: State, before: seq<Step>, after: seq<Step>, i: nat)
    requires Inv(s) && Enabled(s, Cancel) && i < |s.outcomes|
    requires OnlyLeaving(s, before) && OnlyLeaving(s, after)
    ensures var end := ShutDown(s, before, after);
            end.outcomes[i].Waiting? <==>
              (s.phase.Window? && i in s.phase.held && !end.outcomes[i].Left?)
  {
    var end := ShutDown(s, before, after);
    assert Held(end.phase) == [];
  }

  lemma WaitsAfterShutdownIff(s: State, i: nat)
    requires Inv(s) && Enabled(s, Cancel) && i < |s.outcomes| && !s.outcomes[i].Left?
    ensures ShutDown(s, [], []).outcomes[i].Waiting? <==> (s.phase.Window? && i in s.phase.held)
  {
    CancelKeeps(s);
    var c := Next(s, Cancel);
    ShutdownForgetsExactlyTheWindow(s, [], [], i);
    if s.phase.Encoding? {
      assert Held(s.phase) == s.phase.batch;
      FailAllAt(s.outcomes, s.phase.batch, i);
    }
    FailAllAt(c.outcomes, c.queue, i);
  }

  /** So everybody is answered if the cancellation does not find `run` in the window; and if it does,
      the waiters it had drained hang although nobody left. */
  lemma EveryoneIsAnsweredIff(s: State)
    requires Inv(s) && Enabled(s, Cancel)
    requires forall i :: 0 <= i < |s.outcomes| ==> !s.outcomes[i].Left?
    ensures (forall i :: 0 <= i < |s.outcomes| ==> !ShutDown(s, [], []).outcomes[i].Waiting?)
            <==> !s.phase.Window?
  {
    var end := ShutDown(s, [], []);
    forall i: nat | i < |s.outcomes|
      ensures end.outcomes[i].Waiting? <==> (s.phase.Window? && i in s.phase.held)
    {
      WaitsAfterShutdownIff(s, i);
    }
    if s.phase.Window? {
      assert Held(s.phase) == s.phase.held;
      assert s.phase.held[0] in s.phase.held;
    }
  }

  /** One call, a window, a shutdown: the caller waits for ever. */
  lemma LostInTheWindow(maxTexts: nat)
    requires maxTexts >= 2
    ensures var s := Start(maxTexts, true);
            WellIndexed(s)
            && Legal(s, [Submit(["a"]), Wake, Cancel, Close])
            && DoAll(s, [Submit(["a"]), Wake, Cancel, Close]).outcomes == [Waiting]
  {
    var s0 := Start(maxTexts, true);
    var s1 := Next(s0, Submit(["a"]));
    assert s1.texts == [["a"]] && s1.queue == [0];
    assert s1.queue[1..] == [];
    var s2 := Next(s1, Wake);
    assert s2.phase == Window([0], 1);
    var s3 := Next(s2, Cancel);
    var s4 := Next(s3, Close);
    assert s4.outcomes == [Waiting];
    var steps := [Submit(["a"]), Wake, Cancel, Close];
    assert steps[1..] == [Wake, Cancel, Close] && steps[1..][1..] == [Cancel, Close];
    assert steps[1..][1..][1..] == [Close] && steps[1..][1..][1..][1..] == [];
  }
}
