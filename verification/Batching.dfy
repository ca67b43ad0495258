/** Coalescing of concurrent /embed calls: `_Batcher` and `_fail` of services/embedding/app.py.
    A waiter is named by its place in the order of submission. `run` is cut at its awaits, so its
    steps interleave freely with submissions, departures and the shutdown. */
module Batching {

  type Vector = seq<real>

  /** The state of one caller's future. */
  datatype Outcome = Waiting | Answered(vectors: seq<Vector>, tokens: int) | Failed | Left

  /** Where `run` is suspended: on the queue, in the window, in the encoder, or cancelled. `lost` is
      what it had drained when a cancellation found it in the window; `closed` is what `close` failed. */
  datatype Phase =
    | Idle
    | Window(held: seq<nat>, total: nat)
    | Encoding(batch: seq<nat>)
    | Cancelled(lost: seq<nat>, closed: seq<nat>)

  datatype State = State(maxTexts: nat, window: bool, texts: seq<seq<string>>,
                         outcomes: seq<Outcome>, queue: seq<nat>, phase: Phase,
                         batches: seq<seq<nat>>)

  // ------------------------------------------------------------------ the pieces

  predicate Below(ids: seq<nat>, n: nat) {
    forall k :: 0 <= k < |ids| ==> ids[k] < n
  }

  /** `_drain`: whole requests are taken while the total is under the cap. */
  function Drain(texts: seq<seq<string>>, maxTexts: nat, queue: seq<nat>, held: seq<nat>, total: nat)
    : (r: (seq<nat>, seq<nat>, nat))
    requires Below(queue, |texts|)
    ensures Below(r.0, |texts|) && (Below(held, |texts|) ==> Below(r.1, |texts|))
    decreases |queue|
  {
    if total >= maxTexts || queue == [] then (queue, held, total)
    else Drain(texts, maxTexts, queue[1..], held + [queue[0]], total + |texts[queue[0]]|)
  }

  /** `future.set_result` or `set_exception`, behind the `done()` test. */
  function Settle(outcomes: seq<Outcome>, i: nat, outcome: Outcome): (r: seq<Outcome>)
    requires i < |outcomes|
    ensures |r| == |outcomes|
  {
    if outcomes[i] == Waiting then outcomes[i := outcome] else outcomes
  }

  /** `_fail`. */
  function FailAll(outcomes: seq<Outcome>, ids: seq<nat>): (r: seq<Outcome>)
    requires Below(ids, |outcomes|)
    ensures |r| == |outcomes|
    decreases |ids|
  {
    if ids == [] then outcomes else FailAll(Settle(outcomes, ids[0], Failed), ids[1..])
  }

  /** A Python slice: bounds beyond the end are clamped. */
  function Slice<T>(xs: seq<T>, start: nat, end: nat): seq<T>
    requires start <= end
  {
    if |xs| <= start then [] else if |xs| <= end then xs[start..] else xs[start..end]
  }

  function Sum(xs: seq<int>): int {
    if xs == [] then 0 else xs[0] + Sum(xs[1..])
  }

  function Mine(vectors: seq<Vector>, tokens: seq<int>, start: nat, end: nat): Outcome
    requires start <= end
  {
    Answered(Slice(vectors, start, end), Sum(Slice(tokens, start, end)))
  }

  /** The slices handed out at the end of `_dispatch`, from waiter `k` of the batch on. */
  function Deliver(texts: seq<seq<string>>, outcomes: seq<Outcome>, batch: seq<nat>, k: nat, start: nat,
                   vectors: seq<Vector>, tokens: seq<int>): (r: seq<Outcome>)
    requires |outcomes| == |texts| && Below(batch, |texts|) && k <= |batch|
    ensures |r| == |outcomes|
    decreases |batch| - k
  {
    if k == |batch| then outcomes
    else
      var end := start + |texts[batch[k]]|;
      var mine := Mine(vectors, tokens, start, end);
      Deliver(texts, Settle(outcomes, batch[k], mine), batch, k + 1, end, vectors, tokens)
  }

  /** The texts of a batch, in the order they are encoded. */
  function TextsOf(texts: seq<seq<string>>, batch: seq<nat>): seq<string>
    requires Below(batch, |texts|)
  {
    if batch == [] then [] else texts[batch[0]] + TextsOf(texts, batch[1..])
  }

  // ------------------------------------------------------------------ steps

  datatype Step =
    | Submit(texts: seq<string>)
    | Leave(id: nat)
    | Wake
    | WindowEnds
    | Encoded(vectors: seq<Vector>, tokens: seq<int>)
    | EncodeFails
    | Cancel
    | Close

  predicate WellIndexed(s: State) {
    && |s.outcomes| == |s.texts|
    && Below(s.queue, |s.texts|)
    && Below(Held(s.phase), |s.texts|)
  }

  /** What `run` holds at the moment. */
  function Held(phase: Phase): seq<nat> {
    match phase
    case Window(held, _) => held
    case Encoding(batch) => batch
    case _ => []
  }

  function Dispatch(s: State, batch: seq<nat>): State {
    s.(phase := Encoding(batch), batches := s.batches + [batch])
  }

  /** The step can happen: its event and the place where `run` waits agree. */
  predicate Enabled(s: State, step: Step) {
    match step
    case Submit(_) => !s.phase.Cancelled?
    case Leave(id) => id < |s.outcomes|
    case Wake => s.phase.Idle? && s.queue != []
    case WindowEnds => s.phase.Window?
    case Encoded(_, _) => s.phase.Encoding?
    case EncodeFails => s.phase.Encoding?
    case Cancel => !s.phase.Cancelled?
    case Close => s.phase.Cancelled?
  }

  function Next(s: State, step: Step): (r: State)
    requires WellIndexed(s) && Enabled(s, step)
    ensures WellIndexed(r) && r.maxTexts == s.maxTexts
  {
    match step
    case Submit(texts) =>
      s.(texts := s.texts + [texts], outcomes := s.outcomes + [Waiting], queue := s.queue + [|s.texts|])
    case Leave(id) => s.(outcomes := Settle(s.outcomes, id, Left))
    case Wake =>
      var first := s.queue[0];
      var (queue, held, total) :=
        Drain(s.texts, s.maxTexts, s.queue[1..], [first], |s.texts[first]|);
      var s' := s.(queue := queue);
      if total < s.maxTexts && s.window then s'.(phase := Window(held, total)) else Dispatch(s', held)
    case WindowEnds =>
      assert Held(s.phase) == s.phase.held;
      var (queue, held, _) := Drain(s.texts, s.maxTexts, s.queue, s.phase.held, s.phase.total);
      Dispatch(s.(queue := queue), held)
    case Encoded(vectors, tokens) =>
      assert Held(s.phase) == s.phase.batch;
      s.(outcomes := Deliver(s.texts, s.outcomes, s.phase.batch, 0, 0, vectors, tokens), phase := Idle)
    case EncodeFails =>
      assert Held(s.phase) == s.phase.batch;
      s.(outcomes := FailAll(s.outcomes, s.phase.batch), phase := Idle)
    case Cancel =>
      (match s.phase
       case Idle => s.(phase := Phase.Cancelled([], []))
       case Window(held, _) => s.(phase := Phase.Cancelled(held, []))
       case Encoding(batch) =>
         assert Held(s.phase) == batch;
         s.(outcomes := FailAll(s.outcomes, batch), phase := Phase.Cancelled([], []))
       case Cancelled(_, _) => s)
    case Close =>
      s.(outcomes := FailAll(s.outcomes, s.queue), queue := [],
         phase := Phase.Cancelled(s.phase.lost, s.phase.closed + s.queue))
  }

  function Start(maxTexts: nat, window: bool): State {
    State(maxTexts, window, [], [], [], Idle, [])
  }

  // ------------------------------------------------------------------ the object

  class Batcher {
    const maxTexts: nat
    const window: bool
    var texts: seq<seq<string>>
    var outcomes: seq<Outcome>
    var queue: seq<nat>
    var phase: Phase
    ghost var batches: seq<seq<nat>>

    constructor (maxTexts: nat, window: bool)
      ensures Snapshot() == Start(maxTexts, window)
    {
      this.maxTexts, this.window := maxTexts, window;
      texts, outcomes, queue, phase, batches := [], [], [], Idle, [];
    }

    ghost function Snapshot(): State
      reads this
    {
      State(maxTexts, window, texts, outcomes, queue, phase, batches)
    }

    method SubmitTexts(mine: seq<string>) returns (id: nat)
      requires WellIndexed(Snapshot()) && !phase.Cancelled?
      modifies this
      ensures Snapshot() == Next(old(Snapshot()), Submit(mine)) && id == old(|texts|)
    {
      id := |texts|;
      texts, outcomes, queue := texts + [mine], outcomes + [Waiting], queue + [id];
    }

    method DrainQueue(held0: seq<nat>, total0: nat) returns (held: seq<nat>, total: nat)
      requires WellIndexed(Snapshot())
      modifies this`queue
      ensures (queue, held, total) == Drain(texts, maxTexts, old(queue), held0, total0)
      ensures Below(queue, |texts|)
    {
      held, total := held0, total0;
      while total < maxTexts && queue != []
        invariant Below(queue, |texts|)
        invariant Drain(texts, maxTexts, old(queue), held0, total0)
               == Drain(texts, maxTexts, queue, held, total)
        decreases |queue|
      {
        var next := queue[0];
        queue := queue[1..];
        held := held + [next];
        total := total + |texts[next]|;
      }
    }

    /** A future is set only if it is not done. */
    method SettleOne(id: nat, outcome: Outcome)
      requires id < |outcomes|
      modifies this`outcomes
      ensures outcomes == Settle(old(outcomes), id, outcome)
    {
      if outcomes[id] == Waiting {
        outcomes := outcomes[id := outcome];
      }
    }

    method FailWaiters(ids: seq<nat>)
      requires Below(ids, |outcomes|)
      modifies this`outcomes
      ensures outcomes == FailAll(old(outcomes), ids)
    {
      for k := 0 to |ids|
        invariant |outcomes| == |old(outcomes)|
        invariant FailAll(old(outcomes), ids) == FailAll(outcomes, ids[k..])
      {
        assert ids[k..][0] == ids[k] && ids[k..][1..] == ids[k + 1..];
        SettleOne(ids[k], Failed);
      }
    }

    /** `run`, from the queue to the next await. */
    method OnWake()
      requires WellIndexed(Snapshot()) && phase.Idle? && queue != []
      modifies this
      ensures Snapshot() == Next(old(Snapshot()), Wake)
    {
      var first := queue[0];
      queue := queue[1..];
      var held, total := DrainQueue([first], |texts[first]|);
      if total < maxTexts && window {
        phase := Window(held, total);
      } else {
        phase := Encoding(held);
        batches := batches + [held];
      }
    }

    method OnWindowEnds()
      requires WellIndexed(Snapshot()) && phase.Window?
      modifies this
      ensures Snapshot() == Next(old(Snapshot()), WindowEnds)
    {
      var held, _ := DrainQueue(phase.held, phase.total);
      phase := Encoding(held);
      batches := batches + [held];
    }

    /** The waiter's own slice. */
    method Give(id: nat, start: nat, vectors: seq<Vector>, tokens: seq<int>) returns (end: nat)
      requires id < |texts| == |outcomes|
      modifies this`outcomes
      ensures end == start + |texts[id]|
      ensures outcomes == Settle(old(outcomes), id, Mine(vectors, tokens, start, end))
    {
      end := start + |texts[id]|;
      SettleOne(id, Answered(Slice(vectors, start, end), Sum(Slice(tokens, start, end))));
    }

    /** The end of `_dispatch`: every waiter gets its own slice. */
    method HandOut(batch: seq<nat>, vectors: seq<Vector>, tokens: seq<int>)
      requires |outcomes| == |texts| && Below(batch, |texts|)
      modifies this`outcomes
      ensures outcomes == Deliver(texts, old(outcomes), batch, 0, 0, vectors, tokens)
    {
      var start: nat := 0;
      for k := 0 to |batch|
        invariant |outcomes| == |texts|
        invariant Deliver(texts, old(outcomes), batch, 0, 0, vectors, tokens)
               == Deliver(texts, outcomes, batch, k, start, vectors, tokens)
      {
        start := Give(batch[k], start, vectors, tokens);
      }
    }

    method OnEncoded(vectors: seq<Vector>, tokens: seq<int>)
      requires WellIndexed(Snapshot()) && phase.Encoding?
      modifies this`outcomes, this`phase
      ensures Snapshot() == Next(old(Snapshot()), Encoded(vectors, tokens))
    {
      assert phase.batch == Held(phase);
      HandOut(phase.batch, vectors, tokens);
      phase := Idle;
    }

    method OnEncodeFails()
      requires WellIndexed(Snapshot()) && phase.Encoding?
      modifies this
      ensures Snapshot() == Next(old(Snapshot()), EncodeFails)
    {
      assert Held(phase) == phase.batch;
      FailWaiters(phase.batch);
      phase := Idle;
    }

    method OnCancel()
      requires WellIndexed(Snapshot()) && !phase.Cancelled?
      modifies this
      ensures Snapshot() == Next(old(Snapshot()), Cancel)
    {
      match phase {
        case Idle => phase := Phase.Cancelled([], []);
        case Window(held, _) => phase := Phase.Cancelled(held, []);
        case Encoding(batch) =>
          assert Held(phase) == batch;
          FailWaiters(batch);
          phase := Phase.Cancelled([], []);
      }
    }

    method CloseQueue()
      requires WellIndexed(Snapshot()) && phase.Cancelled?
      modifies this
      ensures Snapshot() == Next(old(Snapshot()), Close)
    {
      var all := queue;
      while queue != []
        invariant |outcomes| == |texts| && unchanged(this`texts)
        invariant Below(queue, |texts|)
        invariant phase == old(phase) && batches == old(batches)
        invariant FailAll(old(outcomes), all) == FailAll(outcomes, queue)
        decreases |queue|
      {
        var id := queue[0];
        queue := queue[1..];
        FailWaiters([id]);
      }
      phase := Phase.Cancelled(phase.lost, phase.closed + all);
    }
  }
}
