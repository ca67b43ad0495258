/** What the fallback keeps over every interleaving of a turn's provider calls. */
module FallbackProofs {
  import opened Wrappers
  import opened Metering
  import opened Fallback

  /** No stream mixes providers, and the shared flags say exactly what the log says. */
  ghost predicate Keeps(w: World) {
    && (w.fallback ==> (w.flags.switched <==> TargetAnswered(w.log)))
    && (w.fallback ==> (w.flags.primaryServed <==> PrimaryDelivered(w.log)))
    && (!w.fallback ==> !TargetAnswered(w.log) && w.flags == FRESH)
    && (forall id :: Pure(w, id))
  }

  /** What stream `id` has delivered so far, given where it stands. */
  ghost predicate Pure(w: World, id: nat) {
    var primary, target := HasChunk(w.log, id, Primary), HasChunk(w.log, id, Target);
    if id !in w.streams then !primary && !target
    else
      match w.streams[id].stage
      case OnPrimary(started) => w.fallback && !target && primary == started
      case OnTarget(_) => w.fallback && !primary && target && w.flags.switched
      case Direct(Primary) => !w.fallback && !target
      case Direct(Target) => w.fallback && !primary && w.flags.switched
      case Done => !(primary && target)
  }

  lemma LogGrows(log: seq<Happening>, h: Happening)
    ensures TargetAnswered(log + [h]) <==> TargetAnswered(log) || By(h) == Some(Target)
    ensures PrimaryDelivered(log + [h])
       <==> PrimaryDelivered(log) || (Delivers(h) && By(h) == Some(Primary))
    ensures forall id, from :: HasChunk(log + [h], id, from) <==>
      (HasChunk(log, id, from) || ChunkFrom(log + [h], |log|, id, from))
  {
    var log' := log + [h];
    assert forall i :: 0 <= i < |log| ==> log'[i] == log[i];
    assert log'[|log|] == h;
    forall id, from
      ensures HasChunk(log', id, from)
         <==> HasChunk(log, id, from) || ChunkFrom(log', |log|, id, from)
    {
      assert forall i: nat :: i < |log| ==> ChunkFrom(log', i, id, from) == ChunkFrom(log, i, id, from);
      if HasChunk(log, id, from) {
        var i: nat :| ChunkFrom(log, i, id, from);
        assert ChunkFrom(log', i, id, from);
      }
    }
  }

  lemma ChunksAreAnswers(log: seq<Happening>, id: nat)
    ensures HasChunk(log, id, Primary) ==> PrimaryDelivered(log)
    ensures HasChunk(log, id, Target) ==> TargetAnswered(log)
  {
    if i: nat :| ChunkFrom(log, i, id, Primary) {
      assert Delivers(log[i]) && By(log[i]) == Some(Primary);
    }
    if i: nat :| ChunkFrom(log, i, id, Target) {
      assert By(log[i]) == Some(Target);
    }
  }

  lemma AdvanceKeepsFlags(w: World, op: Op)
    requires Keeps(w) && op.Advance? && op.id in w.streams && w.streams[op.id].stage != Done
    ensures var w' := Do(w, op);
      && (w.fallback ==> (w'.flags.switched <==> TargetAnswered(w'.log)))
      && (w.fallback ==> (w'.flags.primaryServed <==> PrimaryDelivered(w'.log)))
      && (!w.fallback ==> !TargetAnswered(w'.log) && w'.flags == FRESH)
  {
    var w' := Do(w, op);
    LogGrows(w.log, w'.log[|w.log|]);
    assert w'.log == w.log + [w'.log[|w.log|]];
    assert Pure(w, op.id);
    ChunksAreAnswers(w.log, op.id);
  }

  lemma StepKeeps(w: World, op: Op)
    requires Keeps(w)
    ensures Keeps(Do(w, op))
  {
    var w' := Do(w, op);
    if |w'.log| == |w.log| {
      assert forall id :: Pure(w, id) ==> Pure(w', id);
    } else {
      var h := w'.log[|w.log|];
      assert w'.log == w.log + [h];
      LogGrows(w.log, h);
      if op.Advance? {
        AdvanceKeepsFlags(w, op);
      }
      forall id ensures Pure(w', id) {
        assert Pure(w, id);
      }
    }
  }

  /** Over any interleaving of calls, whatever the providers answer. */
  lemma {:induction false} RunKeeps(w: World, ops: seq<Op>)
    requires Keeps(w)
    ensures Keeps(DoAll(w, ops))
    decreases |ops|
  {
    if ops != [] {
      StepKeeps(w, ops[0]);
      RunKeeps(Do(w, ops[0]), ops[1..]);
    }
  }

  lemma StartKeeps(fallback: bool, target: Support)
    ensures Keeps(Start(fallback, target))
  {
  }

  /** The answer one stream gives the agent comes from one model only. */
  lemma OneStreamOneModel(fallback: bool, target: Support, ops: seq<Op>, id: nat)
    ensures var log := DoAll(Start(fallback, target), ops).log;
      !(HasChunk(log, id, Primary) && HasChunk(log, id, Target))
  {
    StartKeeps(fallback, target);
    RunKeeps(Start(fallback, target), ops);
    assert Pure(DoAll(Start(fallback, target), ops), id);
  }

  /** The flags that the notice and the bill are decided by mean what they claim, at every point:
      switched says the local model answered, primaryServed says the primary delivered. */
  lemma FlagsMeanTheLog(target: Support, ops: seq<Op>)
    ensures var w := DoAll(Start(true, target), ops);
      && (w.flags.switched <==> TargetAnswered(w.log))
      && (w.flags.primaryServed <==> PrimaryDelivered(w.log))
  {
    StartKeeps(true, target);
    RunKeeps(Start(true, target), ops);
    FallbackNeverChanges(Start(true, target), ops);
  }

  lemma {:induction false} FallbackNeverChanges(w: World, ops: seq<Op>)
    ensures DoAll(w, ops).fallback == w.fallback
    decreases |ops|
  {
    if ops != [] {
      FallbackNeverChanges(Do(w, ops[0]), ops[1..]);
    }
  }

  // ------------------------------------------------------------------ sticky

  /** Stream `id` can only ever be served by the target. */
  ghost predicate TargetOnly(w: World, id: nat) {
    && w.fallback && w.flags.switched && !HasChunk(w.log, id, Primary)
    && (id in w.streams ==> w.streams[id].stage in {Direct(Target), Done})
  }

  lemma {:induction false} TargetOnlyKeeps(w: World, ops: seq<Op>, id: nat)
    requires TargetOnly(w, id)
    ensures TargetOnly(DoAll(w, ops), id)
    decreases |ops|
  {
    if ops != [] {
      var w' := Do(w, ops[0]);
      if |w'.log| > |w.log| {
        LogGrows(w.log, w'.log[|w.log|]);
        assert w'.log == w.log + [w'.log[|w.log|]];
      }
      TargetOnlyKeeps(w', ops[1..], id);
    }
  }

  /** Sticky: once the local model has answered, every stream opened later is its alone. */
  lemma SwitchedTurnStaysOnTarget(w: World, ops: seq<Op>, id: nat)
    requires Keeps(w) && w.fallback && w.flags.switched && id !in w.streams
    ensures !HasChunk(DoAll(w, ops).log, id, Primary)
  {
    assert Pure(w, id);
    TargetOnlyKeeps(w, ops, id);
  }

  lemma {:induction false} LogKeepsItsPrefix(w: World, ops: seq<Op>)
    ensures w.log <= DoAll(w, ops).log
    decreases |ops|
  {
    if ops != [] {
      LogKeepsItsPrefix(Do(w, ops[0]), ops[1..]);
    }
  }

  /** Stream `id` was opened on the primary and has not left it. */
  predicate StillPrimary(w: World, id: nat) {
    id in w.streams && w.streams[id].stage.OnPrimary?
  }

  /** After the switch one step asks the primary on such a stream only, and opens no new one. */
  lemma SwitchedStep(w: World, op: Op)
    requires w.fallback && w.flags.switched
    requires forall id :: id in w.streams ==> w.streams[id].stage != Direct(Primary)
    ensures var w' := Do(w, op);
      && w'.fallback && w'.flags.switched
      && (forall id :: id in w'.streams ==> w'.streams[id].stage != Direct(Primary))
      && (forall id :: StillPrimary(w', id) ==> StillPrimary(w, id))
      && (|w'.log| > |w.log| && By(w'.log[|w.log|]) == Some(Primary) ==>
            w'.log[|w.log|].StreamSaw? && StillPrimary(w, w'.log[|w.log|].id))
  {
  }

  lemma {:induction false} LaterPrimaryIsAnOpenStream(w: World, ops: seq<Op>, i: nat)
    requires w.fallback && w.flags.switched
    requires forall id :: id in w.streams ==> w.streams[id].stage != Direct(Primary)
    requires |w.log| <= i < |DoAll(w, ops).log| && By(DoAll(w, ops).log[i]) == Some(Primary)
    ensures DoAll(w, ops).log[i].StreamSaw? && StillPrimary(w, DoAll(w, ops).log[i].id)
    decreases |ops|
  {
    var w' := Do(w, ops[0]);
    SwitchedStep(w, ops[0]);
    if |w'.log| <= i {
      LaterPrimaryIsAnOpenStream(w', ops[1..], i);
    } else {
      LogKeepsItsPrefix(w', ops[1..]);
    }
  }

  /** Once the local model has answered, whatever the agent goes on to do: nothing is answered by the
      primary any more, neither a whole call nor a stream, except on the streams that were open on it
      at that moment. */
  lemma SwitchedTurnLeavesThePrimary(target: Support, before: seq<Op>, after: seq<Op>, i: nat)
    requires var w := DoAll(Start(true, target), before);
      && TargetAnswered(w.log) && |w.log| <= i < |DoAll(w, after).log|
      && By(DoAll(w, after).log[i]) == Some(Primary)
    ensures var w := DoAll(Start(true, target), before);
      var h := DoAll(w, after).log[i];
      h.StreamSaw? && StillPrimary(w, h.id)
  {
    var w := DoAll(Start(true, target), before);
    StartKeeps(true, target);
    RunKeeps(Start(true, target), before);
    FallbackNeverChanges(Start(true, target), before);
    forall id | id in w.streams ensures w.streams[id].stage != Direct(Primary) {
      assert Pure(w, id);
    }
    LaterPrimaryIsAnOpenStream(w, after, i);
  }

  /** Such a stream does go on: it was started on the primary before another call switched the turn. */
  lemma OpenStreamStaysWithThePrimary(down: Failure, chunk: Chunk)
    requires ProviderDown(down)
    ensures var both := Support(true, true);
      var before := [Open(0, "a", Need(false), None), Advance(0, Got(chunk), None, End),
                     Ask("b", Need(false), Error(down), Result(3, 5))];
      var w := DoAll(Start(true, both), before);
      && TargetAnswered(w.log)
      && Do(w, Advance(0, Got(chunk), None, End)).log == w.log + [StreamSaw(0, "a", Chunked(Primary, chunk))]
  {
    var w0 := Start(true, Support(true, true));
    var o0, o1 := Open(0, "a", Need(false), None), Advance(0, Got(chunk), None, End);
    var o2 := Ask("b", Need(false), Error(down), Result(3, 5));
    var w1 := Do(w0, o0);
    var w2 := Do(w1, o1);
    var w3 := Do(w2, o2);
    assert [o2][1..] == [] && [o1, o2][1..] == [o2] && [o0, o1, o2][1..] == [o1, o2];
    assert DoAll(w2, [o2]) == w3;
    assert DoAll(w1, [o1, o2]) == DoAll(w2, [o2]);
    assert By(w3.log[1]) == Some(Target);
  }

  /** If the agent goes on with `after`, the primary answers entry `i` of the log, later than `w`. */
  predicate PrimaryAnswersAt(w: World, after: seq<Op>, i: nat) {
    |w.log| <= i < |DoAll(w, after).log| && By(DoAll(w, after).log[i]) == Some(Primary)
  }

  /** After any run in which the target answered: the primary can still come to answer something, if and
      only if a stream is open on it. */
  lemma PrimaryCanAnswerIff(target: Support, before: seq<Op>)
    requires TargetAnswered(DoAll(Start(true, target), before).log)
    ensures var w := DoAll(Start(true, target), before);
      (exists after: seq<Op>, i: nat :: PrimaryAnswersAt(w, after, i)) <==> (exists id :: StillPrimary(w, id))
  {
    var w := DoAll(Start(true, target), before);
    if after: seq<Op>, i: nat :| PrimaryAnswersAt(w, after, i) {
      SwitchedTurnLeavesThePrimary(target, before, after, i);
      assert StillPrimary(w, DoAll(w, after).log[i].id);
    }
    if id :| StillPrimary(w, id) {
      var ends := Advance(id, End, None, End);
      assert [ends][1..] == [];
      assert DoAll(w, [ends]) == Do(w, ends);
      assert PrimaryAnswersAt(w, [ends], |w.log|);
    }
  }

  // ------------------------------------------------------------------ whose failure is raised

  /** A stream that has delivered from the primary fails with the primary's own error. */
  lemma StartedStreamFailsAsItself(w: World, id: nat, error: Failure, refusal: Option<Failure>, t: Pull)
    requires Keeps(w) && w.fallback && id in w.streams && w.streams[id].stage.OnPrimary?
    requires HasChunk(w.log, id, Primary)
    ensures var w' := Do(w, Advance(id, Fail(error), refusal, t));
      w'.log[|w.log|].seen == Raised(error) && w'.streams[id].stage == Done && w'.flags == w.flags
  {
    assert Pure(w, id);
  }

  /** After any run: the primary of a stream is down before its first chunk and the target does not
      answer either. The user sees the primary's error if and only if the target did not refuse at the
      call itself and had answered nothing in this turn; otherwise the refusal, or the target's error. */
  lemma PrimaryErrorIsRaisedIff(target: Support, ops: seq<Op>, id: nat, error: Failure,
                                refusal: Option<Failure>, other: Failure)
    requires var w := DoAll(Start(true, target), ops);
      && id in w.streams && w.streams[id].stage == OnPrimary(false)
      && Eligible(error, w.streams[id].need, target, true)
    requires other != error && refusal != Some(error)
    ensures var w := DoAll(Start(true, target), ops);
      var log := Do(w, Advance(id, Fail(error), refusal, Fail(other))).log;
      && |log| == |w.log| + 1 && log[|w.log|].StreamSaw?
      && (log[|w.log|].seen == Raised(error) <==> refusal.None? && !TargetAnswered(w.log))
      && log[|w.log|].seen.Raised?
      && (log[|w.log|].seen.failure == error || log[|w.log|].seen.failure == other
          || Some(log[|w.log|].seen.failure) == refusal)
  {
    FlagsMeanTheLog(target, ops);
    FallbackNeverChanges(Start(true, target), ops);
    TargetNeverChanges(Start(true, target), ops);
  }

  lemma {:induction false} TargetNeverChanges(w: World, ops: seq<Op>)
    ensures DoAll(w, ops).target == w.target
    decreases |ops|
  {
    if ops != [] {
      TargetNeverChanges(Do(w, ops[0]), ops[1..]);
    }
  }

  /** One call at a time: a stream is pulled only until the next call begins. */
  predicate Sequential(ops: seq<Op>, current: Option<nat>)
    decreases |ops|
  {
    ops == [] ||
    match ops[0]
    case Open(id, _, _, _) => Sequential(ops[1..], Some(id))
    case Ask(_, _, _, _) => Sequential(ops[1..], None)
    case Advance(id, _, _, _) => current == Some(id) && Sequential(ops[1..], current)
  }

  predicate Unswitched(w: World, current: Option<nat>) {
    current.Some? && current.value in w.streams && w.streams[current.value].stage == OnPrimary(false) ==>
      !w.flags.switched
  }

  /** Agents that make one call at a time always see the error of the model they chose. */
  lemma {:induction false} SequentialFailureIsThePrimarys(w: World, ops: seq<Op>, current: Option<nat>,
      id: nat, error: Failure, other: Failure)
    requires w.fallback && Unswitched(w, current)
    requires forall i :: 0 <= i < |ops| && ops[i].Open? ==> ops[i].id !in w.streams
    requires forall i, j :: 0 <= i < j < |ops| && ops[i].Open? && ops[j].Open? ==> ops[i].id != ops[j].id
    requires Sequential(ops + [Advance(id, Fail(error), None, Fail(other))], current)
    requires var w' := DoAll(w, ops);
      id in w'.streams && w'.streams[id].stage == OnPrimary(false)
      && Eligible(error, w'.streams[id].need, w'.target, true)
    ensures var w' := DoAll(w, ops);
      Do(w', Advance(id, Fail(error), None, Fail(other))).log[|w'.log|].seen == Raised(error)
    decreases |ops|
  {
    var last := Advance(id, Fail(error), None, Fail(other));
    if ops == [] {
      assert (ops + [last])[0] == last;
    } else {
      assert (ops + [last])[0] == ops[0] && (ops + [last])[1..] == ops[1..] + [last];
      var next := match ops[0]
        case Open(handle, _, _, _) => Some(handle)
        case Ask(_, _, _, _) => None
        case Advance(_, _, _, _) => current;
      var w1 := Do(w, ops[0]);
      assert forall i :: 0 <= i < |ops| - 1 ==> ops[1..][i] == ops[i + 1];
      assert w1.streams.Keys <= w.streams.Keys + (if ops[0].Open? then {ops[0].id} else {});
      SequentialFailureIsThePrimarys(w1, ops[1..], next, id, error, other);
    }
  }

  /** One call at a time is not enough when the target refuses at the call itself: the agent sees the
      refusal, although the primary failed first. */
  lemma RefusalIsRaised(down: Failure, refusal: Failure, other: Failure)
    requires ProviderDown(down) && refusal != down
    ensures var both := Support(true, true);
      var ops := [Open(0, "a", Need(false), None), Advance(0, Fail(down), Some(refusal), Fail(other))];
      && Sequential(ops, None)
      && DoAll(Start(true, both), ops).log == [StreamSaw(0, "a", Raised(refusal))]
      && !DoAll(Start(true, both), ops).flags.switched
  {
    var w0 := Start(true, Support(true, true));
    var o, a := Open(0, "a", Need(false), None), Advance(0, Fail(down), Some(refusal), Fail(other));
    var w1 := Do(w0, o);
    assert [a][1..] == [] && [o, a][1..] == [a];
    assert DoAll(w1, [a]) == Do(w1, a);
    assert DoAll(w0, [o, a]) == DoAll(w1, [a]);
    assert Sequential([a], Some(0));
  }

  /** With two calls in flight the promise fails: the second call switches the turn, and the first
      then raises the local model's own error. */
  lemma ConcurrentCallsSeeTheOtherError(down: Failure, other: Failure, chunk: Chunk)
    requires ProviderDown(down) && other != down
    ensures var both := Support(true, true);
      var ops := [Open(0, "a", Need(false), None), Open(1, "b", Need(false), None),
                  Advance(1, Fail(down), None, Got(chunk)), Advance(0, Fail(down), None, Fail(other))];
      var log := DoAll(Start(true, both), ops).log;
      |log| == 2 && log[1] == StreamSaw(0, "a", Raised(other))
  {
    var both := Support(true, true);
    var w0 := Start(true, both);
    var o1, o2 := Open(0, "a", Need(false), None), Open(1, "b", Need(false), None);
    var a1, a2 := Advance(1, Fail(down), None, Got(chunk)), Advance(0, Fail(down), None, Fail(other));
    var w1 := Do(w0, o1);
    var w2 := Do(w1, o2);
    var w3 := Do(w2, a1);
    assert [a2][1..] == [];
    assert DoAll(w3, [a2]) == Do(w3, a2);
    assert [a1, a2][1..] == [a2] && [o2, a1, a2][1..] == [a1, a2];
    assert [o1, o2, a1, a2][1..] == [o2, a1, a2];
    assert DoAll(w2, [a1, a2]) == DoAll(w3, [a2]);
    assert DoAll(w1, [o2, a1, a2]) == DoAll(w2, [a1, a2]);
  }
}
