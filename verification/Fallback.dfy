/** The sticky provider fallback of one chat turn: `_Fallback` and `_FallbackLLM` of
    src/app/agents/orchestrator.py. Provider answers are inputs, so every theorem is about every
    behaviour of the two providers and every interleaving of the agent's calls. */
module Fallback {
  import opened Wrappers
  import opened Metering

  datatype Failure =
    | AppFailure(code: string, transient: bool, detail: string)
    | OtherFailure(detail: string)

  /** `_provider_down`. */
  predicate ProviderDown(f: Failure) {
    f.AppFailure? && f.code == "agent.failed" && f.transient
  }

  /** What one call needs, and what the local model supports. */
  datatype Need = Need(tools: bool)

  datatype Support = Support(tools: bool, streaming: bool)

  /** `_eligible`; `_provider_down` reads an AppError only. */
  predicate Eligible(f: Failure, need: Need, target: Support, streaming: bool) {
    ProviderDown(f) && (need.tools ==> target.tools) && (streaming ==> target.streaming)
  }

  datatype Provider = Primary | Target

  /** One pull on a provider's stream, and one whole answer. */
  datatype Pull = Got(chunk: Chunk) | End | Fail(failure: Failure)

  datatype Answer = Result(promptTokens: int, completionTokens: int) | Error(failure: Failure)

  datatype Flags = Flags(switched: bool, announced: bool, primaryServed: bool)

  const FRESH := Flags(false, false, false)

  /** Where one stream stands. `Direct` goes straight to one provider: the target, because the turn
      had switched when the stream was opened, or the primary of a turn that has no fallback. */
  datatype Stage =
    | OnPrimary(started: bool)
    | OnTarget(failure: Failure)
    | Direct(provider: Provider)
    | Done

  /** What the agent sees of one pull. */
  datatype Seen =
    | Chunked(from: Provider, chunk: Chunk)
    | Finished(last: Provider)
    | Raised(failure: Failure)

  // ------------------------------------------------------------------ one step of one stream

  /** Lines 791-805: the target is asked. `refusal` is what its `stream()` raises at call time,
      which happens before the guarded region. */
  function AskTarget(flags: Flags, failure: Failure, refusal: Option<Failure>, t: Pull)
    : (Flags, Stage, Seen)
  {
    if refusal.Some? then (flags, Done, Raised(refusal.value))
    else
      match t
      case Got(chunk) => (flags.(switched := true), OnTarget(failure), Chunked(Target, chunk))
      case End => (flags.(switched := true), Done, Finished(Target))
      case Fail(error) => (flags, Done, Raised(if flags.switched then error else failure))
  }

  /** One `anext` on a stream: `p` is the primary's next answer, `refusal` and `t` the target's. */
  function Next(flags: Flags, stage: Stage, need: Need, target: Support,
                p: Pull, refusal: Option<Failure>, t: Pull): (Flags, Stage, Seen)
    requires stage != Done
  {
    match stage
    case Direct(provider) =>
      (match if provider == Primary then p else t
       case Got(chunk) => (flags, stage, Chunked(provider, chunk))
       case End => (flags, Done, Finished(provider))
       case Fail(error) => (flags, Done, Raised(error)))
    case OnTarget(failure) => AskTarget(flags, failure, None, t)
    case OnPrimary(started) =>
      match p
      case Got(chunk) =>
        (if started then flags else flags.(primaryServed := true), OnPrimary(true), Chunked(Primary, chunk))
      case End => (flags, Done, Finished(Primary))
      case Fail(error) =>
        if started || !Eligible(error, need, target, true) then (flags, Done, Raised(error))
        else AskTarget(flags, error, refusal, t)
  }

  /** What the agent sees of a whole answer. */
  datatype Whole =
    | Answered(from: Provider, promptTokens: int, completionTokens: int)
    | Refused(failure: Failure)

  /** `complete`. */
  function Complete(flags: Flags, need: Need, target: Support, p: Answer, t: Answer): (Flags, Whole) {
    if flags.switched then
      match t
      case Result(pt, ct) => (flags, Answered(Target, pt, ct))
      case Error(f) => (flags, Refused(f))
    else
      match p
      case Result(pt, ct) => (flags.(primaryServed := true), Answered(Primary, pt, ct))
      case Error(f) =>
        if !Eligible(f, need, target, false) then (flags, Refused(f))
        else
          match t
          case Result(pt, ct) => (flags.(switched := true), Answered(Target, pt, ct))
          case Error(_) => (flags, Refused(f))
  }

  // ------------------------------------------------------------------ the objects

  /** `_Fallback`. */
  class FallbackState {
    const target: Support
    var switched: bool
    var announced: bool
    var primaryServed: bool

    constructor (target: Support)
      ensures this.target == target && Snapshot() == FRESH
    {
      this.target := target;
      switched, announced, primaryServed := false, false, false;
    }

    function Snapshot(): Flags
      reads this
    {
      Flags(switched, announced, primaryServed)
    }

    /** `served`: idempotent. */
    method Served()
      modifies this`switched
      ensures switched
    {
      if switched {
        return;
      }
      switched := true;
    }

    method CompleteCall(need: Need, p: Answer, t: Answer) returns (r: Whole)
      modifies this`switched, this`primaryServed
      ensures (Snapshot(), r) == Complete(old(Snapshot()), need, target, p, t)
    {
      if switched {
        return WholeOf(Target, t);
      }
      if p.Error? {
        if !Eligible(p.failure, need, target, false) {
          return Refused(p.failure);
        }
        if t.Error? {
          return Refused(p.failure);
        }
        Served();
        return WholeOf(Target, t);
      }
      primaryServed := true;
      return WholeOf(Primary, p);
    }

    static function WholeOf(from: Provider, a: Answer): Whole {
      match a
      case Result(pt, ct) => Answered(from, pt, ct)
      case Error(f) => Refused(f)
    }
  }

  /** The generator `_stream_or_fall_back`, suspended between two pulls. */
  class FallbackStream {
    const state: FallbackState
    const need: Need
    var stage: Stage

    /** `stream()`: the choice between the two providers is made when the stream is opened. */
    constructor (state: FallbackState, need: Need)
      ensures this.state == state && this.need == need
      ensures stage == if state.switched then Direct(Target) else OnPrimary(false)
    {
      this.state := state;
      this.need := need;
      stage := if state.switched then Direct(Target) else OnPrimary(false);
    }

    method Pull(p: Pull, refusal: Option<Failure>, t: Pull) returns (seen: Seen)
      requires stage != Done
      modifies this`stage, state`switched, state`primaryServed
      ensures (state.Snapshot(), stage, seen)
           == Next(old(state.Snapshot()), old(stage), need, state.target, p, refusal, t)
    {
      match stage {
        case Direct(provider) =>
          var pulled := if provider == Primary then p else t;
          match pulled {
            case Got(chunk) => return Chunked(provider, chunk);
            case End => stage := Done; return Finished(provider);
            case Fail(error) => stage := Done; return Raised(error);
          }
        case OnTarget(failure) =>
          seen := PullTarget(failure, t);
        case OnPrimary(started) =>
          match p {
            case Got(chunk) =>
              if !started {
                state.primaryServed := true;
              }
              stage := OnPrimary(true);
              return Chunked(Primary, chunk);
            case End =>
              stage := Done;
              return Finished(Primary);
            case Fail(error) =>
              if started || !Eligible(error, need, state.target, true) {
                stage := Done;
                return Raised(error);
              }
              if refusal.Some? {
                stage := Done;
                return Raised(refusal.value);
              }
              seen := PullTarget(error, t);
          }
      }
    }

    method PullTarget(failure: Failure, t: Pull) returns (seen: Seen)
      modifies this`stage, state`switched
      ensures (state.Snapshot(), stage, seen) == AskTarget(old(state.Snapshot()), failure, None, t)
    {
      match t {
        case Got(chunk) =>
          state.Served();
          stage := OnTarget(failure);
          return Chunked(Target, chunk);
        case End =>
          state.Served();
          stage := Done;
          return Finished(Target);
        case Fail(error) =>
          stage := Done;
          return Raised(if state.switched then error else failure);
      }
    }
  }

  // ------------------------------------------------------------------ a whole turn's calls

  datatype Stream = Stream(prompt: string, need: Need, stage: Stage)

  /** What happened, in order, as the agent saw it. */
  datatype Happening =
    | StreamSaw(id: nat, prompt: string, seen: Seen)
    | CallSaw(prompt: string, whole: Whole)

  /** `fallback` says the turn has one; `target` is what its local model supports. */
  datatype World = World(fallback: bool, target: Support, flags: Flags, streams: map<nat, Stream>,
                         log: seq<Happening>)

  /** One thing the agent does. A stream is named by the agent's own handle on it; opening may be
      refused at call time by the provider that is asked. */
  datatype Op =
    | Open(id: nat, prompt: string, need: Need, refusal: Option<Failure>)
    | Advance(id: nat, p: Pull, refusal: Option<Failure>, t: Pull)
    | Ask(prompt: string, need: Need, first: Answer, second: Answer)

  function Opened(w: World): Stage {
    if !w.fallback then Direct(Primary)
    else if w.flags.switched then Direct(Target)
    else OnPrimary(false)
  }

  /** A handle is opened once, and a finished stream answers nothing more. */
  function Do(w: World, op: Op): World {
    match op
    case Open(id, prompt, need, refusal) =>
      if id in w.streams then w
      else
        var stage := if refusal.Some? then Done else Opened(w);
        var w' := w.(streams := w.streams[id := Stream(prompt, need, stage)]);
        if refusal.Some? then w'.(log := w.log + [StreamSaw(id, prompt, Raised(refusal.value))]) else w'
    case Advance(id, p, refusal, t) =>
      if id !in w.streams || w.streams[id].stage == Done then w
      else
        var s := w.streams[id];
        var (flags, stage, seen) := Next(w.flags, s.stage, s.need, w.target, p, refusal, t);
        w.(flags := flags, streams := w.streams[id := s.(stage := stage)],
           log := w.log + [StreamSaw(id, s.prompt, seen)])
    case Ask(prompt, need, p, t) =>
      if !w.fallback then
        w.(log := w.log + [CallSaw(prompt, FallbackState.WholeOf(Primary, p))])
      else
        var (flags, whole) := Complete(w.flags, need, w.target, p, t);
        w.(flags := flags, log := w.log + [CallSaw(prompt, whole)])
  }

  function DoAll(w: World, ops: seq<Op>): World
    decreases |ops|
  {
    if ops == [] then w else DoAll(Do(w, ops[0]), ops[1..])
  }

  function Start(fallback: bool, target: Support): World {
    World(fallback, target, FRESH, map[], [])
  }

  // ------------------------------------------------------------------ reading the log

  /** The provider that answered, when one did: a chunk, an end without error, a whole result. */
  function By(h: Happening): Option<Provider> {
    match h
    case StreamSaw(_, _, Chunked(from, _)) => Some(from)
    case StreamSaw(_, _, Finished(last)) => Some(last)
    case StreamSaw(_, _, Raised(_)) => None
    case CallSaw(_, Answered(from, _, _)) => Some(from)
    case CallSaw(_, Refused(_)) => None
  }

  /** The target answered something. */
  predicate TargetAnswered(log: seq<Happening>) {
    exists i :: 0 <= i < |log| && By(log[i]) == Some(Target)
  }

  predicate Delivers(h: Happening) {
    (h.StreamSaw? && h.seen.Chunked?) || (h.CallSaw? && h.whole.Answered?)
  }

  /** The primary delivered a chunk or a whole result. */
  predicate PrimaryDelivered(log: seq<Happening>) {
    exists i :: 0 <= i < |log| && Delivers(log[i]) && By(log[i]) == Some(Primary)
  }

  /** Entry `i` is a chunk of stream `id` from `from`. */
  predicate ChunkFrom(log: seq<Happening>, i: nat, id: nat, from: Provider) {
    i < |log| && log[i].StreamSaw? && log[i].id == id && log[i].seen.Chunked? && log[i].seen.from == from
  }

  ghost predicate HasChunk(log: seq<Happening>, id: nat, from: Provider) {
    exists i :: ChunkFrom(log, i, id, from)
  }

  /** What the meter sits on: the chunks and results that reached the agent, whoever served them. */
  function Deliveries(log: seq<Happening>): seq<Delivery> {
    if log == [] then []
    else
      var before := Deliveries(log[..|log| - 1]);
      match log[|log| - 1]
      case StreamSaw(id, prompt, Chunked(_, chunk)) => before + [Part(id, prompt, chunk)]
      case CallSaw(prompt, Answered(_, pt, ct)) => before + [Delivery.Whole(prompt, pt, ct)]
      case _ => before
  }
}
