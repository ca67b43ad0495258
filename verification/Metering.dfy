/** Eager token metering: `_CallMeter`, `_TokenMeter` and `_MeteredLLM` of
    src/app/agents/orchestrator.py. */
module Metering {
  import opened Wrappers
  import opened Text

  const CHARS_PER_TOKEN := 4

  /** `_estimate_tokens`: never zero, so an empty call is never free. */
  function Estimate(text: string): (n: nat)
    ensures n >= 1
  {
    if |text| / CHARS_PER_TOKEN > 1 then |text| / CHARS_PER_TOKEN else 1
  }

  /** The usage of one provider call, as `_CallMeter` keeps it. */
  datatype Call = Call(prompt: string, parts: seq<string>, promptTokens: Option<int>,
                       completionTokens: Option<int>)
  {
    predicate Measured() {
      promptTokens.Some? && completionTokens.Some?
    }

    function PromptTotal(): int {
      if promptTokens.Some? then promptTokens.value else Estimate(prompt)
    }

    function CompletionTotal(): int {
      if completionTokens.Some? then completionTokens.value else Estimate(Concat(parts))
    }
  }

  function PromptSum(calls: seq<Call>): int {
    if calls == [] then 0 else calls[0].PromptTotal() + PromptSum(calls[1..])
  }

  function CompletionSum(calls: seq<Call>): int {
    if calls == [] then 0 else calls[0].CompletionTotal() + CompletionSum(calls[1..])
  }

  predicate Estimated(calls: seq<Call>) {
    exists i :: 0 <= i < |calls| && !calls[i].Measured()
  }

  /** One `LlmChunk`; `finished` is `finish_reason is not None`. */
  datatype Chunk = Chunk(delta: string, finished: bool, promptTokens: Option<int>,
                         completionTokens: Option<int>)

  /** What a chunk does to the call it belongs to. */
  function Add(call: Call, chunk: Chunk): Call {
    var grown := if chunk.delta != "" then call.(parts := call.parts + [chunk.delta]) else call;
    if chunk.finished then
      grown.(promptTokens := chunk.promptTokens, completionTokens := chunk.completionTokens)
    else grown
  }

  /** Something a provider delivered to the agent: a whole result, or one chunk of a stream. */
  datatype Delivery =
    | Whole(prompt: string, promptTokens: int, completionTokens: int)
    | Part(stream: nat, prompt: string, chunk: Chunk)

  /** The calls metered so far, and which of them each open stream is charged to. */
  datatype Meter = Meter(calls: seq<Call>, handles: map<nat, nat>)
  {
    predicate Valid() {
      forall id :: id in handles ==> handles[id] < |calls|
    }
  }

  const EMPTY := Meter([], map[])

  function Step(m: Meter, d: Delivery): (r: Meter)
    requires m.Valid()
    ensures r.Valid()
  {
    match d
    case Whole(prompt, p, c) => m.(calls := m.calls + [Call(prompt, [], Some(p), Some(c))])
    case Part(id, prompt, chunk) =>
      if id in m.handles then
        m.(calls := m.calls[m.handles[id] := Add(m.calls[m.handles[id]], chunk)])
      else
        Meter(m.calls + [Add(Call(prompt, [], None, None), chunk)], m.handles[id := |m.calls|])
  }

  function Run(log: seq<Delivery>): (m: Meter)
    ensures m.Valid()
  {
    if log == [] then EMPTY else Step(Run(log[..|log| - 1]), log[|log| - 1])
  }

  // ------------------------------------------------------------------ the objects

  /** `_CallMeter`. */
  class CallMeter {
    const prompt: string
    var parts: seq<string>
    var promptTokens: Option<int>
    var completionTokens: Option<int>

    constructor (prompt: string)
      ensures Snapshot() == Call(prompt, [], None, None)
    {
      this.prompt := prompt;
      parts, promptTokens, completionTokens := [], None, None;
    }

    function Snapshot(): Call
      reads this
    {
      Call(prompt, parts, promptTokens, completionTokens)
    }
  }

  /** `_TokenMeter`: every total is computed from the live calls, whenever it is asked for. */
  class TokenMeter {
    var calls: seq<CallMeter>

    constructor ()
      ensures calls == []
    {
      calls := [];
    }

    predicate Valid()
      reads this
    {
      forall i, j :: 0 <= i < j < |calls| ==> calls[i] != calls[j]
    }

    function Snapshot(): (s: seq<Call>)
      reads this, calls
      ensures |s| == |calls| && forall i :: 0 <= i < |s| ==> s[i] == calls[i].Snapshot()
    {
      seq(|calls|, i requires 0 <= i < |calls| reads this, calls => calls[i].Snapshot())
    }

    method Begin(prompt: string) returns (call: CallMeter)
      requires Valid()
      modifies this
      ensures Valid() && fresh(call) && calls == old(calls) + [call]
      ensures Snapshot() == old(Snapshot()) + [Call(prompt, [], None, None)]
    {
      call := new CallMeter(prompt);
      calls := calls + [call];
    }

    /** The metering half of `complete`: a whole result counts as measured. */
    method OnResult(prompt: string, promptTokens: int, completionTokens: int)
      requires Valid()
      modifies this
      ensures Valid()
      ensures Snapshot()
           == old(Snapshot()) + [Call(prompt, [], Some(promptTokens), Some(completionTokens))]
    {
      var call := Begin(prompt);
      call.promptTokens := Some(promptTokens);
      call.completionTokens := Some(completionTokens);
    }

    method Totals() returns (prompt: int, completion: int, estimated: bool)
      ensures prompt == PromptSum(Snapshot()) && completion == CompletionSum(Snapshot())
      ensures estimated == Estimated(Snapshot())
    {
      prompt, completion, estimated := 0, 0, false;
      ghost var all := Snapshot();
      for i := 0 to |calls|
        invariant prompt + PromptSum(all[i..]) == PromptSum(all)
        invariant completion + CompletionSum(all[i..]) == CompletionSum(all)
        invariant estimated == Estimated(all[..i])
      {
        var call := calls[i].Snapshot();
        assert all[i..][0] == call && all[i..][1..] == all[i + 1..];
        assert Estimated(all[..i + 1]) == (Estimated(all[..i]) || !call.Measured()) by {
          assert all[..i + 1] == all[..i] + [call];
          if !call.Measured() {
            assert !all[..i + 1][i].Measured();
          }
          forall k | 0 <= k < i ensures all[..i + 1][k] == all[..i][k] {
          }
        }
        prompt := prompt + call.PromptTotal();
        completion := completion + call.CompletionTotal();
        estimated := estimated || !call.Measured();
      }
      assert all[..|calls|] == all;
    }
  }

  /** The generator `_metered_stream`: it registers its call on the first chunk, not before. */
  class MeteredStream {
    const meter: TokenMeter
    const prompt: string
    var call: CallMeter?

    constructor (meter: TokenMeter, prompt: string)
      ensures this.meter == meter && this.prompt == prompt && call == null
    {
      this.meter := meter;
      this.prompt := prompt;
      call := null;
    }

    method OnChunk(chunk: Chunk)
      requires meter.Valid() && (call != null ==> call in meter.calls && call.prompt == prompt)
      modifies this, meter, call
      ensures meter.Valid() && call != null && call in meter.calls && call.prompt == prompt
      ensures old(call) != null ==> call == old(call) && meter.calls == old(meter.calls)
      ensures old(call) != null ==>
        forall k :: 0 <= k < |meter.calls| && meter.calls[k] == call ==>
          meter.Snapshot()
          == old(meter.Snapshot())[k := Add(old(meter.Snapshot())[k], chunk)]
      ensures old(call) == null ==> fresh(call) && meter.calls == old(meter.calls) + [call]
      ensures old(call) == null ==>
        meter.Snapshot() == old(meter.Snapshot()) + [Add(Call(prompt, [], None, None), chunk)]
    {
      var mine := call;
      if mine == null {
        mine := meter.Begin(prompt);
        call := mine;
      }
      if chunk.delta != "" {
        mine.parts := mine.parts + [chunk.delta];
      }
      if chunk.finished {
        mine.promptTokens := chunk.promptTokens;
        mine.completionTokens := chunk.completionTokens;
      }
    }
  }

  // ------------------------------------------------------------------ the reference reading

  /** The chunks of one stream, picked out of any interleaving. */
  function ChunksOf(log: seq<Delivery>, id: nat): seq<Chunk> {
    if log == [] then []
    else
      var last := log[|log| - 1];
      ChunksOf(log[..|log| - 1], id)
      + (if last.Part? && last.stream == id then [last.chunk] else [])
  }

  function Deltas(chunks: seq<Chunk>): seq<string> {
    if chunks == [] then []
    else
      var last := chunks[|chunks| - 1];
      Deltas(chunks[..|chunks| - 1]) + (if last.delta != "" then [last.delta] else [])
  }

  /** The chunk that closed the stream last, if any did. */
  function Closing(chunks: seq<Chunk>): Option<Chunk> {
    if chunks == [] then None
    else if chunks[|chunks| - 1].finished then Some(chunks[|chunks| - 1])
    else Closing(chunks[..|chunks| - 1])
  }

  /** The call a whole stream stands for: its text, and the counters its end reported. */
  function ReadStream(prompt: string, chunks: seq<Chunk>): Call {
    var closing := Closing(chunks);
    Call(prompt, Deltas(chunks),
         if closing.Some? then closing.value.promptTokens else None,
         if closing.Some? then closing.value.completionTokens else None)
  }

  /** Delivery `i` is the first sign of its call. */
  predicate Opens(log: seq<Delivery>, i: nat)
    requires i < |log|
  {
    log[i].Whole?
    || forall j :: 0 <= j < i && log[j].Part? ==> log[j].stream != log[i].stream
  }

  /** The deliveries that open a call, in order. */
  function Openings(log: seq<Delivery>): (r: seq<nat>)
    ensures forall k :: 0 <= k < |r| ==> r[k] < |log|
  {
    if log == [] then []
    else
      var n := |log| - 1;
      var before := Openings(log[..n]);
      if Opens(log, n) then before + [n] else before
  }

  function CallAt(log: seq<Delivery>, i: nat): Call
    requires i < |log|
  {
    match log[i]
    case Whole(prompt, p, c) => Call(prompt, [], Some(p), Some(c))
    case Part(id, prompt, _) => ReadStream(prompt, ChunksOf(log, id))
  }

  /** What the deliveries say was consumed: one call per opening, read from the whole log. */
  function Consumed(log: seq<Delivery>): (r: seq<Call>)
    ensures |r| == |Openings(log)|
    ensures forall k :: 0 <= k < |r| ==> r[k] == CallAt(log, Openings(log)[k])
  {
    var opens := Openings(log);
    seq(|opens|, k requires 0 <= k < |opens| => CallAt(log, opens[k]))
  }

  predicate PartOf(log: seq<Delivery>, i: nat, id: nat) {
    i < |log| && log[i].Part? && log[i].stream == id
  }

  /** Every stream seen so far is charged to the call its first chunk opened, and to no other. */
  ghost predicate HandlesAgree(log: seq<Delivery>, handles: map<nat, nat>) {
    var opens := Openings(log);
    && (forall id :: id in handles ==> handles[id] < |opens| && PartOf(log, opens[handles[id]], id))
    && (forall k, id :: 0 <= k < |opens| && PartOf(log, opens[k], id) ==>
          id in handles && handles[id] == k)
    && (forall i, id :: PartOf(log, i, id) ==> id in handles)
  }

  lemma {:induction false} OpeningsKeep(log: seq<Delivery>, d: Delivery)
    ensures Openings(log + [d])
         == Openings(log) + (if Opens(log + [d], |log|) then [|log|] else [])
  {
    assert (log + [d])[..|log|] == log;
  }

  lemma ReadStreamGrows(prompt: string, chunks: seq<Chunk>, chunk: Chunk)
    ensures ReadStream(prompt, chunks + [chunk]) == Add(ReadStream(prompt, chunks), chunk)
  {
    assert (chunks + [chunk])[..|chunks|] == chunks;
  }

  lemma CallAtGrows(log: seq<Delivery>, d: Delivery, i: nat)
    requires i < |log|
    ensures CallAt(log + [d], i)
         == if d.Part? && log[i].Part? && log[i].stream == d.stream then Add(CallAt(log, i), d.chunk)
            else CallAt(log, i)
  {
    assert (log + [d])[..|log|] == log;
    if log[i].Part? {
      ReadStreamGrows(log[i].prompt, ChunksOf(log, log[i].stream), Chunk("", false, None, None));
      assert ChunksOf(log, log[i].stream) + [] == ChunksOf(log, log[i].stream);
      if d.Part? {
        ReadStreamGrows(log[i].prompt, ChunksOf(log, log[i].stream), d.chunk);
      }
    }
  }

  lemma {:induction false} NoChunksYet(log: seq<Delivery>, id: nat)
    requires forall i :: 0 <= i < |log| && log[i].Part? ==> log[i].stream != id
    ensures ChunksOf(log, id) == []
  {
    if log != [] {
      NoChunksYet(log[..|log| - 1], id);
    }
  }

  /** A later delivery changes what is read at `i` only if it belongs to the same stream. */
  lemma OthersKeep(log: seq<Delivery>, d: Delivery, opens: seq<nat>)
    requires forall k :: 0 <= k < |opens| ==> opens[k] < |log|
    ensures forall k :: 0 <= k < |opens| ==>
      CallAt(log + [d], opens[k])
      == if d.Part? && PartOf(log, opens[k], d.stream) then Add(CallAt(log, opens[k]), d.chunk)
         else CallAt(log, opens[k])
  {
    forall k | 0 <= k < |opens| {
      CallAtGrows(log, d, opens[k]);
    }
  }

  lemma PartOfKeeps(log: seq<Delivery>, d: Delivery)
    ensures forall i: nat, id :: i < |log| ==> PartOf(log + [d], i, id) == PartOf(log, i, id)
    ensures forall id :: PartOf(log + [d], |log|, id) <==> d.Part? && d.stream == id
  {
  }

  lemma StepWhole(log: seq<Delivery>, d: Delivery, handles: map<nat, nat>)
    requires HandlesAgree(log, handles) && d.Whole?
    ensures HandlesAgree(log + [d], handles)
    ensures Consumed(log + [d])
         == Consumed(log) + [Call(d.prompt, [], Some(d.promptTokens), Some(d.completionTokens))]
  {
    OpeningsKeep(log, d);
    OthersKeep(log, d, Openings(log));
    PartOfKeeps(log, d);
  }

  lemma KnownStreamOpensNothing(log: seq<Delivery>, d: Delivery, handles: map<nat, nat>)
    requires HandlesAgree(log, handles) && d.Part? && d.stream in handles
    ensures Openings(log + [d]) == Openings(log)
    ensures HandlesAgree(log + [d], handles)
  {
    var first := Openings(log)[handles[d.stream]];
    assert (log + [d])[first].stream == d.stream;
    assert !Opens(log + [d], |log|);
    OpeningsKeep(log, d);
    PartOfKeeps(log, d);
  }

  lemma StepKnown(log: seq<Delivery>, d: Delivery, handles: map<nat, nat>)
    requires HandlesAgree(log, handles) && d.Part? && d.stream in handles
    ensures HandlesAgree(log + [d], handles)
    ensures var k := handles[d.stream];
      Consumed(log + [d]) == Consumed(log)[k := Add(Consumed(log)[k], d.chunk)]
  {
    KnownStreamOpensNothing(log, d, handles);
    OthersKeep(log, d, Openings(log));
  }

  lemma NewStreamOpens(log: seq<Delivery>, d: Delivery, handles: map<nat, nat>)
    requires HandlesAgree(log, handles) && d.Part? && d.stream !in handles
    ensures Openings(log + [d]) == Openings(log) + [|log|]
    ensures CallAt(log + [d], |log|) == Add(Call(d.prompt, [], None, None), d.chunk)
    ensures forall i :: 0 <= i < |log| ==> !PartOf(log, i, d.stream)
  {
    forall i | 0 <= i < |log| && log[i].Part? ensures log[i].stream != d.stream {
      assert PartOf(log, i, log[i].stream);
    }
    OpeningsKeep(log, d);
    NoChunksYet(log, d.stream);
    assert (log + [d])[..|log|] == log;
    assert ChunksOf(log + [d], d.stream) == [] + [d.chunk];
    ReadStreamGrows(d.prompt, [], d.chunk);
  }

  lemma StepNew(log: seq<Delivery>, d: Delivery, handles: map<nat, nat>)
    requires HandlesAgree(log, handles) && d.Part? && d.stream !in handles
    ensures HandlesAgree(log + [d], handles[d.stream := |Consumed(log)|])
    ensures Consumed(log + [d]) == Consumed(log) + [Add(Call(d.prompt, [], None, None), d.chunk)]
  {
    NewStreamOpens(log, d, handles);
    PartOfKeeps(log, d);
    assert HandlesAgree(log + [d], handles[d.stream := |Consumed(log)|]);
    OthersKeep(log, d, Openings(log));
  }

  /** At every point of every interleaving the live meter holds exactly what was consumed. */
  lemma {:induction false} MeterIsConsumed(log: seq<Delivery>)
    ensures Run(log).calls == Consumed(log)
    ensures HandlesAgree(log, Run(log).handles)
  {
    if log != [] {
      var before, d := log[..|log| - 1], log[|log| - 1];
      assert log == before + [d];
      MeterIsConsumed(before);
      var handles := Run(before).handles;
      if d.Whole? {
        StepWhole(before, d, handles);
      } else if d.stream in handles {
        StepKnown(before, d, handles);
      } else {
        StepNew(before, d, handles);
      }
    }
  }

  /** The streams that have delivered a chunk. */
  function StreamsOf(log: seq<Delivery>): set<nat> {
    set i | 0 <= i < |log| && log[i].Part? :: log[i].stream
  }

  function WholeAnswers(log: seq<Delivery>): nat {
    if log == [] then 0
    else WholeAnswers(log[..|log| - 1]) + (if log[|log| - 1].Whole? then 1 else 0)
  }

  lemma StreamsOfGrows(log: seq<Delivery>, d: Delivery)
    ensures StreamsOf(log + [d]) == StreamsOf(log) + (if d.Part? then {d.stream} else {})
  {
    var more := log + [d];
    assert more[|log|] == d;
    forall id | id in StreamsOf(log) ensures id in StreamsOf(more) {
      var i :| 0 <= i < |log| && log[i].Part? && log[i].stream == id;
      assert more[i] == log[i];
    }
  }

  lemma {:induction false} CallsAreCounted(log: seq<Delivery>)
    ensures Run(log).handles.Keys == StreamsOf(log)
    ensures |Run(log).calls| == WholeAnswers(log) + |StreamsOf(log)|
  {
    if log != [] {
      var before, d := log[..|log| - 1], log[|log| - 1];
      assert log == before + [d];
      CallsAreCounted(before);
      StreamsOfGrows(before, d);
      if d.Part? && d.stream in StreamsOf(before) {
        assert StreamsOf(log) == StreamsOf(before);
      }
    }
  }

  /** The meter holds one call for each whole answer and one for each stream that has delivered, and no
      other: two streams never share a call, and the call of a stream is all of its chunks and none of
      any other's, however many there are and whichever model served them. */
  lemma StreamIsOneCall(log: seq<Delivery>)
    ensures var live := Run(log);
      && |live.calls| == WholeAnswers(log) + |StreamsOf(log)|
      && live.handles.Keys == StreamsOf(log)
      && (forall id :: id in StreamsOf(log) ==>
            && live.handles[id] < |live.calls|
            && live.calls[live.handles[id]]
               == ReadStream(live.calls[live.handles[id]].prompt, ChunksOf(log, id)))
      && (forall id, other :: id in StreamsOf(log) && other in StreamsOf(log) && id != other ==>
            live.handles[id] != live.handles[other])
  {
    hide Run, Consumed, Openings, StreamsOf;
    MeterIsConsumed(log);
    CallsAreCounted(log);
    var live := Run(log);
    forall id | id in live.handles
      ensures live.handles[id] < |live.calls|
      ensures live.calls[live.handles[id]]
           == ReadStream(live.calls[live.handles[id]].prompt, ChunksOf(log, id))
    {
      assert PartOf(log, Openings(log)[live.handles[id]], id);
    }
    forall id, other | id in live.handles && other in live.handles && id != other
      ensures live.handles[id] != live.handles[other]
    {
      assert PartOf(log, Openings(log)[live.handles[id]], id);
      assert PartOf(log, Openings(log)[live.handles[other]], other);
    }
  }
}
