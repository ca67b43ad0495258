/** One single-agent turn: `_begin_turn`'s slot, the pull loop `_metered`, what it persists, and the
    capture in its `finally`; src/app/agents/orchestrator.py. What the producer, the consumer, the
    deadline and the stores do is input, so a theorem about every script is about every run. */
module Turn {
  import opened Wrappers
  import opened Text
  import opened Metering
  import opened Fallback
  import opened Billing

  // ------------------------------------------------------------------ payloads

  datatype Json =
    | JNull
    | JText(text: string)
    | JNumber(n: int)
    | JList(items: seq<Json>)
    | JObject(fields: map<string, Json>)
    | JOther(kind: string)

  type Data = map<string, Json>

  datatype Event = Event(kind: string, data: Data)

  const PENDING_KEY := "pending_clarification"
  const FALLBACK_KEY := "fallback"
  const MARKER_GAP := "\n\n"
  const MARKER_AR := "⚠️ انقطعت الإجابةُ قبل اكتمالها."
  const MARKER_EN := "⚠️ This answer was cut off before it finished."

  /** `data.get(key)`: an absent key and a null read the same. */
  function Get(data: Data, key: string): Json {
    if key in data then data[key] else JNull
  }

  /** The strings of a list that are not blank, in order, duplicates kept. */
  function TextItems(items: seq<Json>): seq<string> {
    if items == [] then []
    else (if items[0].JText? && !Blank(items[0].text) then [items[0].text] else [])
         + TextItems(items[1..])
  }

  /** `_pending_options`. */
  function PendingOptions(raw: Json): seq<string> {
    if raw.JList? then TextItems(raw.items) else []
  }

  /** `_file_refs`. */
  function FileRefs(data: Data): seq<string> {
    var raw := Get(data, "attachments");
    var refs := if raw.JList? then TextItems(raw.items) else [];
    var id := Get(data, "file_id");
    if refs != [] then refs
    else if id.JText? && !Blank(id.text) then [id.text]
    else []
  }

  /** `_turn_content`; `dump` is the payload serialised as JSON. */
  function TurnContent(data: Data, dump: string): (string, seq<string>) {
    var raw := Get(data, "text");
    var refs := FileRefs(data);
    if raw.JText? && !Blank(raw.text) then (raw.text, refs)
    else if refs != [] then ("", refs)
    else (dump, refs)
  }

  predicate HasArabic(text: string) {
    exists i :: 0 <= i < |text| && '\U{600}' <= text[i] <= '\U{6FF}'
  }

  /** `_mark_incomplete`. */
  function MarkIncomplete(text: string): string {
    text + MARKER_GAP + (if HasArabic(text) then MARKER_AR else MARKER_EN)
  }

  /** `_with_fallback_notice`. */
  function WithNotice(text: string, switched: bool, notice: string): string {
    if !switched then text
    else if Blank(text) then notice
    else notice + MARKER_GAP + text
  }

  // ------------------------------------------------------------------ a turn and its surroundings

  /** The seams that are wired, the deadline, and what the pre-flight resolved. `pair` is the
      from/to object of the fallback. */
  datatype Config = Config(threads: bool, seams: Seams, capped: bool,
                           route: Route, targetRoute: Route, notice: string, pair: Json)

  datatype Message = Message(id: string, text: string, attachments: seq<string>)

  /** One attempt to write an assistant message; `ok` says that the store has it, `partial` marks the
      cut-off kind, and `finals` counts the final events processed by then, so that the reply to the
      k-th one has number k. */
  datatype Append = Append(partial: bool, body: string, switched: bool, text: string,
                           attachments: seq<string>, tokens: Option<int>, ok: bool, finals: nat)

  /** What the reader receives. An agent frame remembers the event it was made from, whether the turn
      had switched when it went out, and how many final events had been processed. */
  datatype Frame =
    | NoticeFrame(detail: string, pair: Json)
    | AgentFrame(event: Event, raw: Event, switched: bool, finals: nat)
    | TimeoutFrame

  /** The turn record and the locals of `_metered`, with what was written where. `settles` lists
      what the turn began to record as outstanding, `finals` the final events processed, and `cut`
      says that a cancelled await is unwinding the turn. */
  datatype State = State(
    world: World, streamed: seq<string>, terminal: bool, message: Option<Message>,
    pending: seq<string>, stored: seq<string>,
    appends: seq<Append>, frames: seq<Frame>, settles: seq<seq<string>>, finals: seq<Event>,
    cut: bool)

  /** How one pull on the producer ends. `Crashed` is any Exception but a timeout; `Cancelled` is
      cancellation, which no handler catches. */
  datatype Pulled = Exhausted | TimedOut | Crashed | Cancelled | Yields(event: Event)

  /** One turn of the pull loop: the model calls the agent makes before it yields, what the pull
      gives, how awaiting the stores ends, and whether the reader walks away at one of the frames. */
  datatype Tick = Tick(ops: seq<Op>, pull: Pulled, append: Awaited<string>, put: Awaited<()>,
                       dump: string, leaveAtNotice: bool, leaveAtEvent: bool)

  /** The `finally`: how awaiting the stores ends there, and whether the pricing table has the
      model. */
  datatype Final = Final(append: Awaited<string>, put: Awaited<()>, priced: bool)

  /** How the loop ends: of itself, by an exception, or by a cancellation or a closed generator. */
  datatype Ending = Ran | Threw | Left

  datatype Step = Going(state: State) | Stopped(state: State, how: Ending)

  // ------------------------------------------------------------------ persistence

  function Calls(w: World): seq<Call> {
    Run(Deliveries(w.log)).calls
  }

  /** `completion or None`. */
  function TokenCount(w: World): Option<int> {
    var n := CompletionSum(Calls(w));
    if n == 0 then None else Some(n)
  }

  /** Settling a turn writes to the stores; it neither calls a model nor sends anything. */
  predicate OnlyStores(s: State, r: State) {
    r.world == s.world && r.frames == s.frames && r.terminal == s.terminal && r.streamed == s.streamed
    && r.pending == s.pending && r.finals == s.finals
  }

  /** One append: the turn knows of the message when the store reports it. */
  function Write(cfg: Config, s: State, partial: bool, body: string, attachments: seq<string>,
                 answer: Awaited<string>): (r: State)
    ensures OnlyStores(s, r) && r.settles == s.settles && r.stored == s.stored
    ensures r.cut == (s.cut || answer.Cut?)
  {
    var switched := s.world.flags.switched;
    var headed := WithNotice(body, switched, cfg.notice);
    var text := if partial then MarkIncomplete(headed) else headed;
    s.(appends := s.appends + [Append(partial, body, switched, text, attachments,
                                      TokenCount(s.world), answer.TakesEffect(), |s.finals|)],
       message := if answer.Took? then Some(Message(answer.value, text, attachments)) else s.message,
       cut := s.cut || answer.Cut?)
  }

  /** A cut has something to keep and nothing was kept yet. */
  predicate KeepsText(cfg: Config, s: State) {
    cfg.threads && s.message.None? && !Blank(Concat(s.streamed))
  }

  /** `_persist_partial`. */
  function PersistPartial(cfg: Config, s: State, answer: Awaited<string>): (r: State)
    ensures OnlyStores(s, r) && r.settles == s.settles && r.stored == s.stored
    ensures r.cut == (s.cut || (KeepsText(cfg, s) && answer.Cut?))
  {
    if KeepsText(cfg, s) then Write(cfg, s, true, Concat(s.streamed), [], answer) else s
  }

  /** `_write_pending`: skipped when nothing changed since the pre-flight read. */
  function WritePending(cfg: Config, s: State, options: seq<string>, answer: Awaited<()>): (r: State)
    ensures OnlyStores(s, r) && r.appends == s.appends && r.message == s.message
    ensures r.settles == s.settles + [options]
  {
    var s' := s.(settles := s.settles + [options]);
    if !cfg.threads || options == s.pending then s'
    else
      s'.(stored := if answer.TakesEffect() then options else s.stored, cut := s.cut || answer.Cut?)
  }

  /** `_settle_cut`: a cancelled append leaves the question as it is. */
  function SettleCut(cfg: Config, s: State, append: Awaited<string>, put: Awaited<()>): (r: State)
    ensures OnlyStores(s, r)
  {
    var kept := PersistPartial(cfg, s, append);
    if kept.cut then kept else WritePending(cfg, kept, [], put)
  }

  /** The event half of `_settle_clarification`: the key is dropped unless it reads as null. */
  function StripPending(event: Event): Event {
    if Get(event.data, PENDING_KEY) == JNull then event
    else Event(event.kind, event.data - {PENDING_KEY})
  }

  /** The enrichment `_persist_reply` adds once the message is stored. */
  function Enrich(event: Event, m: Message, prompt: int, completion: int): Event {
    Event(event.kind, event.data + map[
      "message_id" := JText(m.id),
      "content" := JObject(map["text" := JText(m.text),
                               "attachments" := JList(Texts(m.attachments))]),
      "usage" := JObject(map["prompt_tokens" := JNumber(prompt),
                             "completion_tokens" := JNumber(completion)])])
  }

  function Texts(items: seq<string>): seq<Json> {
    seq(|items|, i requires 0 <= i < |items| => JText(items[i]))
  }

  /** `_persist_reply`. */
  function PersistReply(cfg: Config, s: State, event: Event, answer: Awaited<string>, dump: string)
    : (r: (State, Event))
    ensures OnlyStores(s, r.0) && r.0.settles == s.settles && r.0.stored == s.stored
  {
    if !cfg.threads then (s, event)
    else
      var (text, attachments) := TurnContent(event.data, dump);
      var s' := Write(cfg, s, false, text, attachments, answer);
      if !answer.Took? then (s', event)
      else (s', Enrich(event, s'.message.value, PromptSum(Calls(s.world)), CompletionSum(Calls(s.world))))
  }

  // ------------------------------------------------------------------ the pull loop

  function OnToken(s: State, event: Event): State {
    var delta := Get(event.data, "delta");
    if event.kind == "token" && delta.JText? then s.(streamed := s.streamed + [delta.text]) else s
  }

  /** `_due_notice`: once, as soon as the local model has answered. */
  predicate NoticeDue(w: World) {
    w.fallback && w.flags.switched && !w.flags.announced
  }

  function Announce(cfg: Config, s: State): State {
    s.(world := s.world.(flags := s.world.flags.(announced := true)),
       frames := s.frames + [NoticeFrame(cfg.notice, cfg.pair)])
  }

  function Paired(cfg: Config, s: State, event: Event): Event {
    if s.world.fallback && s.world.flags.switched
    then Event(event.kind, event.data[FALLBACK_KEY := cfg.pair]) else event
  }

  /** Lines 1960-1973: the final event, with the fallback pair, without the pending key, stored. */
  function OnFinal(cfg: Config, s: State, event: Event, t: Tick): (r: (State, Event))
    ensures OnlyStores(s.(terminal := true, finals := s.finals + [event]), r.0)
  {
    var paired := Paired(cfg, s, event);
    var settled := WritePending(cfg, s.(terminal := true, finals := s.finals + [event]),
                                PendingOptions(Get(paired.data, PENDING_KEY)), t.put);
    if settled.cut then (settled, paired)
    else PersistReply(cfg, settled, StripPending(paired), t.append, t.dump)
  }

  /** Lines 1938-1956: a token is kept, an error settles the turn before it goes out. */
  function Receive(cfg: Config, s: State, event: Event, t: Tick): (r: State)
    ensures r.world == s.world && r.frames == s.frames && r.finals == s.finals
    ensures r.terminal == (s.terminal || event.kind == "error") && r.pending == s.pending
  {
    var s1 := OnToken(s, event);
    if event.kind == "error" then SettleCut(cfg, s1.(terminal := true), t.append, t.put) else s1
  }

  /** Lines 1960-1974: a final event is closed first; every event goes out, unless a cancelled await
      took the turn away. */
  function Send(cfg: Config, s: State, event: Event, t: Tick): (r: State)
    ensures r.world == s.world && r.pending == s.pending
    ensures r.terminal == (s.terminal || event.kind == "final")
  {
    var (s', sent) := if event.kind == "final" then OnFinal(cfg, s, event, t) else (s, event);
    if s'.cut then s'
    else s'.(frames := s'.frames + [AgentFrame(sent, event, s'.world.flags.switched, |s'.finals|)])
  }

  /** Everything between two pulls, for a pull that gave an event. */
  function OnEvent(cfg: Config, s: State, event: Event, t: Tick): Step {
    var received := Receive(cfg, s, event, t);
    if received.cut then Stopped(received, Left)
    else
      var due := NoticeDue(received.world);
      var told := if due then Announce(cfg, received) else received;
      if due && t.leaveAtNotice then Stopped(told, Left)
      else
        var sent := Send(cfg, told, event, t);
        if sent.cut || t.leaveAtEvent then Stopped(sent, Left) else Going(sent)
  }

  function OnTick(cfg: Config, s: State, t: Tick): Step {
    var s0 := s.(world := DoAll(s.world, t.ops));
    match t.pull
    case Exhausted => Stopped(s0, Ran)
    case TimedOut =>
      if !cfg.capped then Stopped(s0, Threw)
      else
        var s1 := SettleCut(cfg, s0.(terminal := true), t.append, t.put);
        if s1.cut then Stopped(s1, Left)
        else Stopped(s1.(frames := s1.frames + [TimeoutFrame]), if t.leaveAtEvent then Left else Ran)
    case Crashed =>
      var s1 := SettleCut(cfg, s0, t.append, t.put);
      Stopped(s1, if s1.cut then Left else Threw)
    case Cancelled => Stopped(s0, Left)
    case Yields(event) => OnEvent(cfg, s0, event, t)
  }

  /** The whole loop; a script that runs out is a producer that has ended. */
  function Drive(cfg: Config, s: State, script: seq<Tick>): (r: Step)
    ensures r.Stopped?
    decreases |script|
  {
    if script == [] then Stopped(s, Ran)
    else
      var step := OnTick(cfg, s, script[0]);
      if step.Stopped? then step else Drive(cfg, step.state, script[1..])
  }

  /** The abandonment net of the `finally`. Afterwards `cut` says that the `finally` itself was
      cancelled, before it could bill. */
  function Net(cfg: Config, s: State, fin: Final): State {
    if s.terminal then s.(cut := false) else SettleCut(cfg, s.(cut := false), fin.append, fin.put)
  }

  // ------------------------------------------------------------------ billing

  /** `_Fallback.billed`, or the route of the pre-flight. */
  function BilledRoute(cfg: Config, w: World): Route {
    if w.fallback && w.flags.switched && !w.flags.primaryServed then cfg.targetRoute else cfg.route
  }

  /** What a turn that was pulled owes the usage ports when it ends: `end` is where its loop ended. */
  function Bill(cfg: Config, end: State, slot: Option<nat>, fin: Final): seq<LedgerCall> {
    if Net(cfg, end, fin).cut then []
    else Capture(cfg.seams, BilledRoute(cfg, end.world), Calls(end.world), slot, fin.priced)
  }

  // ------------------------------------------------------------------ the objects

  /** The generator `_metered` with its turn record, and the stores it writes to. */
  class TurnRun {
    const cfg: Config
    const slot: Option<nat>
    const ports: UsagePorts
    var world: World
    var streamed: seq<string>
    var terminal: bool
    var message: Option<Message>
    const pending: seq<string>
    var stored: seq<string>
    var appends: seq<Append>
    var frames: seq<Frame>
    var finals: seq<Event>
    ghost var settles: seq<seq<string>>
    var cut: bool

    constructor (cfg: Config, slot: Option<nat>, ports: UsagePorts, fallback: bool, target: Support,
                 stored: seq<string>)
      ensures this.cfg == cfg && this.slot == slot && this.ports == ports
      ensures Snapshot() == Begin(fallback, target, stored)
    {
      this.cfg, this.slot, this.ports := cfg, slot, ports;
      world := Start(fallback, target);
      streamed, terminal, message, cut := [], false, None, false;
      pending, this.stored := stored, stored;
      appends, frames, settles, finals := [], [], [], [];
    }

    ghost function Snapshot(): State
      reads this
    {
      State(world, streamed, terminal, message, pending, stored, appends, frames, settles, finals, cut)
    }

    method WriteMessage(partial: bool, body: string, attachments: seq<string>, answer: Awaited<string>)
      modifies this
      ensures Snapshot() == Write(cfg, old(Snapshot()), partial, body, attachments, answer)
    {
      var switched := world.flags.switched;
      var headed := WithNotice(body, switched, cfg.notice);
      var text := if partial then MarkIncomplete(headed) else headed;
      appends := appends + [Append(partial, body, switched, text, attachments,
                                   TokenCount(world), answer.TakesEffect(), |finals|)];
      match answer {
        case Took(id) => message := Some(Message(id, text, attachments));
        case Missed(_) =>
        case Cut(_) => cut := true;
      }
    }

    method PersistPartialReply(answer: Awaited<string>)
      modifies this
      ensures Snapshot() == PersistPartial(cfg, old(Snapshot()), answer)
    {
      if message.Some? {
        return;
      }
      var text := Concat(streamed);
      if Blank(text) || !cfg.threads {
        return;
      }
      WriteMessage(true, text, [], answer);
    }

    method WriteOutstanding(options: seq<string>, answer: Awaited<()>)
      modifies this
      ensures Snapshot() == WritePending(cfg, old(Snapshot()), options, answer)
    {
      settles := settles + [options];
      if !cfg.threads || options == pending {
        return;
      }
      if answer.TakesEffect() {
        stored := options;
      }
      if answer.Cut? {
        cut := true;
      }
    }

    method SettleCutTurn(append: Awaited<string>, put: Awaited<()>)
      modifies this
      ensures Snapshot() == SettleCut(cfg, old(Snapshot()), append, put)
    {
      PersistPartialReply(append);
      if !cut {
        WriteOutstanding([], put);
      }
    }

    method StoreReply(event: Event, answer: Awaited<string>, dump: string) returns (sent: Event)
      modifies this
      ensures (Snapshot(), sent) == PersistReply(cfg, old(Snapshot()), event, answer, dump)
    {
      if !cfg.threads {
        return event;
      }
      var (text, attachments) := TurnContent(event.data, dump);
      WriteMessage(false, text, attachments, answer);
      if !answer.Took? {
        return event;
      }
      return Enrich(event, message.value, PromptSum(Calls(world)), CompletionSum(Calls(world)));
    }

    method CloseTurn(event: Event, t: Tick) returns (sent: Event)
      modifies this
      ensures (Snapshot(), sent) == OnFinal(cfg, old(Snapshot()), event, t)
    {
      terminal := true;
      finals := finals + [event];
      var paired := event;
      if world.fallback && world.flags.switched {
        paired := Event(event.kind, event.data[FALLBACK_KEY := cfg.pair]);
      }
      WriteOutstanding(PendingOptions(Get(paired.data, PENDING_KEY)), t.put);
      if cut {
        return paired;
      }
      sent := StoreReply(StripPending(paired), t.append, t.dump);
    }

    method ReceiveEvent(event: Event, t: Tick)
      modifies this
      ensures Snapshot() == Receive(cfg, old(Snapshot()), event, t)
    {
      if event.kind == "token" {
        var delta := Get(event.data, "delta");
        if delta.JText? {
          streamed := streamed + [delta.text];
        }
      }
      if event.kind == "error" {
        terminal := true;
        SettleCutTurn(t.append, t.put);
      }
    }

    method SendEvent(event: Event, t: Tick)
      modifies this
      ensures Snapshot() == Send(cfg, old(Snapshot()), event, t)
    {
      var sent := event;
      if event.kind == "final" {
        sent := CloseTurn(event, t);
      }
      if !cut {
        frames := frames + [AgentFrame(sent, event, world.flags.switched, |finals|)];
      }
    }

    /** One event; the result says whether the reader walked away or the turn was cancelled. */
    method Forward(event: Event, t: Tick) returns (left: bool)
      modifies this
      ensures OnEvent(cfg, old(Snapshot()), event, t)
           == if left then Stopped(Snapshot(), Left) else Going(Snapshot())
    {
      ReceiveEvent(event, t);
      if cut {
        return true;
      }
      if NoticeDue(world) {
        world := world.(flags := world.flags.(announced := true));
        frames := frames + [NoticeFrame(cfg.notice, cfg.pair)];
        if t.leaveAtNotice {
          return true;
        }
      }
      SendEvent(event, t);
      return cut || t.leaveAtEvent;
    }

    /** One turn of the loop; an ending leaves it. */
    method PullOnce(t: Tick) returns (ended: Option<Ending>)
      modifies this
      ensures OnTick(cfg, old(Snapshot()), t)
           == if ended.Some? then Stopped(Snapshot(), ended.value) else Going(Snapshot())
    {
      world := DoAll(world, t.ops);
      match t.pull {
        case Exhausted =>
          return Some(Ran);
        case TimedOut =>
          if !cfg.capped {
            return Some(Threw);
          }
          terminal := true;
          SettleCutTurn(t.append, t.put);
          if cut {
            return Some(Left);
          }
          frames := frames + [TimeoutFrame];
          return Some(if t.leaveAtEvent then Left else Ran);
        case Crashed =>
          SettleCutTurn(t.append, t.put);
          return Some(if cut then Left else Threw);
        case Cancelled =>
          return Some(Left);
        case Yields(event) =>
          var left := Forward(event, t);
          return if left then Some(Left) else None;
      }
    }

    method PullAll(script: seq<Tick>) returns (how: Ending)
      modifies this
      ensures Drive(cfg, old(Snapshot()), script) == Stopped(Snapshot(), how)
    {
      for i := 0 to |script|
        invariant Drive(cfg, old(Snapshot()), script) == Drive(cfg, Snapshot(), script[i..])
      {
        assert script[i..][0] == script[i] && script[i..][1..] == script[i + 1..];
        var ended := PullOnce(script[i]);
        if ended.Some? {
          return ended.value;
        }
      }
      return Ran;
    }

    /** `_metered`, from the first pull to the end of its `finally`. */
    method Metered(script: seq<Tick>, fin: Final) returns (how: Ending)
      modifies this, ports
      ensures var step := Drive(cfg, old(Snapshot()), script);
        how == step.how && Snapshot() == Net(cfg, step.state, fin)
        && ports.calls == old(ports.calls) + Bill(cfg, step.state, slot, fin)
    {
      how := PullAll(script);
      cut := false;
      if !terminal {
        SettleCutTurn(fin.append, fin.put);
      }
      if !cut {
        ports.Attempt(Capture(cfg.seams, BilledRoute(cfg, world), Calls(world), slot, fin.priced));
      }
    }
  }

  /** A turn about to be pulled for the first time: `stored` is what the pre-flight read. */
  function Begin(fallback: bool, target: Support, stored: seq<string>): State {
    State(Start(fallback, target), [], false, None, stored, stored, [], [], [], [], false)
  }

  /** The state a whole turn ends in. */
  function Finish(cfg: Config, s: State, script: seq<Tick>, fin: Final): State {
    Net(cfg, Drive(cfg, s, script).state, fin)
  }
}
