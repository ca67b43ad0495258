/** What a turn keeps however it ends: the reply it stores, and the question it leaves outstanding. */
module TurnProofs {
  import opened Wrappers
  import opened Text
  import opened Metering
  import opened Fallback
  import opened FallbackProofs
  import opened Billing
  import opened Turn

  // ------------------------------------------------------------------ the world

  lemma {:induction false} DriveKeepsWorld(cfg: Config, s: State, script: seq<Tick>)
    requires Keeps(s.world)
    ensures Keeps(Drive(cfg, s, script).state.world)
    ensures Drive(cfg, s, script).state.world.fallback == s.world.fallback
    decreases |script|
  {
    if script != [] {
      RunKeeps(s.world, script[0].ops);
      FallbackNeverChanges(s.world, script[0].ops);
      var step := OnTick(cfg, s, script[0]);
      TickKeepsWorld(cfg, s, script[0]);
      if step.Going? {
        DriveKeepsWorld(cfg, step.state, script[1..]);
      }
    }
  }

  lemma EventKeepsWorld(cfg: Config, s: State, event: Event, t: Tick)
    ensures var w' := OnEvent(cfg, s, event, t).state.world;
      w' == s.world
      || (s.world.fallback && w' == s.world.(flags := s.world.flags.(announced := true)))
  {
  }

  /** A tick changes the world by the agent's calls, and otherwise only marks the notice as given. */
  lemma TickKeepsWorld(cfg: Config, s: State, t: Tick)
    requires Keeps(DoAll(s.world, t.ops))
    ensures Keeps(OnTick(cfg, s, t).state.world)
    ensures OnTick(cfg, s, t).state.world.fallback == DoAll(s.world, t.ops).fallback
  {
    var w, w' := DoAll(s.world, t.ops), OnTick(cfg, s, t).state.world;
    if t.pull.Yields? {
      EventKeepsWorld(cfg, s.(world := w), t.pull.event, t);
    }
    if w' != w {
      AnnouncingKeeps(w);
    }
  }

  lemma AnnouncingKeeps(w: World)
    requires Keeps(w) && w.fallback
    ensures Keeps(w.(flags := w.flags.(announced := true)))
  {
    assert forall id :: Pure(w, id) ==> Pure(w.(flags := w.flags.(announced := true)), id);
  }

  // ------------------------------------------------------------------ reading a tick

  predicate IsTerminal(t: Tick) {
    t.pull.Yields? && t.pull.event.kind in {"final", "error"}
  }

  function Terminals(script: seq<Tick>): nat {
    if script == [] then 0 else (if IsTerminal(script[0]) then 1 else 0) + Terminals(script[1..])
  }

  /** The tick settles the turn as cut: an error event, an exception, or the deadline. */
  predicate Cuts(cfg: Config, t: Tick) {
    t.pull.Crashed? || (t.pull.TimedOut? && cfg.capped) || (t.pull.Yields? && t.pull.event.kind == "error")
  }

  predicate IsFinal(t: Tick) {
    t.pull.Yields? && t.pull.event.kind == "final"
  }

  /** Keeping the text of a cut turn is awaited, and the await is cancelled. */
  predicate KeepingIsCut(cfg: Config, s: State, append: Awaited<string>) {
    KeepsText(cfg, s) && append.Cut?
  }

  /** The reader walks away at the notice, before the final event behind it is processed. */
  predicate LeavesAtNotice(s: State, t: Tick) {
    t.pull.Yields? && NoticeDue(DoAll(s.world, t.ops)) && t.leaveAtNotice
  }

  /** The tick processes a final event. */
  predicate Closes(s: State, t: Tick) {
    IsFinal(t) && !LeavesAtNotice(s, t)
  }

  /** Nothing is settled before a terminal event. */
  predicate Untouched(s: State) {
    s.appends == [] && s.finals == [] && s.settles == [] && !s.terminal
  }

  /** A turn that has just begun. */
  predicate Fresh(s: State) {
    Untouched(s) && !s.cut && s.message.None? && s.stored == s.pending
  }

  /** The fallback pair does not hide what the agent declared. */
  lemma PairKeepsDeclaration(data: Data, pair: Json)
    ensures Get(data[FALLBACK_KEY := pair], PENDING_KEY) == Get(data, PENDING_KEY)
  {
    assert |FALLBACK_KEY| != |PENDING_KEY|;
  }

  lemma PairedDeclares(cfg: Config, s: State, event: Event)
    ensures Get(Paired(cfg, s, event).data, PENDING_KEY) == Get(event.data, PENDING_KEY)
  {
    PairKeepsDeclaration(event.data, cfg.pair);
  }

  // ------------------------------------------------------------------ one reply per turn

  function Stored(appends: seq<Append>): nat {
    if appends == [] then 0
    else Stored(appends[..|appends| - 1]) + (if appends[|appends| - 1].ok then 1 else 0)
  }

  lemma WriteStores(cfg: Config, s: State, partial: bool, body: string, attachments: seq<string>,
                    answer: Awaited<string>)
    ensures Stored(Write(cfg, s, partial, body, attachments, answer).appends)
         == Stored(s.appends) + (if answer.TakesEffect() then 1 else 0)
  {
    var s' := Write(cfg, s, partial, body, attachments, answer);
    assert s'.appends[..|s'.appends| - 1] == s.appends;
  }

  /** The final event of the tick is processed as far as its reply. */
  predicate Replies(cfg: Config, s: State, t: Tick) {
    Closes(s, t) && cfg.threads
    && !(PendingOptions(Get(t.pull.event.data, PENDING_KEY)) != s.pending && t.put.Cut?)
  }

  /** The append that the tick awaits, if it comes to one. */
  function AskedBy(cfg: Config, s: State, t: Tick): seq<Awaited<string>> {
    if (Cuts(cfg, t) && KeepsText(cfg, s)) || Replies(cfg, s, t) then [t.append] else []
  }

  function AskedAtEnd(cfg: Config, s: State, fin: Final): seq<Awaited<string>> {
    if !s.terminal && KeepsText(cfg, s) then [fin.append] else []
  }

  /** Every append that a whole run awaits, read off its script tick by tick. */
  function Asked(cfg: Config, s: State, script: seq<Tick>, fin: Final): seq<Awaited<string>>
    decreases |script|
  {
    if script == [] then AskedAtEnd(cfg, s, fin)
    else
      var step := OnTick(cfg, s, script[0]);
      AskedBy(cfg, s, script[0])
      + (if step.Stopped? then AskedAtEnd(cfg, step.state, fin)
         else Asked(cfg, step.state, script[1..], fin))
  }

  /** How many of them the store applies. */
  function Applied(asked: seq<Awaited<string>>): nat {
    if asked == [] then 0 else (if asked[0].TakesEffect() then 1 else 0) + Applied(asked[1..])
  }

  /** What the appends in `asked` did: so many more are stored, and the turn knows of one if it knew of one
      before or one was reported. */
  predicate Kept(s: State, r: State, asked: seq<Awaited<string>>) {
    && Stored(r.appends) == Stored(s.appends) + Applied(asked)
    && (r.message.Some? <==> s.message.Some? || Reported(asked))
  }

  predicate Reported(asked: seq<Awaited<string>>) {
    exists i :: 0 <= i < |asked| && asked[i].Took?
  }

  lemma AppliedOne(a: Awaited<string>)
    ensures Applied([a]) == (if a.TakesEffect() then 1 else 0) && (Reported([a]) <==> a.Took?)
    ensures Applied([]) == 0 && !Reported([])
  {
    assert [a][1..] == [] && [a][0] == a;
  }

  lemma SettleCutKeeps(cfg: Config, s: State, append: Awaited<string>, put: Awaited<()>)
    ensures Kept(s, SettleCut(cfg, s, append, put), if KeepsText(cfg, s) then [append] else [])
  {
    hide Stored, Applied, Reported, MarkIncomplete, WithNotice, TokenCount;
    AppliedOne(append);
    WriteStores(cfg, s, true, Concat(s.streamed), [], append);
  }

  lemma FinalKeeps(cfg: Config, s: State, event: Event, t: Tick)
    requires !s.cut
    ensures var asked := if cfg.threads && !(PendingOptions(Get(event.data, PENDING_KEY)) != s.pending && t.put.Cut?)
                         then [t.append] else [];
      Kept(s, OnFinal(cfg, s, event, t).0, asked)
  {
    hide Stored, Applied, Reported, MarkIncomplete, WithNotice, TokenCount, Paired, TurnContent, Enrich;
    var paired := Paired(cfg, s, event);
    PairedDeclares(cfg, s, event);
    AppliedOne(t.append);
    var settled := WritePending(cfg, s.(terminal := true, finals := s.finals + [event]),
                                PendingOptions(Get(paired.data, PENDING_KEY)), t.put);
    var (text, attachments) := TurnContent(StripPending(paired).data, t.dump);
    WriteStores(cfg, settled, false, text, attachments, t.append);
  }

  lemma SendKeeps(cfg: Config, s: State, event: Event, t: Tick)
    requires !s.cut
    ensures var asked := if event.kind == "final" && cfg.threads
                            && !(PendingOptions(Get(event.data, PENDING_KEY)) != s.pending && t.put.Cut?)
                         then [t.append] else [];
      Kept(s, Send(cfg, s, event, t), asked)
  {
    hide OnFinal, Stored, Applied, Reported;
    AppliedOne(t.append);
    if event.kind == "final" {
      FinalKeeps(cfg, s, event, t);
    }
  }

  lemma EventKeeps(cfg: Config, s: State, event: Event, t: Tick)
    requires !s.cut && t.pull == Yields(event)
    ensures var r := OnEvent(cfg, s, event, t);
      Kept(s, r.state, AskedBy(cfg, s, t.(ops := []))) && (r.Going? ==> !r.state.cut)
  {
    hide SettleCut, Send, Stored, Applied, Reported;
    AppliedOne(t.append);
    if event.kind == "error" {
      assert OnToken(s, event) == s;
      SettleCutKeeps(cfg, s.(terminal := true), t.append, t.put);
    }
    var received := Receive(cfg, s, event, t);
    if !received.cut {
      SendKeeps(cfg, if NoticeDue(received.world) then Announce(cfg, received) else received, event, t);
    }
  }

  lemma EventMarks(cfg: Config, s: State, event: Event, t: Tick)
    requires OnEvent(cfg, s, event, t).Going?
    ensures OnEvent(cfg, s, event, t).state.terminal == (s.terminal || event.kind in {"final", "error"})
  {
    hide Receive, Send;
  }

  lemma TickKeeps(cfg: Config, s: State, t: Tick)
    requires !s.cut
    ensures var r := OnTick(cfg, s, t);
      && Kept(s, r.state, AskedBy(cfg, s, t))
      && (r.Going? ==> !r.state.cut && r.state.terminal == (s.terminal || IsTerminal(t)))
  {
    hide SettleCut, OnEvent, Stored, Applied, Reported;
    var s0 := s.(world := DoAll(s.world, t.ops));
    if t.pull.Yields? {
      EventKeeps(cfg, s0, t.pull.event, t);
      if OnTick(cfg, s, t).Going? {
        EventMarks(cfg, s0, t.pull.event, t);
      }
    } else {
      AppliedOne(t.append);
      SettleCutKeeps(cfg, s0, t.append, t.put);
      SettleCutKeeps(cfg, s0.(terminal := true), t.append, t.put);
    }
  }

  lemma NetKeeps(cfg: Config, s: State, fin: Final)
    ensures Kept(s, Net(cfg, s, fin), AskedAtEnd(cfg, s, fin))
  {
    hide SettleCut, Stored, Applied, Reported;
    AppliedOne(fin.append);
    SettleCutKeeps(cfg, s.(cut := false), fin.append, fin.put);
  }

  lemma {:induction false} AppliedSum(a: seq<Awaited<string>>, b: seq<Awaited<string>>)
    ensures Applied(a + b) == Applied(a) + Applied(b)
    decreases |a|
  {
    if a == [] {
      assert a + b == b;
    } else {
      assert (a + b)[1..] == a[1..] + b;
      AppliedSum(a[1..], b);
    }
  }

  /** The thread gets one message for each append of the run that its store applies, whether or not the
      store gets to say so. */
  lemma {:induction false} MessagesAreApplied(cfg: Config, s: State, script: seq<Tick>, fin: Final)
    requires !s.cut
    ensures Stored(Finish(cfg, s, script, fin).appends) == Stored(s.appends) + Applied(Asked(cfg, s, script, fin))
    decreases |script|
  {
    hide OnTick, Net, AskedBy, AskedAtEnd, Stored, Applied, Reported;
    if script == [] {
      NetKeeps(cfg, s, fin);
    } else {
      TickKeeps(cfg, s, script[0]);
      var step, mine := OnTick(cfg, s, script[0]), AskedBy(cfg, s, script[0]);
      if step.Going? {
        MessagesAreApplied(cfg, step.state, script[1..], fin);
        AppliedSum(mine, Asked(cfg, step.state, script[1..], fin));
      } else {
        NetKeeps(cfg, step.state, fin);
        AppliedSum(mine, AskedAtEnd(cfg, step.state, fin));
      }
    }
  }

  /** A turn that is closed and knows of its message asks for no other. */
  lemma {:induction false} NothingMoreIsAsked(cfg: Config, s: State, script: seq<Tick>, fin: Final)
    requires !s.cut && s.message.Some? && Terminals(script) == 0
    ensures Asked(cfg, s, script, fin) == []
    decreases |script|
  {
    hide OnTick;
    if script != [] {
      TickKeeps(cfg, s, script[0]);
      assert AskedBy(cfg, s, script[0]) == [];
      if OnTick(cfg, s, script[0]).Going? {
        NothingMoreIsAsked(cfg, OnTick(cfg, s, script[0]).state, script[1..], fin);
      }
    }
  }

  /** Nothing is asked for after an append that was reported. */
  predicate ReportedLast(asked: seq<Awaited<string>>) {
    forall i :: 0 <= i < |asked| - 1 ==> !asked[i].Took?
  }

  lemma ReportedLastStep(mine: seq<Awaited<string>>, rest: seq<Awaited<string>>)
    requires |mine| <= 1 && ReportedLast(rest) && (Reported(mine) ==> rest == [])
    ensures ReportedLast(mine + rest)
  {
    if mine != [] {
      assert mine[0].Took? ==> Reported(mine);
    }
  }

  lemma {:induction false} AReportIsLast(cfg: Config, s: State, script: seq<Tick>, fin: Final)
    requires !s.cut && s.message.None? && Terminals(script) + (if s.terminal then 1 else 0) <= 1
    ensures ReportedLast(Asked(cfg, s, script, fin))
    decreases |script|
  {
    hide OnTick, ReportedLast, Reported;
    if script == [] {
      ReportedLastStep(AskedAtEnd(cfg, s, fin), []);
      assert AskedAtEnd(cfg, s, fin) + [] == AskedAtEnd(cfg, s, fin);
    } else {
      var step, mine := OnTick(cfg, s, script[0]), AskedBy(cfg, s, script[0]);
      TickKeeps(cfg, s, script[0]);
      NothingIsLastReported();
      if step.Going? {
        if step.state.message.Some? {
          OnlyTerminalsAsk(cfg, s, script[0]);
          NothingMoreIsAsked(cfg, step.state, script[1..], fin);
        } else {
          AReportIsLast(cfg, step.state, script[1..], fin);
        }
        ReportedLastStep(mine, Asked(cfg, step.state, script[1..], fin));
      } else {
        ReportedLastStep(AskedAtEnd(cfg, step.state, fin), []);
        assert AskedAtEnd(cfg, step.state, fin) + [] == AskedAtEnd(cfg, step.state, fin);
        ReportedLastStep(mine, AskedAtEnd(cfg, step.state, fin));
      }
    }
  }

  lemma NothingIsLastReported()
    ensures ReportedLast([]) && !Reported([])
  {
  }

  /** A tick after which the turn goes on and knows of a message was a terminal event. */
  lemma OnlyTerminalsAsk(cfg: Config, s: State, t: Tick)
    requires !s.cut && s.message.None? && OnTick(cfg, s, t).Going? && OnTick(cfg, s, t).state.message.Some?
    ensures IsTerminal(t)
  {
    TickKeeps(cfg, s, t);
    assert Reported(AskedBy(cfg, s, t));
    hide OnTick;
    if !IsTerminal(t) {
      GoingYields(cfg, s, t);
    }
  }

  lemma GoingYields(cfg: Config, s: State, t: Tick)
    requires OnTick(cfg, s, t).Going?
    ensures t.pull.Yields?
  {
    hide SettleCut, OnEvent;
  }

  /** An append whose effect nobody learns of: the store applies it, and the await raises or is cancelled. */
  predicate Unreported(answer: Awaited<string>) {
    !answer.Took? && answer.TakesEffect()
  }

  /** For every producer that emits at most one terminal event: at most one assistant message is stored,
      however the turn ends and wherever it is cancelled, if and only if no append that took effect
      unreported is followed by another one that takes effect. */
  lemma AtMostOneReplyIff(cfg: Config, s: State, script: seq<Tick>, fin: Final)
    requires Fresh(s) && Terminals(script) <= 1
    ensures var asked := Asked(cfg, s, script, fin);
      Stored(Finish(cfg, s, script, fin).appends) <= 1
      <==> forall i, j :: 0 <= i < j < |asked| && Unreported(asked[i]) ==> !asked[j].TakesEffect()
  {
    hide Finish, Asked, Unreported, ReportedLast, Applied;
    MessagesAreApplied(cfg, s, script, fin);
    AReportIsLast(cfg, s, script, fin);
    AppliedTwiceIff(Asked(cfg, s, script, fin));
  }

  lemma {:induction false} AppliedNoneIff(asked: seq<Awaited<string>>)
    ensures Applied(asked) == 0 <==> forall i :: 0 <= i < |asked| ==> !asked[i].TakesEffect()
  {
    if asked != [] {
      AppliedNoneIff(asked[1..]);
      assert forall i :: 0 < i < |asked| ==> asked[i] == asked[1..][i - 1];
      assert forall i :: 0 <= i < |asked| - 1 ==> asked[1..][i] == asked[i + 1];
    }
  }

  lemma {:induction false} AppliedTwiceIff(asked: seq<Awaited<string>>)
    requires ReportedLast(asked)
    ensures Applied(asked) <= 1
       <==> forall i, j :: 0 <= i < j < |asked| && Unreported(asked[i]) ==> !asked[j].TakesEffect()
  {
    if asked != [] {
      var rest := asked[1..];
      assert forall i :: 0 <= i < |rest| ==> rest[i] == asked[i + 1];
      AppliedTwiceIff(rest);
      AppliedNoneIff(rest);
      if Unreported(asked[0]) {
        assert forall j :: 0 < j < |asked| ==> asked[j] == rest[j - 1];
      } else if asked[0].TakesEffect() {
        assert |asked| == 1;
      }
      PairsOfRest(asked);
    }
  }

  lemma PairsOfRest(asked: seq<Awaited<string>>)
    requires asked != []
    ensures var rest := asked[1..];
      (forall i, j :: 0 <= i < j < |asked| && Unreported(asked[i]) ==> !asked[j].TakesEffect())
      <==> (forall i, j :: 0 <= i < j < |rest| && Unreported(rest[i]) ==> !rest[j].TakesEffect())
           && (Unreported(asked[0]) ==> forall j :: 0 < j < |asked| ==> !asked[j].TakesEffect())
  {
    var rest := asked[1..];
    assert forall i :: 0 <= i < |rest| ==> rest[i] == asked[i + 1];
    if forall i, j :: 0 <= i < j < |rest| && Unreported(rest[i]) ==> !rest[j].TakesEffect() {
      forall i, j | 0 < i < j < |asked| && Unreported(asked[i]) ensures !asked[j].TakesEffect() {
        assert rest[i - 1] == asked[i] && rest[j - 1] == asked[j];
      }
    }
  }

  /** Every append that takes effect is reported. */
  predicate AppendsReport(script: seq<Tick>, fin: Final) {
    !Unreported(fin.append) && forall i :: 0 <= i < |script| ==> !Unreported(script[i].append)
  }

  lemma {:induction false} AskedReport(cfg: Config, s: State, script: seq<Tick>, fin: Final)
    requires AppendsReport(script, fin)
    ensures forall i :: 0 <= i < |Asked(cfg, s, script, fin)| ==> !Unreported(Asked(cfg, s, script, fin)[i])
    decreases |script|
  {
    hide OnTick, Unreported;
    if script != [] && OnTick(cfg, s, script[0]).Going? {
      AskedReport(cfg, OnTick(cfg, s, script[0]).state, script[1..], fin);
    }
  }

  /** So with a store that always reports what it applies there is at most one message. */
  lemma AtMostOneReply(cfg: Config, s: State, script: seq<Tick>, fin: Final)
    requires Fresh(s) && Terminals(script) <= 1 && AppendsReport(script, fin)
    ensures Stored(Finish(cfg, s, script, fin).appends) <= 1
  {
    hide Finish, Asked, Unreported;
    AtMostOneReplyIff(cfg, s, script, fin);
    AskedReport(cfg, s, script, fin);
  }

  // ------------------------------------------------------------------ complete or cut, never both

  /** The producer ends right after its terminal event, and is asked once more before the deadline:
      the pull after a terminal event gives nothing. */
  predicate Quiet(script: seq<Tick>) {
    script == []
    || (Quiet(script[1..])
        && (IsTerminal(script[0]) && |script| > 1 ==> script[1].pull in {Exhausted, Cancelled}))
  }

  /** What the turn's final event declared as outstanding; nothing if there was none. */
  function Declared(s: State): seq<string> {
    if s.finals == [] then []
    else PendingOptions(Get(s.finals[|s.finals| - 1].data, PENDING_KEY))
  }

  /** A copy marked as cut off holds the non-blank text that was streamed, of a turn without a
      final event; and everything the turn settled is what its final event declared. */
  predicate Honest(s: State) {
    && (forall i :: 0 <= i < |s.appends| && s.appends[i].partial ==>
          s.finals == [] && !Blank(s.appends[i].body) && s.appends[i].body == Concat(s.streamed))
    && (forall i :: 0 <= i < |s.settles| ==> s.settles[i] == Declared(s))
  }

  lemma SettleCutIsHonest(cfg: Config, s: State, append: Awaited<string>, put: Awaited<()>)
    requires Honest(s) && s.finals == []
    ensures Honest(SettleCut(cfg, s, append, put))
  {
  }

  lemma FinalIsHonest(cfg: Config, s: State, event: Event, t: Tick)
    requires Untouched(s)
    ensures Honest(OnFinal(cfg, s, event, t).0)
  {
    PairedDeclares(cfg, s, event);
  }

  lemma ReceiveIsHonest(cfg: Config, s: State, event: Event, t: Tick)
    requires Untouched(s)
    ensures var r := Receive(cfg, s, event, t);
      if event.kind == "error" then Honest(r) && r.finals == [] else Untouched(r)
  {
    if event.kind == "error" {
      SettleCutIsHonest(cfg, OnToken(s, event).(terminal := true), t.append, t.put);
    }
  }

  lemma SendIsHonest(cfg: Config, s: State, event: Event, t: Tick)
    requires if event.kind == "error" then Honest(s) && s.finals == [] else Untouched(s)
    ensures var r := Send(cfg, s, event, t);
      if event.kind in {"final", "error"} then Honest(r) else Untouched(r)
  {
    if event.kind == "final" {
      FinalIsHonest(cfg, s, event, t);
    }
  }

  lemma EventIsHonest(cfg: Config, s: State, event: Event, t: Tick)
    requires Untouched(s)
    ensures var r := OnEvent(cfg, s, event, t).state;
      && Honest(r) && (event.kind !in {"final", "error"} ==> Untouched(r))
      && (!r.terminal ==> r.finals == [])
  {
    hide SettleCut, OnFinal;
    ReceiveIsHonest(cfg, s, event, t);
    var received := Receive(cfg, s, event, t);
    var told := if NoticeDue(received.world) then Announce(cfg, received) else received;
    SendIsHonest(cfg, told, event, t);
  }

  lemma CutTickIsHonest(cfg: Config, s: State, t: Tick)
    requires Untouched(s) && !t.pull.Yields?
    ensures var r := OnTick(cfg, s, t);
      !r.Going? && Honest(r.state) && r.state.finals == []
  {
    hide SettleCut;
    var s0 := s.(world := DoAll(s.world, t.ops));
    SettleCutIsHonest(cfg, s0, t.append, t.put);
    SettleCutIsHonest(cfg, s0.(terminal := true), t.append, t.put);
  }

  lemma TickIsHonest(cfg: Config, s: State, t: Tick)
    requires Untouched(s)
    ensures var r := OnTick(cfg, s, t);
      && Honest(r.state) && (!r.state.terminal ==> r.state.finals == [])
      && (r.Going? && !IsTerminal(t) ==> Untouched(r.state))
  {
    if t.pull.Yields? {
      EventIsHonest(cfg, s.(world := DoAll(s.world, t.ops)), t.pull.event, t);
    } else {
      CutTickIsHonest(cfg, s, t);
    }
  }

  lemma NetIsHonest(cfg: Config, s: State, fin: Final)
    requires Honest(s) && (!s.terminal ==> s.finals == [])
    ensures Honest(Net(cfg, s, fin))
  {
    if !s.terminal {
      SettleCutIsHonest(cfg, s.(cut := false), fin.append, fin.put);
    }
  }

  /** For every producer that ends after its terminal event: a message marked as cut off is never
      written for a turn whose final event was processed, nor without text, and what is settled as
      outstanding is what the final event declared, or nothing when the turn was cut. */
  lemma {:induction false} QuietTurnIsHonest(cfg: Config, s: State, script: seq<Tick>, fin: Final)
    requires Quiet(script) && Untouched(s)
    ensures Honest(Finish(cfg, s, script, fin))
    decreases |script|
  {
    hide OnTick, Net, Honest;
    if script == [] {
      NetIsHonest(cfg, s, fin);
    } else {
      TickIsHonest(cfg, s, script[0]);
      var step := OnTick(cfg, s, script[0]);
      if step.Stopped? {
        NetIsHonest(cfg, step.state, fin);
      } else if IsTerminal(script[0]) {
        var end := Drive(cfg, step.state, script[1..]).state;
        AfterTerminal(cfg, step.state, script[1..]);
        TerminalIsMarked(cfg, s, script[0]);
        HonestWithoutWorld(step.state, end);
        NetIsHonest(cfg, end, fin);
      } else {
        QuietTurnIsHonest(cfg, step.state, script[1..], fin);
      }
    }
  }

  lemma HonestWithoutWorld(s: State, r: State)
    requires Honest(s) && r == s.(world := r.world)
    ensures Honest(r)
  {
  }

  lemma TerminalIsMarked(cfg: Config, s: State, t: Tick)
    requires IsTerminal(t) && OnTick(cfg, s, t).Going?
    ensures OnTick(cfg, s, t).state.terminal
  {
  }

  /** After a terminal event a quiet script changes nothing but the agent's own calls. */
  lemma AfterTerminal(cfg: Config, s: State, script: seq<Tick>)
    requires script != [] ==> script[0].pull in {Exhausted, Cancelled}
    ensures var r := Drive(cfg, s, script).state;
      r == s.(world := r.world)
  {
  }

  // ------------------------------------------------------------------ what the turn leaves outstanding

  /** What one tick says is outstanding: nothing when it cuts the turn, the declaration of a final
      event; and a cut that is itself cancelled says nothing. */
  function Says(cfg: Config, s: State, t: Tick): seq<seq<string>> {
    if Cuts(cfg, t) then (if KeepingIsCut(cfg, s, t.append) then [] else [[]])
    else if Closes(s, t) then [PendingOptions(Get(t.pull.event.data, PENDING_KEY))]
    else []
  }

  /** What a whole run says is outstanding, read off its script tick by tick. */
  function Said(cfg: Config, s: State, script: seq<Tick>, fin: Final): seq<seq<string>>
    decreases |script|
  {
    if script == [] then SaidAtEnd(cfg, s, fin)
    else
      var step := OnTick(cfg, s, script[0]);
      Says(cfg, s, script[0])
      + (if step.Stopped? then SaidAtEnd(cfg, step.state, fin)
         else Said(cfg, step.state, script[1..], fin))
  }

  /** The abandonment net clears the question, unless the turn is closed or the net is cancelled. */
  function SaidAtEnd(cfg: Config, s: State, fin: Final): seq<seq<string>> {
    if s.terminal || KeepingIsCut(cfg, s, fin.append) then [] else [[]]
  }

  lemma SettleCutSays(cfg: Config, s: State, append: Awaited<string>, put: Awaited<()>)
    requires !s.cut
    ensures SettleCut(cfg, s, append, put).settles
         == s.settles + (if KeepingIsCut(cfg, s, append) then [] else [[]])
  {
  }

  lemma SendSays(cfg: Config, s: State, event: Event, t: Tick)
    requires !s.cut
    ensures Send(cfg, s, event, t).settles
         == s.settles
            + (if event.kind == "final" then [PendingOptions(Get(event.data, PENDING_KEY))] else [])
  {
    hide PersistReply, Paired;
    PairedDeclares(cfg, s, event);
  }

  lemma EventSays(cfg: Config, s: State, event: Event, t: Tick)
    requires !s.cut && t.pull == Yields(event)
    ensures var r := OnEvent(cfg, s, event, t);
      && r.state.settles == s.settles + Says(cfg, s, t.(ops := []))
      && (r.Going? ==> !r.state.cut)
  {
    hide SettleCut, Send;
    if event.kind == "error" {
      assert OnToken(s, event) == s;
      SettleCutSays(cfg, s.(terminal := true), t.append, t.put);
    }
    var received := Receive(cfg, s, event, t);
    if !received.cut {
      SendSays(cfg, if NoticeDue(received.world) then Announce(cfg, received) else received, event, t);
    }
  }

  lemma TickSays(cfg: Config, s: State, t: Tick)
    requires !s.cut
    ensures var r := OnTick(cfg, s, t);
      && r.state.settles == s.settles + Says(cfg, s, t)
      && (r.Going? ==> !r.state.cut)
  {
    hide SettleCut, OnEvent;
    var s0 := s.(world := DoAll(s.world, t.ops));
    if t.pull.Yields? {
      EventSays(cfg, s0, t.pull.event, t);
    } else {
      SettleCutSays(cfg, s0, t.append, t.put);
      SettleCutSays(cfg, s0.(terminal := true), t.append, t.put);
    }
  }

  lemma NetSays(cfg: Config, s: State, fin: Final)
    ensures Net(cfg, s, fin).settles == s.settles + SaidAtEnd(cfg, s, fin)
  {
    SettleCutSays(cfg, s.(cut := false), fin.append, fin.put);
  }

  /** What a run settles is what its script says, tick by tick. */
  lemma {:induction false} SettlesAreSaid(cfg: Config, s: State, script: seq<Tick>, fin: Final)
    requires !s.cut
    ensures Finish(cfg, s, script, fin).settles == s.settles + Said(cfg, s, script, fin)
    decreases |script|
  {
    hide OnTick, Net, SaidAtEnd, Says;
    if script == [] {
      NetSays(cfg, s, fin);
    } else {
      TickSays(cfg, s, script[0]);
      var step := OnTick(cfg, s, script[0]);
      if step.Stopped? {
        NetSays(cfg, step.state, fin);
      } else {
        SettlesAreSaid(cfg, step.state, script[1..], fin);
      }
    }
  }

  // ------------------------------------------------------------------ what the thread remembers

  /** What the thread holds after writing each change in turn, skipping what equals `pending`. */
  function LastChange(settles: seq<seq<string>>, pending: seq<string>): seq<string> {
    if settles == [] then pending
    else
      var last := settles[|settles| - 1];
      if last != pending then last else LastChange(settles[..|settles| - 1], pending)
  }

  predicate PutsWork(script: seq<Tick>, fin: Final) {
    fin.put.TakesEffect() && forall i :: 0 <= i < |script| ==> script[i].put.TakesEffect()
  }

  predicate StoredMatches(s: State) {
    s.stored == LastChange(s.settles, s.pending)
  }

  lemma WritePendingMatches(cfg: Config, s: State, options: seq<string>, put: Awaited<()>)
    requires cfg.threads && StoredMatches(s) && put.TakesEffect()
    ensures StoredMatches(WritePending(cfg, s, options, put))
  {
    assert (s.settles + [options])[..|s.settles|] == s.settles;
  }

  lemma SettleCutMatches(cfg: Config, s: State, append: Awaited<string>, put: Awaited<()>)
    requires cfg.threads && StoredMatches(s) && put.TakesEffect()
    ensures StoredMatches(SettleCut(cfg, s, append, put))
  {
    var kept := PersistPartial(cfg, s, append);
    if !kept.cut {
      WritePendingMatches(cfg, kept, [], put);
    }
  }

  lemma FinalMatches(cfg: Config, s: State, event: Event, t: Tick)
    requires cfg.threads && StoredMatches(s) && t.put.TakesEffect()
    ensures StoredMatches(OnFinal(cfg, s, event, t).0)
  {
    WritePendingMatches(cfg, s.(terminal := true, finals := s.finals + [event]),
                        PendingOptions(Get(Paired(cfg, s, event).data, PENDING_KEY)), t.put);
  }

  lemma EventMatches(cfg: Config, s: State, event: Event, t: Tick)
    requires cfg.threads && StoredMatches(s) && t.put.TakesEffect()
    ensures StoredMatches(OnEvent(cfg, s, event, t).state)
  {
    hide SettleCut, OnFinal, LastChange;
    SettleCutMatches(cfg, OnToken(s, event).(terminal := true), t.append, t.put);
    var received := Receive(cfg, s, event, t);
    var told := if NoticeDue(received.world) then Announce(cfg, received) else received;
    if event.kind == "final" {
      FinalMatches(cfg, told, event, t);
    }
  }

  lemma TickMatches(cfg: Config, s: State, t: Tick)
    requires cfg.threads && StoredMatches(s) && t.put.TakesEffect()
    ensures StoredMatches(OnTick(cfg, s, t).state) && OnTick(cfg, s, t).state.pending == s.pending
  {
    hide SettleCut, LastChange;
    var s0 := s.(world := DoAll(s.world, t.ops));
    if t.pull.Yields? {
      EventMatches(cfg, s0, t.pull.event, t);
    } else {
      SettleCutMatches(cfg, s0, t.append, t.put);
      SettleCutMatches(cfg, s0.(terminal := true), t.append, t.put);
    }
  }

  lemma NetMatches(cfg: Config, s: State, fin: Final)
    requires cfg.threads && StoredMatches(s) && fin.put.TakesEffect()
    ensures StoredMatches(Net(cfg, s, fin)) && Net(cfg, s, fin).pending == s.pending
  {
    SettleCutMatches(cfg, s.(cut := false), fin.append, fin.put);
  }

  /** However many times a turn settles and wherever it is cancelled, the thread ends with the last
      change it said. */
  lemma {:induction false} StoredIsLastChange(cfg: Config, s: State, script: seq<Tick>, fin: Final)
    requires cfg.threads && StoredMatches(s) && PutsWork(script, fin)
    ensures var r := Finish(cfg, s, script, fin); StoredMatches(r) && r.pending == s.pending
    decreases |script|
  {
    hide OnTick, Net, StoredMatches;
    if script == [] {
      NetMatches(cfg, s, fin);
    } else {
      TickMatches(cfg, s, script[0]);
      var step := OnTick(cfg, s, script[0]);
      if step.Going? {
        StoredIsLastChange(cfg, step.state, script[1..], fin);
      } else {
        NetMatches(cfg, step.state, fin);
      }
    }
  }

  /** The thread ends with the last change that the script says. */
  lemma StoredIsSaid(cfg: Config, s: State, script: seq<Tick>, fin: Final)
    requires cfg.threads && Fresh(s) && PutsWork(script, fin)
    ensures Finish(cfg, s, script, fin).stored == LastChange(Said(cfg, s, script, fin), s.pending)
  {
    hide Finish, Said, LastChange, PutsWork;
    FreshMatches(s);
    StoredIsLastChange(cfg, s, script, fin);
    SettlesAreSaid(cfg, s, script, fin);
    assert [] + Said(cfg, s, script, fin) == Said(cfg, s, script, fin);
  }

  /** Skipping unchanged writes leaves the thread as always writing would, exactly when the last thing
      the script says is a change, or everything it says is what was there. */
  lemma SkippingRefinesWritingIff(cfg: Config, s: State, script: seq<Tick>, fin: Final)
    requires cfg.threads && Fresh(s) && PutsWork(script, fin) && Said(cfg, s, script, fin) != []
    ensures var said := Said(cfg, s, script, fin);
      Finish(cfg, s, script, fin).stored == said[|said| - 1]
      <==> said[|said| - 1] != s.pending || forall i :: 0 <= i < |said| ==> said[i] == s.pending
  {
    hide Finish, Said, LastChange, PutsWork, Fresh;
    StoredIsSaid(cfg, s, script, fin);
    LastChangeIsLastIff(Said(cfg, s, script, fin), s.pending);
  }

  lemma FreshMatches(s: State)
    requires Fresh(s)
    ensures StoredMatches(s)
  {
  }

  lemma LastChangeIsLastIff(settles: seq<seq<string>>, pending: seq<string>)
    requires settles != []
    ensures LastChange(settles, pending) == settles[|settles| - 1]
       <==> settles[|settles| - 1] != pending || forall i :: 0 <= i < |settles| ==> settles[i] == pending
  {
    var n := |settles| - 1;
    if settles[n] == pending {
      LastChangeIsPending(settles, pending);
    }
  }

  lemma {:induction false} LastChangeIsPending(settles: seq<seq<string>>, pending: seq<string>)
    ensures LastChange(settles, pending) == pending
       <==> forall i :: 0 <= i < |settles| ==> settles[i] == pending
  {
    if settles != [] {
      LastChangeIsPending(settles[..|settles| - 1], pending);
    }
  }

  // ------------------------------------------------------------------ when an ending settles

  /** The turn is cut before any final event, and every attempt to keep its text is cancelled. */
  predicate CutShort(cfg: Config, s: State, script: seq<Tick>, fin: Final)
    decreases |script|
  {
    if script == [] then KeepingIsCut(cfg, s, fin.append)
    else
      var t, step := script[0], OnTick(cfg, s, script[0]);
      !Closes(s, t)
      && (Cuts(cfg, t) ==> KeepingIsCut(cfg, s, t.append))
      && (if step.Going? then CutShort(cfg, step.state, script[1..], fin)
          else step.state.terminal || KeepingIsCut(cfg, step.state, fin.append))
  }

  lemma {:induction false} SaysNothingIff(cfg: Config, s: State, script: seq<Tick>, fin: Final)
    requires !s.terminal
    ensures Said(cfg, s, script, fin) == [] <==> CutShort(cfg, s, script, fin)
    decreases |script|
  {
    if script != [] {
      var step := OnTick(cfg, s, script[0]);
      if step.Going? && !Closes(s, script[0]) && !Cuts(cfg, script[0]) {
        GoesOnOpen(cfg, s, script[0]);
        SaysNothingIff(cfg, step.state, script[1..], fin);
      }
    }
  }

  lemma GoesOnOpen(cfg: Config, s: State, t: Tick)
    requires !s.terminal && OnTick(cfg, s, t).Going? && !IsTerminal(t)
    ensures !OnTick(cfg, s, t).state.terminal
  {
  }

  /** An ending settles the turn, unless the turn was cut and every attempt to keep its text was
      cancelled: then the question of the thread stands as it stood. */
  lemma EndingSettlesIff(cfg: Config, s: State, script: seq<Tick>, fin: Final)
    requires Fresh(s)
    ensures Finish(cfg, s, script, fin).settles == [] <==> CutShort(cfg, s, script, fin)
  {
    hide Finish, Said, CutShort;
    SettlesAreSaid(cfg, s, script, fin);
    SaysNothingIff(cfg, s, script, fin);
  }

  /** For a quiet producer the thread remembers what the final event declared, or nothing if the turn
      was cut, exactly unless the turn was cut short on a thread that was waiting for an answer. */
  lemma MemoryIsTheDeclarationIff(cfg: Config, s: State, script: seq<Tick>, fin: Final)
    requires cfg.threads && Fresh(s) && Quiet(script) && PutsWork(script, fin)
    ensures var r := Finish(cfg, s, script, fin);
      r.stored == Declared(r) <==> !(CutShort(cfg, s, script, fin) && s.pending != [])
  {
    hide OnTick, Drive, Net, CutShort, Said;
    var r := Finish(cfg, s, script, fin);
    FreshMatches(s);
    QuietTurnIsHonest(cfg, s, script, fin);
    StoredIsLastChange(cfg, s, script, fin);
    EndingSettlesIff(cfg, s, script, fin);
    FinalsSettle(cfg, s, script, fin);
    SameChanges(r.settles, Declared(r), s.pending);
  }

  /** Writing the same thing again and again is writing it once. */
  lemma SameChanges(settles: seq<seq<string>>, declared: seq<string>, pending: seq<string>)
    requires forall i :: 0 <= i < |settles| ==> settles[i] == declared
    ensures LastChange(settles, pending) == if settles == [] then pending else declared
  {
    if settles != [] && declared == pending {
      LastChangeIsPending(settles, pending);
    }
  }

  predicate FinalSettled(s: State) {
    s.finals != [] ==> s.settles != []
  }

  lemma TickSettlesFinals(cfg: Config, s: State, t: Tick)
    requires FinalSettled(s)
    ensures FinalSettled(OnTick(cfg, s, t).state)
  {
    var s0 := s.(world := DoAll(s.world, t.ops));
    if t.pull.Yields? {
      EventSettlesFinals(cfg, s0, t.pull.event, t);
    } else {
      SettleCutSettles(cfg, s0, t.append, t.put);
      SettleCutSettles(cfg, s0.(terminal := true), t.append, t.put);
    }
  }

  lemma SettleCutSettles(cfg: Config, s: State, append: Awaited<string>, put: Awaited<()>)
    requires FinalSettled(s)
    ensures FinalSettled(SettleCut(cfg, s, append, put))
  {
  }

  lemma EventSettlesFinals(cfg: Config, s: State, event: Event, t: Tick)
    requires FinalSettled(s)
    ensures FinalSettled(OnEvent(cfg, s, event, t).state)
  {
    hide SettleCut, PersistReply, StripPending, Paired;
    SettleCutSettles(cfg, OnToken(s, event).(terminal := true), t.append, t.put);
  }

  lemma {:induction false} FinalsSettle(cfg: Config, s: State, script: seq<Tick>, fin: Final)
    requires FinalSettled(s)
    ensures FinalSettled(Finish(cfg, s, script, fin))
    decreases |script|
  {
    if script == [] {
      NetSettlesFinals(cfg, s, fin);
    } else {
      hide OnTick, Net, FinalSettled;
      TickSettlesFinals(cfg, s, script[0]);
      var step := OnTick(cfg, s, script[0]);
      if step.Going? {
        FinalsSettle(cfg, step.state, script[1..], fin);
      } else {
        NetSettlesFinals(cfg, step.state, fin);
      }
    }
  }

  lemma NetSettlesFinals(cfg: Config, s: State, fin: Final)
    requires FinalSettled(s)
    ensures FinalSettled(Net(cfg, s, fin))
  {
  }

  /** One turn of a conversation, apart from what the thread was waiting for. */
  datatype Exchange = Exchange(fallback: bool, target: Support, script: seq<Tick>, fin: Final)

  function After(cfg: Config, x: Exchange, stored: seq<string>): State {
    Finish(cfg, Begin(x.fallback, x.target, stored), x.script, x.fin)
  }

  /** What the thread is waiting for after a whole conversation. */
  function Memory(cfg: Config, turns: seq<Exchange>, stored: seq<string>): seq<string> {
    if turns == [] then stored
    else After(cfg, turns[|turns| - 1], Memory(cfg, turns[..|turns| - 1], stored)).stored
  }

  /** A question survives one turn and no more: after any conversation of quiet turns whose writes
      work, the thread waits for exactly what the last turn declared, unless that turn was cut short
      while the thread was waiting. */
  lemma MemoryIsTheLastDeclarationIff(cfg: Config, turns: seq<Exchange>, stored: seq<string>)
    requires cfg.threads && turns != []
    requires Quiet(turns[|turns| - 1].script)
    requires PutsWork(turns[|turns| - 1].script, turns[|turns| - 1].fin)
    ensures var last, before := turns[|turns| - 1], Memory(cfg, turns[..|turns| - 1], stored);
      Memory(cfg, turns, stored) == Declared(After(cfg, last, before))
      <==> !(CutShort(cfg, Begin(last.fallback, last.target, before), last.script, last.fin)
             && before != [])
  {
    var last, before := turns[|turns| - 1], Memory(cfg, turns[..|turns| - 1], stored);
    MemoryIsTheDeclarationIff(cfg, Begin(last.fallback, last.target, before), last.script, last.fin);
  }
}
