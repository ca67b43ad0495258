/** What can still happen to a turn once its final event is processed: exactly when a whole answer is
    stored as one that was cut off, and exactly when the question just asked is forgotten. */
module AfterFinal {
  import opened Wrappers
  import opened Text
  import opened Metering
  import opened Fallback
  import opened Turn
  import opened TurnProofs

  predicate NoFinals(script: seq<Tick>) {
    forall i :: 0 <= i < |script| ==> !IsFinal(script[i])
  }

  /** The turn is closed: it has processed a final event and nothing is unwinding it. */
  predicate Finalled(s: State) {
    s.terminal && s.finals != [] && !s.cut
  }

  // ------------------------------------------------------------------ read off the script

  /** Some tick that is reached cuts the turn while there is text to keep, and the store applies that. */
  predicate MarksLater(cfg: Config, s: State, script: seq<Tick>)
    decreases |script|
  {
    script != []
    && ((Cuts(cfg, script[0]) && KeepsText(cfg, s) && script[0].append.TakesEffect())
        || (OnTick(cfg, s, script[0]).Going?
            && MarksLater(cfg, OnTick(cfg, s, script[0]).state, script[1..])))
  }

  /** Some tick that is reached cuts the turn, gets as far as the question, and the store applies that. */
  predicate ErasesLater(cfg: Config, s: State, script: seq<Tick>)
    decreases |script|
  {
    script != []
    && ((Cuts(cfg, script[0]) && !KeepingIsCut(cfg, s, script[0].append) && script[0].put.TakesEffect())
        || (OnTick(cfg, s, script[0]).Going?
            && ErasesLater(cfg, OnTick(cfg, s, script[0]).state, script[1..])))
  }

  // ------------------------------------------------------------------ one tick

  /** What a tick without a final event does to a closed turn. */
  predicate Settled(cfg: Config, s: State, r: State, t: Tick) {
    && r.terminal && r.finals == s.finals && r.pending == s.pending
    && r.stored == (if Cuts(cfg, t) && !KeepingIsCut(cfg, s, t.append) && t.put.TakesEffect()
                       && cfg.threads && s.pending != [] then [] else s.stored)
    && s.appends <= r.appends
    && (if Cuts(cfg, t) && KeepsText(cfg, s)
        then |r.appends| == |s.appends| + 1 && r.appends[|s.appends|].ok == t.append.TakesEffect()
             && r.appends[|s.appends|].partial && r.appends[|s.appends|].finals == |s.finals|
             && r.message.Some? == t.append.Took?
        else r.appends == s.appends && r.message == s.message)
  }

  lemma SettleCutDoes(cfg: Config, s: State, t: Tick)
    requires Finalled(s) && Cuts(cfg, t)
    ensures Settled(cfg, s, SettleCut(cfg, s, t.append, t.put), t)
  {
  }

  lemma EventDoes(cfg: Config, s: State, t: Tick)
    requires Finalled(s) && t.pull.Yields? && !IsFinal(t)
    ensures var r := OnEvent(cfg, s, t.pull.event, t);
      Settled(cfg, s, r.state, t) && (r.Going? ==> Finalled(r.state))
  {
    hide SettleCut, OnFinal;
    if t.pull.event.kind == "error" {
      assert OnToken(s, t.pull.event) == s && s.(terminal := true) == s;
      SettleCutDoes(cfg, s, t);
    }
  }

  lemma SettledWithoutWorld(cfg: Config, s: State, w: World, r: State, t: Tick)
    requires Settled(cfg, s.(world := w), r, t)
    ensures Settled(cfg, s, r, t)
  {
  }

  lemma TickDoes(cfg: Config, s: State, t: Tick)
    requires Finalled(s) && !IsFinal(t)
    ensures var r := OnTick(cfg, s, t);
      Settled(cfg, s, r.state, t) && (r.Going? ==> Finalled(r.state))
  {
    hide SettleCut, OnEvent;
    var s0 := s.(world := DoAll(s.world, t.ops));
    if t.pull.Yields? {
      EventDoes(cfg, s0, t);
    } else if Cuts(cfg, t) {
      assert s0.(terminal := true) == s0;
      SettleCutDoes(cfg, s0, t);
    }
    SettledWithoutWorld(cfg, s, s0.world, OnTick(cfg, s, t).state, t);
  }

  // ------------------------------------------------------------------ the rest of the run

  /** An assistant message is stored at place `n` or later. */
  predicate StoredSince(appends: seq<Append>, n: nat) {
    exists i :: n <= i < |appends| && appends[i].ok
  }

  /** The thread keeps its question unless a reached cut erases it. */
  lemma {:induction false} MemoryAfterFinal(cfg: Config, s: State, script: seq<Tick>, fin: Final)
    requires Finalled(s) && NoFinals(script) && cfg.threads
    ensures Finish(cfg, s, script, fin).stored
         == if s.pending != [] && ErasesLater(cfg, s, script) then [] else s.stored
    ensures Finish(cfg, s, script, fin).finals == s.finals
    decreases |script|
  {
    hide OnTick;
    if script != [] {
      TickDoes(cfg, s, script[0]);
      var step := OnTick(cfg, s, script[0]);
      if step.Going? {
        assert NoFinals(script[1..]);
        MemoryAfterFinal(cfg, step.state, script[1..], fin);
      }
    }
  }

  /** Messages stored after the final event are all marked as cut off, and there is one exactly if a
      reached cut finds text to keep and the store applies that. */
  lemma {:induction false} MarksAfterFinal(cfg: Config, s: State, script: seq<Tick>, fin: Final)
    requires Finalled(s) && NoFinals(script)
    ensures var r := Finish(cfg, s, script, fin);
      && s.appends <= r.appends
      && (StoredSince(r.appends, |s.appends|) <==> MarksLater(cfg, s, script))
      && (forall i :: |s.appends| <= i < |r.appends| ==>
            r.appends[i].partial && r.appends[i].finals == |s.finals|)
    decreases |script|
  {
    hide OnTick;
    if script != [] {
      var t, step := script[0], OnTick(cfg, s, script[0]);
      TickDoes(cfg, s, t);
      if step.Going? {
        assert NoFinals(script[1..]);
        MarksAfterFinal(cfg, step.state, script[1..], fin);
        MarksCompose(cfg, s, step.state, t, Finish(cfg, step.state, script[1..], fin).appends,
                     MarksLater(cfg, step.state, script[1..]));
      } else {
        MarksCompose(cfg, s, step.state, t, step.state.appends, false);
      }
    }
  }

  lemma MarksCompose(cfg: Config, s: State, m: State, t: Tick, all: seq<Append>, later: bool)
    requires Settled(cfg, s, m, t) && m.appends <= all
    requires StoredSince(all, |m.appends|) <==> later
    ensures s.appends <= all
    ensures StoredSince(all, |s.appends|)
       <==> (Cuts(cfg, t) && KeepsText(cfg, s) && t.append.TakesEffect()) || later
  {
    if Cuts(cfg, t) && KeepsText(cfg, s) {
      assert all[|s.appends|] == m.appends[|s.appends|];
      if StoredSince(all, |s.appends|) && all[|s.appends|].ok == false {
        var i :| |s.appends| <= i < |all| && all[i].ok;
        assert StoredSince(all, |m.appends|);
      }
    }
  }

  // ------------------------------------------------------------------ whole runs

  /** Where the loop stands when it has gone through the whole script without ending. */
  function Reached(cfg: Config, s: State, script: seq<Tick>): Option<State>
    decreases |script|
  {
    if script == [] then Some(s)
    else
      var step := OnTick(cfg, s, script[0]);
      if step.Stopped? then None else Reached(cfg, step.state, script[1..])
  }

  lemma {:induction false} FinishFrom(cfg: Config, s: State, before: seq<Tick>, rest: seq<Tick>, fin: Final)
    requires Reached(cfg, s, before).Some?
    ensures Finish(cfg, s, before + rest, fin)
         == Finish(cfg, Reached(cfg, s, before).value, rest, fin)
    decreases |before|
  {
    hide OnTick, Net;
    if before == [] {
      assert before + rest == rest;
    } else {
      assert (before + rest)[0] == before[0] && (before + rest)[1..] == before[1..] + rest;
      FinishFrom(cfg, OnTick(cfg, s, before[0]).state, before[1..], rest, fin);
    }
  }

  lemma {:induction false} ReachedFresh(cfg: Config, s: State, before: seq<Tick>)
    requires Fresh(s) && Terminals(before) == 0 && Reached(cfg, s, before).Some?
    ensures Fresh(Reached(cfg, s, before).value)
    decreases |before|
  {
    hide OnTick;
    if before != [] {
      TickStaysFresh(cfg, s, before[0]);
      ReachedFresh(cfg, OnTick(cfg, s, before[0]).state, before[1..]);
    }
  }

  lemma TickStaysFresh(cfg: Config, s: State, t: Tick)
    requires Fresh(s) && !IsTerminal(t) && OnTick(cfg, s, t).Going?
    ensures Fresh(OnTick(cfg, s, t).state)
  {
  }

  /** The final event of a turn that goes on, stored or not. */
  lemma FinalDoes(cfg: Config, s: State, t: Tick)
    requires Fresh(s) && IsFinal(t) && OnTick(cfg, s, t).Going?
    ensures var r := OnTick(cfg, s, t).state;
      && Finalled(r) && r.finals == [t.pull.event] && r.pending == s.pending
      && (cfg.threads ==> |r.appends| == 1 && !r.appends[0].partial && r.appends[0].finals == 1
                          && r.message.Some? == t.append.Took?)
      && (!cfg.threads ==> r.appends == [] && r.stored == s.stored)
      && (cfg.threads && t.put.TakesEffect() ==> r.stored == Declared(r))
  {
    hide SettleCut, Enrich, TurnContent, MarkIncomplete, WithNotice, TokenCount, PendingOptions;
    var s0 := s.(world := DoAll(s.world, t.ops));
    var told := if NoticeDue(s0.world) then Announce(cfg, s0) else s0;
    assert OnToken(s0, t.pull.event) == s0;
    PairedDeclares(cfg, told, t.pull.event);
  }

  /** The final event of a turn that ends with it: the reader leaves or an await is cancelled. */
  lemma LastFinalDoes(cfg: Config, s: State, t: Tick, fin: Final)
    requires Fresh(s) && IsFinal(t) && OnTick(cfg, s, t).Stopped?
    ensures var r := Net(cfg, OnTick(cfg, s, t).state, fin);
      && (forall i :: 0 <= i < |r.appends| && r.appends[i].partial ==> r.appends[i].finals == 0)
      && (Closes(s, t) ==> r.finals == [t.pull.event])
      && (Closes(s, t) && cfg.threads && t.put.TakesEffect() ==> r.stored == Declared(r))
  {
    hide SettleCut, Enrich, TurnContent, MarkIncomplete, WithNotice, TokenCount, PendingOptions;
    var s0 := s.(world := DoAll(s.world, t.ops));
    var told := if NoticeDue(s0.world) then Announce(cfg, s0) else s0;
    assert OnToken(s0, t.pull.event) == s0;
    PairedDeclares(cfg, told, t.pull.event);
    NetBeforeFinal(cfg, told, fin);
  }

  lemma NetBeforeFinal(cfg: Config, s: State, fin: Final)
    requires s.appends == [] && s.finals == []
    ensures var r := SettleCut(cfg, s.(cut := false), fin.append, fin.put);
      forall i :: 0 <= i < |r.appends| ==> r.appends[i].finals == 0
  {
  }

  /** A whole answer is stored as one that was cut off: marked as such although its final event had
      been processed. */
  predicate WholeAnswerMarked(appends: seq<Append>) {
    exists i :: 0 <= i < |appends| && appends[i].partial && appends[i].ok && appends[i].finals > 0
  }

  /** For every run with one final event and nothing terminal before it: a whole answer is stored as
      one that was cut off, if and only if the store did not report the reply and some later tick that
      is reached cuts the turn, finds text to keep, and its append takes effect. */
  lemma WholeAnswerIsMarkedIff(cfg: Config, s: State, before: seq<Tick>, t: Tick, rest: seq<Tick>,
                               fin: Final)
    requires Fresh(s) && Terminals(before) == 0 && Reached(cfg, s, before).Some?
    requires IsFinal(t) && NoFinals(rest)
    ensures var step := OnTick(cfg, Reached(cfg, s, before).value, t);
      WholeAnswerMarked(Finish(cfg, s, before + ([t] + rest), fin).appends)
      <==> step.Going? && MarksLater(cfg, step.state, rest)
  {
    hide OnTick, Net, Drive, MarksLater, Reached;
    var m := Reached(cfg, s, before).value;
    ReachedFresh(cfg, s, before);
    FinishFrom(cfg, s, before, [t] + rest, fin);
    FinishFinal(cfg, m, t, rest, fin);
    var closed := OnTick(cfg, m, t).state;
    if OnTick(cfg, m, t).Going? {
      FinalDoes(cfg, m, t);
      MarksAfterFinal(cfg, closed, rest, fin);
      MarkedIffSince(closed.appends, Finish(cfg, closed, rest, fin).appends);
    } else {
      LastFinalDoes(cfg, m, t, fin);
    }
  }

  lemma FinishFinal(cfg: Config, m: State, t: Tick, rest: seq<Tick>, fin: Final)
    ensures var step := OnTick(cfg, m, t);
      Finish(cfg, m, [t] + rest, fin)
      == if step.Going? then Finish(cfg, step.state, rest, fin) else Net(cfg, step.state, fin)
  {
    hide OnTick, Net;
    assert ([t] + rest)[0] == t && ([t] + rest)[1..] == rest;
  }

  lemma MarkedIffSince(before: seq<Append>, all: seq<Append>)
    requires before <= all && forall i :: 0 <= i < |before| ==> !before[i].partial
    requires forall i :: |before| <= i < |all| ==> all[i].partial && all[i].finals > 0
    ensures WholeAnswerMarked(all) <==> StoredSince(all, |before|)
  {
    assert forall i :: 0 <= i < |before| ==> all[i] == before[i];
    if WholeAnswerMarked(all) {
      var i :| 0 <= i < |all| && all[i].partial && all[i].ok && all[i].finals > 0;
      assert |before| <= i && all[i].ok;
    }
  }

  /** For every such run that processes its final event and whose declaration was stored: the thread
      ends without the question that the turn asked, if and only if it was waiting for an answer
      before and some later tick that is reached cuts the turn, is not cancelled before the question,
      and its write takes effect. */
  lemma QuestionIsForgottenIff(cfg: Config, s: State, before: seq<Tick>, t: Tick, rest: seq<Tick>,
                               fin: Final)
    requires cfg.threads && Fresh(s) && Terminals(before) == 0 && Reached(cfg, s, before).Some?
    requires Closes(Reached(cfg, s, before).value, t) && NoFinals(rest) && t.put.TakesEffect()
    ensures var step := OnTick(cfg, Reached(cfg, s, before).value, t);
      var r := Finish(cfg, s, before + ([t] + rest), fin);
      && Declared(r) == PendingOptions(Get(t.pull.event.data, PENDING_KEY))
      && (r.stored != Declared(r)
          <==> Declared(r) != [] && s.pending != [] && step.Going? && ErasesLater(cfg, step.state, rest))
  {
    hide OnTick, Net, Drive, ErasesLater, Reached;
    var m := Reached(cfg, s, before).value;
    ReachedFresh(cfg, s, before);
    ReachedKeepsPending(cfg, s, before);
    FinishFrom(cfg, s, before, [t] + rest, fin);
    FinishFinal(cfg, m, t, rest, fin);
    if OnTick(cfg, m, t).Going? {
      FinalDoes(cfg, m, t);
      MemoryAfterFinal(cfg, OnTick(cfg, m, t).state, rest, fin);
    } else {
      LastFinalDoes(cfg, m, t, fin);
    }
  }

  lemma {:induction false} ReachedKeepsPending(cfg: Config, s: State, before: seq<Tick>)
    requires Reached(cfg, s, before).Some?
    ensures Reached(cfg, s, before).value.pending == s.pending
    decreases |before|
  {
    hide OnTick;
    if before != [] {
      TickKeepsPending(cfg, s, before[0]);
      ReachedKeepsPending(cfg, OnTick(cfg, s, before[0]).state, before[1..]);
    }
  }

  lemma EventKeepsPending(cfg: Config, s: State, event: Event, t: Tick)
    ensures OnEvent(cfg, s, event, t).state.pending == s.pending
  {
    hide Receive, Send;
  }

  lemma TickKeepsPending(cfg: Config, s: State, t: Tick)
    ensures OnTick(cfg, s, t).state.pending == s.pending
  {
    hide SettleCut, OnEvent;
    var s0 := s.(world := DoAll(s.world, t.ops));
    if t.pull.Yields? {
      EventKeepsPending(cfg, s0, t.pull.event, t);
    }
  }
}
