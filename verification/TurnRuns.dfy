/** Concrete turns on which a promise fails that holds of producers that end after their terminal event
    and of turns whose awaits are not cancelled. */
module TurnRuns {
  import opened Wrappers
  import opened Text
  import opened Metering
  import opened Fallback
  import opened Turn
  import opened TurnProofs
  import opened AfterFinal
  import opened DisclosureProofs

  function Quietly(pull: Pulled, append: Awaited<string>): Tick {
    Tick([], pull, append, Took(()), "", false, false)
  }

  const TOKEN := Event("token", map["delta" := JText("half an answer")])
  const ASKS := Event("final", map["text" := JText("which?"), PENDING_KEY := JList([JText("a.pdf")])])
  const ERROR := Event("error", map[])

  /** The executor turns an exception raised after the agent's final event into an error event. When
      the reply could not be stored, the whole answer is then stored as one that was cut off. */
  lemma ErrorAfterFinalMarksAWholeAnswer(cfg: Config, target: Support, fin: Final)
    requires cfg.threads
    ensures var script := [Quietly(Yields(TOKEN), Missed(false)), Quietly(Yields(ASKS), Missed(false)),
                           Quietly(Yields(ERROR), Took("m1"))];
      var r := Finish(cfg, Begin(false, target, []), script, fin);
      |r.appends| == 2 && r.finals == [ASKS] && WholeAnswerMarked(r.appends)
  {
    var t0, t1, t2 := Quietly(Yields(TOKEN), Missed(false)), Quietly(Yields(ASKS), Missed(false)),
                      Quietly(Yields(ERROR), Took("m1"));
    var s0 := Begin(false, target, []);
    var s1 := OnTick(cfg, s0, t0).state;
    TokenIsKept(cfg, target);
    UnstoredFinal(cfg, s1);
    var s2 := OnTick(cfg, s1, t1).state;
    CutAfterFinal(cfg, s2);
    var s3 := OnTick(cfg, s2, t2).state;
    assert [t2][1..] == [] && [t1, t2][1..] == [t2] && [t0, t1, t2][1..] == [t1, t2];
    assert Drive(cfg, s2, [t2]) == Drive(cfg, s3, []);
    assert s3.appends[1].finals == 1;
    assert Drive(cfg, s1, [t1, t2]) == Drive(cfg, s2, [t2]);
    assert Drive(cfg, s0, [t0, t1, t2]) == Drive(cfg, s1, [t1, t2]);
  }

  lemma TokenIsKept(cfg: Config, target: Support)
    ensures var r := OnTick(cfg, Begin(false, target, []), Quietly(Yields(TOKEN), Missed(false)));
      r.Going? && !r.state.cut && r.state.streamed == ["half an answer"] && r.state.message.None?
      && r.state.appends == [] && r.state.finals == [] && r.state.world == Start(false, target)
      && !r.state.terminal
  {
    assert Get(TOKEN.data, "delta") == JText("half an answer");
  }

  lemma UnstoredFinal(cfg: Config, s: State)
    requires cfg.threads && !s.cut && s.message.None? && s.appends == [] && s.finals == []
    requires s.world == Start(false, s.world.target)
    ensures var r := OnTick(cfg, s, Quietly(Yields(ASKS), Missed(false)));
      r.Going? && !r.state.cut && r.state.streamed == s.streamed && r.state.message.None? && r.state.world == s.world
      && |r.state.appends| == 1 && r.state.finals == [ASKS]
  {
  }

  lemma CutAfterFinal(cfg: Config, s: State)
    requires cfg.threads && !s.cut && s.message.None? && |s.appends| == 1
    requires s.streamed == ["half an answer"] && s.world == Start(false, s.world.target)
    ensures var r := OnTick(cfg, s, Quietly(Yields(ERROR), Took("m1")));
      r.Going? && r.state.terminal && r.state.finals == s.finals
      && |r.state.appends| == 2 && r.state.appends[1].partial && r.state.appends[1].ok
      && r.state.appends[1].finals == |s.finals|
  {
    assert ["half an answer"][1..] == [];
    assert Concat(s.streamed) == "half an answer" + "";
    assert !IsSpace(Concat(s.streamed)[0]);
  }

  /** The deadline is tested before the producer is asked whether it has ended. A reader who takes
      the final frame late makes the next pull time out, and the question the turn had just asked
      is forgotten when the thread was already waiting for another. */
  lemma LateDeadlineForgetsTheQuestion(cfg: Config, target: Support, fin: Final)
    requires cfg.threads && cfg.capped
    ensures var script := [Quietly(Yields(ASKS), Took("m1")), Quietly(TimedOut, Missed(false))];
      var r := Finish(cfg, Begin(false, target, ["old.pdf"]), script, fin);
      r.settles == [["a.pdf"], []] && r.stored == [] && Declared(r) == ["a.pdf"]
  {
    hide OnTick;
    var t0, t1 := Quietly(Yields(ASKS), Took("m1")), Quietly(TimedOut, Missed(false));
    var s0 := Begin(false, target, ["old.pdf"]);
    AsksDeclares();
    AsksAreStored(cfg, target, ["old.pdf"]);
    DeadlineSettles(cfg, OnTick(cfg, s0, t0).state);
    assert [t0, t1][1..] == [t1];
    assert Drive(cfg, s0, [t0, t1]) == Drive(cfg, OnTick(cfg, s0, t0).state, [t1]);
  }

  /** The same late deadline on a thread that was waiting for nothing leaves the question standing:
      the second write is skipped because it equals what the pre-flight read. */
  lemma LateDeadlineSkipsTheWrite(cfg: Config, target: Support, fin: Final)
    requires cfg.threads && cfg.capped
    ensures var script := [Quietly(Yields(ASKS), Took("m1")), Quietly(TimedOut, Missed(false))];
      var r := Finish(cfg, Begin(false, target, []), script, fin);
      r.settles == [["a.pdf"], []] && r.stored == ["a.pdf"]
  {
    hide OnTick;
    var t0, t1 := Quietly(Yields(ASKS), Took("m1")), Quietly(TimedOut, Missed(false));
    var s0 := Begin(false, target, []);
    AsksAreStored(cfg, target, []);
    DeadlineSettles(cfg, OnTick(cfg, s0, t0).state);
    assert [t0, t1][1..] == [t1];
    assert Drive(cfg, s0, [t0, t1]) == Drive(cfg, OnTick(cfg, s0, t0).state, [t1]);
  }

  lemma AsksAreStored(cfg: Config, target: Support, stored: seq<string>)
    requires cfg.threads && stored != ["a.pdf"]
    ensures var r := OnTick(cfg, Begin(false, target, stored), Quietly(Yields(ASKS), Took("m1")));
      && r.Going? && r.state.settles == [["a.pdf"]] && r.state.stored == ["a.pdf"] && r.state.terminal
      && !r.state.cut && r.state.message.Some? && r.state.finals == [ASKS] && r.state.pending == stored
  {
    hide Enrich, TurnContent, MarkIncomplete, WithNotice, PendingOptions;
    AsksDeclares();
  }

  lemma DeadlineSettles(cfg: Config, s: State)
    requires cfg.threads && cfg.capped && s.message.Some? && !s.cut
    ensures var r := OnTick(cfg, s, Quietly(TimedOut, Missed(false)));
      && r.Stopped? && r.state.terminal && r.state.settles == s.settles + [[]]
      && r.state.finals == s.finals
      && r.state.stored == if s.pending == [] then s.stored else []
  {
  }

  lemma AsksDeclares()
    ensures PendingOptions(Get(ASKS.data, PENDING_KEY)) == ["a.pdf"]
  {
    assert |PENDING_KEY| != |"text"|;
    assert Get(ASKS.data, PENDING_KEY) == JList([JText("a.pdf")]);
    assert [JText("a.pdf")][1..] == [];
    assert !IsSpace("a.pdf"[0]);
    assert TextItems([JText("a.pdf")]) == ["a.pdf"] + TextItems([]);
  }

  const NULLS := Event("final", map["text" := JText("done"), PENDING_KEY := JNull])

  /** An agent that sets the internal key to null: the final frame goes out with the key in it, whether or
      not messages are kept. */
  lemma NullKeyReachesTheClient(cfg: Config, target: Support, stored: seq<string>, fin: Final)
    ensures var r := Finish(cfg, Begin(false, target, stored), [Quietly(Yields(NULLS), Took("m1"))], fin);
      && |r.frames| == 1 && r.frames[0].AgentFrame? && r.frames[0].raw == NULLS
      && PENDING_KEY in r.frames[0].event.data
  {
    hide OnTick, SettleCut;
    var t, s0 := Quietly(Yields(NULLS), Took("m1")), Begin(false, target, stored);
    NullGoesOut(cfg, target, stored);
    assert [t][1..] == [];
    assert Drive(cfg, s0, [t]) == Drive(cfg, OnTick(cfg, s0, t).state, []);
    FinalsAreDisclosedAlike(cfg, false, target, stored, [t], fin, 0);
  }

  lemma NullGoesOut(cfg: Config, target: Support, stored: seq<string>)
    ensures var r := OnTick(cfg, Begin(false, target, stored), Quietly(Yields(NULLS), Took("m1")));
      && r.Going? && r.state.terminal && |r.state.frames| == 1 && r.state.frames[0].AgentFrame?
      && r.state.frames[0].raw == NULLS
  {
    hide TurnContent, MarkIncomplete, WithNotice, PendingOptions, TokenCount, Enrich, StripPending;
  }

  /** A reader who disconnects while the text of a failed turn is being kept: nothing is settled, and the
      question of an earlier turn stands although this turn has ended. */
  lemma CutErrorKeepsTheOldQuestion(cfg: Config, target: Support, fin: Final)
    requires cfg.threads
    ensures var script := [Quietly(Yields(TOKEN), Missed(false)), Quietly(Yields(ERROR), Cut(false))];
      var r := Finish(cfg, Begin(false, target, ["old.pdf"]), script, fin);
      r.settles == [] && r.stored == ["old.pdf"] && r.finals == [] && r.terminal
  {
    var t0, t1 := Quietly(Yields(TOKEN), Missed(false)), Quietly(Yields(ERROR), Cut(false));
    var s0 := Begin(false, target, ["old.pdf"]);
    assert Get(TOKEN.data, "delta") == JText("half an answer");
    var s1 := OnTick(cfg, s0, t0).state;
    assert s1.streamed == ["half an answer"] && s1.message.None? && s1.world == s0.world;
    assert [t0, t1][1..] == [t1];
    assert Drive(cfg, s0, [t0, t1]) == Drive(cfg, s1, [t1]);
    TextToKeep(cfg, s1);
    assert OnTick(cfg, s1, t1).Stopped?;
  }

  lemma TextToKeep(cfg: Config, s: State)
    requires cfg.threads && s.message.None? && s.streamed == ["half an answer"]
    ensures KeepsText(cfg, s)
  {
    assert ["half an answer"][1..] == [];
    assert Concat(s.streamed) == "half an answer" + "";
    assert !IsSpace(Concat(s.streamed)[0]);
  }

  /** A failed turn whose text the store keeps without saying so: the abandonment net keeps it again, and
      the thread has two messages for one turn. */
  lemma UnreportedAppendIsRepeated(cfg: Config, target: Support)
    requires cfg.threads
    ensures var script := [Quietly(Yields(TOKEN), Missed(false)), Quietly(Crashed, Missed(true))];
      var fin := Final(Took("m2"), Took(()), true);
      var r := Finish(cfg, Begin(false, target, []), script, fin);
      |r.appends| == 2 && Stored(r.appends) == 2 && r.finals == [] && r.appends[0].text == r.appends[1].text
  {
    var t0, t1 := Quietly(Yields(TOKEN), Missed(false)), Quietly(Crashed, Missed(true));
    var fin := Final(Took("m2"), Took(()), true);
    var s0 := Begin(false, target, []);
    TokenIsKept(cfg, target);
    var s1 := OnTick(cfg, s0, t0).state;
    TextToKeep(cfg, s1);
    CrashKeepsUnreported(cfg, s1, t1);
    var s2 := OnTick(cfg, s1, t1).state;
    assert [t0, t1][1..] == [t1];
    assert Drive(cfg, s0, [t0, t1]) == Drive(cfg, s1, [t1]) == OnTick(cfg, s1, t1);
    TextToKeep(cfg, s2);
    NetKeepsAgain(cfg, s2, fin);
  }

  lemma CrashKeepsUnreported(cfg: Config, s: State, t: Tick)
    requires KeepsText(cfg, s) && !s.cut && s.appends == [] && !s.world.flags.switched
    requires t.pull.Crashed? && t.ops == [] && t.append == Missed(true)
    ensures var r := OnTick(cfg, s, t);
      && r.Stopped? && r.state.terminal == s.terminal && r.state.message.None?
      && r.state.streamed == s.streamed && r.state.finals == s.finals && r.state.world == s.world
      && |r.state.appends| == 1 && Stored(r.state.appends) == 1
      && r.state.appends[0].text == MarkIncomplete(Concat(s.streamed))
  {
    assert Stored(s.appends) == 0;
    hide MarkIncomplete, TokenCount, Stored, Applied, Reported, Concat, Blank;
    SettleCutKeeps(cfg, s, t.append, t.put);
    AppliedOne(t.append);
  }

  lemma NetKeepsAgain(cfg: Config, s: State, fin: Final)
    requires cfg.threads && !s.terminal && s.message.None? && KeepsText(cfg, s) && |s.appends| == 1
    requires Stored(s.appends) == 1 && s.appends[0].text == MarkIncomplete(Concat(s.streamed))
    requires s.world == Start(false, s.world.target) && fin.append.Took?
    ensures var r := Net(cfg, s, fin);
      && Stored(r.appends) == 2 && r.finals == s.finals && |r.appends| == 2
      && r.appends[0].text == r.appends[1].text
  {
    hide MarkIncomplete, TokenCount;
    NetKeeps(cfg, s, fin);
    AppliedOne(fin.append);
  }
}
