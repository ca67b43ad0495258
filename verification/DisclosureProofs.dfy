/** The fallback of a turn is disclosed once, in time, and everywhere alike: in the notice, on the
    final frame and at the head of the stored reply. */
module DisclosureProofs {
  import opened Wrappers
  import opened Text
  import opened Metering
  import opened Fallback
  import opened FallbackProofs
  import opened Turn
  import opened TurnProofs
  import opened AfterFinal

  function Notices(frames: seq<Frame>): nat {
    if frames == [] then 0
    else Notices(frames[..|frames| - 1]) + (if frames[|frames| - 1].NoticeFrame? then 1 else 0)
  }

  predicate NoticeBefore(frames: seq<Frame>, i: nat)
    requires i <= |frames|
  {
    exists j :: 0 <= j < i && frames[j].NoticeFrame?
  }

  predicate Closing(f: Frame) {
    f.AgentFrame? && f.raw.kind == "final"
  }

  /** A final frame carries the fallback pair exactly as the turn had switched when it went out. */
  predicate PairAgrees(cfg: Config, f: Frame) {
    Closing(f) ==>
      Get(f.event.data, FALLBACK_KEY) == if f.switched then cfg.pair else Get(f.raw.data, FALLBACK_KEY)
  }

  /** The internal key stands on a final frame exactly if the agent gave it the value null. */
  predicate KeyAgrees(f: Frame) {
    Closing(f) ==>
      (PENDING_KEY in f.event.data
       <==> PENDING_KEY in f.raw.data && f.raw.data[PENDING_KEY] == JNull)
  }

  /** A stored text is headed by the notice exactly as the turn had switched when it was written. */
  predicate HeadAgrees(cfg: Config, a: Append) {
    var headed := WithNotice(a.body, a.switched, cfg.notice);
    a.text == if a.partial then MarkIncomplete(headed) else headed
  }

  /** `a` is the reply written for the final event that went out as `f`. */
  predicate Answers(a: Append, f: Frame) {
    Closing(f) && !a.partial && a.finals == f.finals
  }

  // ------------------------------------------------------------------ the invariant

  /** At most one notice, and only of a turn that has switched. */
  predicate Noticed(flags: Flags, frames: seq<Frame>) {
    && (flags.announced ==> flags.switched)
    && Notices(frames) == (if flags.announced then 1 else 0)
    && (flags.announced <==> NoticeBefore(frames, |frames|))
  }

  /** Every agent event forwarded after the switch comes after the notice, and every one that follows
      the notice was forwarded after the switch. */
  predicate FramesAgree(cfg: Config, frames: seq<Frame>, finals: nat) {
    forall i :: 0 <= i < |frames| && frames[i].AgentFrame? ==>
      && (frames[i].switched <==> NoticeBefore(frames, i))
      && PairAgrees(cfg, frames[i]) && KeyAgrees(frames[i]) && frames[i].finals <= finals
  }

  /** No text is headed by the notice of a turn that has not switched. */
  predicate AppendsAgree(cfg: Config, appends: seq<Append>, switched: bool, finals: nat) {
    forall j :: 0 <= j < |appends| ==>
      HeadAgrees(cfg, appends[j]) && (appends[j].switched ==> switched) && appends[j].finals <= finals
  }

  /** Every reply to a final frame had the same switch as the frame; and where messages are kept, every
      final frame has one. */
  predicate RepliesAgree(threads: bool, frames: seq<Frame>, appends: seq<Append>) {
    && (forall i, j :: 0 <= i < |frames| && 0 <= j < |appends| && Answers(appends[j], frames[i])
          ==> appends[j].switched == frames[i].switched)
    && (threads ==> forall i :: 0 <= i < |frames| && Closing(frames[i]) ==> HasReply(appends, frames[i]))
  }

  predicate HasReply(appends: seq<Append>, f: Frame) {
    exists j :: 0 <= j < |appends| && Answers(appends[j], f)
  }

  ghost predicate Disclosed(cfg: Config, s: State) {
    && Keeps(s.world)
    && Noticed(s.world.flags, s.frames)
    && FramesAgree(cfg, s.frames, |s.finals|)
    && AppendsAgree(cfg, s.appends, s.world.flags.switched, |s.finals|)
    && RepliesAgree(cfg.threads, s.frames, s.appends)
  }

  lemma StepOnlyRaises(w: World, op: Op)
    ensures w.flags.switched ==> Do(w, op).flags.switched
    ensures Do(w, op).flags.announced == w.flags.announced
  {
  }

  lemma {:induction false} FlagsOnlyRise(w: World, ops: seq<Op>)
    ensures w.flags.switched ==> DoAll(w, ops).flags.switched
    ensures DoAll(w, ops).flags.announced == w.flags.announced
    decreases |ops|
  {
    hide Do;
    if ops != [] {
      StepOnlyRaises(w, ops[0]);
      FlagsOnlyRise(Do(w, ops[0]), ops[1..]);
    }
  }

  lemma FrameAppended(frames: seq<Frame>, f: Frame)
    ensures Notices(frames + [f]) == Notices(frames) + (if f.NoticeFrame? then 1 else 0)
    ensures forall i: nat :: i <= |frames| ==> NoticeBefore(frames + [f], i) == NoticeBefore(frames, i)
    ensures NoticeBefore(frames + [f], |frames| + 1) <==> NoticeBefore(frames, |frames|) || f.NoticeFrame?
  {
    assert (frames + [f])[..|frames|] == frames;
    assert forall i :: 0 <= i < |frames| ==> (frames + [f])[i] == frames[i];
    if f.NoticeFrame? {
      assert (frames + [f])[|frames|].NoticeFrame?;
    }
  }

  lemma OpsDisclose(cfg: Config, s: State, ops: seq<Op>)
    requires Disclosed(cfg, s)
    ensures Disclosed(cfg, s.(world := DoAll(s.world, ops)))
  {
    hide Keeps, FramesAgree, RepliesAgree;
    RunKeeps(s.world, ops);
    FlagsOnlyRise(s.world, ops);
  }

  // ------------------------------------------------------------------ one append, one frame

  lemma PartialAppended(cfg: Config, frames: seq<Frame>, appends: seq<Append>, a: Append)
    requires RepliesAgree(cfg.threads, frames, appends) && a.partial
    ensures RepliesAgree(cfg.threads, frames, appends + [a])
  {
    RepliesStay(frames, appends, a);
  }

  lemma RepliesStay(frames: seq<Frame>, appends: seq<Append>, a: Append)
    ensures forall f :: HasReply(appends, f) ==> HasReply(appends + [a], f)
  {
    forall f | HasReply(appends, f) ensures HasReply(appends + [a], f) {
      var j :| 0 <= j < |appends| && Answers(appends[j], f);
      assert (appends + [a])[j] == appends[j];
    }
  }

  /** A reply with a number of its own answers no frame yet. */
  lemma ReplyAppended(cfg: Config, frames: seq<Frame>, appends: seq<Append>, a: Append, n: nat)
    requires RepliesAgree(cfg.threads, frames, appends) && FramesAgree(cfg, frames, n) && n < a.finals
    ensures RepliesAgree(cfg.threads, frames, appends + [a])
  {
    RepliesStay(frames, appends, a);
  }

  lemma OtherFrameAppended(threads: bool, frames: seq<Frame>, appends: seq<Append>, f: Frame)
    requires RepliesAgree(threads, frames, appends) && !Closing(f)
    ensures RepliesAgree(threads, frames + [f], appends)
  {
  }

  lemma FinalFrameAppended(threads: bool, frames: seq<Frame>, appends: seq<Append>, f: Frame)
    requires RepliesAgree(threads, frames, appends) && (threads ==> HasReply(appends, f))
    requires forall j :: 0 <= j < |appends| && Answers(appends[j], f) ==> appends[j].switched == f.switched
    ensures RepliesAgree(threads, frames + [f], appends)
  {
  }

  lemma SettleCutDiscloses(cfg: Config, s: State, append: Awaited<string>, put: Awaited<()>)
    requires Disclosed(cfg, s)
    ensures Disclosed(cfg, SettleCut(cfg, s, append, put))
  {
    hide Keeps, Noticed, FramesAgree, RepliesAgree, MarkIncomplete, WithNotice, TokenCount;
    var r := PersistPartial(cfg, s, append);
    if KeepsText(cfg, s) {
      PartialAppended(cfg, s.frames, s.appends, r.appends[|s.appends|]);
      assert r.appends == s.appends + [r.appends[|s.appends|]];
    }
  }

  lemma AnnounceDiscloses(cfg: Config, s: State)
    requires Disclosed(cfg, s) && NoticeDue(s.world)
    ensures Disclosed(cfg, Announce(cfg, s))
  {
    hide Keeps, AppendsAgree, RepliesAgree;
    FrameAppended(s.frames, NoticeFrame(cfg.notice, cfg.pair));
    OtherFrameAppended(cfg.threads, s.frames, s.appends, NoticeFrame(cfg.notice, cfg.pair));
    AnnouncingKeeps(s.world);
  }

  /** The event that is sent keeps the pair and loses the key, whether or not the reply is stored. */
  lemma FinalEventAgrees(cfg: Config, s: State, event: Event, t: Tick)
    ensures var (r, sent) := OnFinal(cfg, s, event, t);
      && Get(sent.data, FALLBACK_KEY)
         == (if s.world.fallback && s.world.flags.switched then cfg.pair else Get(event.data, FALLBACK_KEY))
      && (!r.cut ==> (PENDING_KEY in sent.data
                      <==> PENDING_KEY in event.data && event.data[PENDING_KEY] == JNull))
  {
    hide TurnContent, MarkIncomplete, WithNotice, TokenCount, PendingOptions, Texts;
    assert |FALLBACK_KEY| != |PENDING_KEY| && |FALLBACK_KEY| != |"message_id"|;
    assert |FALLBACK_KEY| != |"content"| && |FALLBACK_KEY| != |"usage"|;
    assert |PENDING_KEY| != |"message_id"| && |PENDING_KEY| != |"content"| && |PENDING_KEY| != |"usage"|;
  }

  /** A processed final event writes at most one reply, with its own number and the turn's switch; it
      writes one wherever messages are kept, unless it is cancelled. */
  lemma FinalReplies(cfg: Config, s: State, event: Event, t: Tick)
    ensures var r := OnFinal(cfg, s, event, t).0;
      && |r.finals| == |s.finals| + 1
      && (cfg.threads && !r.cut ==> r.appends != s.appends)
      && (r.appends == s.appends
          || (|r.appends| == |s.appends| + 1 && IsReply(cfg, s, r.appends[|s.appends|])
              && r.appends == s.appends + [r.appends[|s.appends|]]))
  {
    hide TurnContent, MarkIncomplete, WithNotice, TokenCount, PendingOptions, Enrich;
  }

  predicate IsReply(cfg: Config, s: State, a: Append) {
    !a.partial && a.finals == |s.finals| + 1 && a.switched == s.world.flags.switched && HeadAgrees(cfg, a)
  }

  lemma AgentFrameAppended(cfg: Config, frames: seq<Frame>, f: Frame, n: nat, m: nat)
    requires FramesAgree(cfg, frames, n) && n <= m
    requires f.AgentFrame? && PairAgrees(cfg, f) && KeyAgrees(f) && f.finals <= m
    requires f.switched <==> NoticeBefore(frames, |frames|)
    ensures FramesAgree(cfg, frames + [f], m)
  {
    hide PairAgrees, KeyAgrees;
    FrameAppended(frames, f);
  }

  /** At a frame the turn has switched exactly if the notice is out. */
  lemma SwitchedIsAnnounced(s: State)
    requires Keeps(s.world) && Noticed(s.world.flags, s.frames) && !NoticeDue(s.world)
    ensures s.world.flags.switched <==> NoticeBefore(s.frames, |s.frames|)
    ensures s.world.flags.switched ==> s.world.fallback
  {
  }

  lemma OtherEventDiscloses(cfg: Config, s: State, event: Event, t: Tick)
    requires Disclosed(cfg, s) && !NoticeDue(s.world) && event.kind != "final" && !s.cut
    ensures Disclosed(cfg, Send(cfg, s, event, t))
  {
    hide Keeps, FramesAgree, RepliesAgree, AppendsAgree, NoticeBefore;
    var f := AgentFrame(event, event, s.world.flags.switched, |s.finals|);
    SwitchedIsAnnounced(s);
    AgentFrameAppended(cfg, s.frames, f, |s.finals|, |s.finals|);
    OtherFrameAppended(cfg.threads, s.frames, s.appends, f);
    FrameAppended(s.frames, f);
  }

  lemma FinalDiscloses(cfg: Config, s: State, event: Event, t: Tick)
    requires Disclosed(cfg, s)
    ensures Disclosed(cfg, OnFinal(cfg, s, event, t).0)
  {
    hide Keeps, Noticed, OnFinal, RepliesAgree, HeadAgrees;
    FinalReplies(cfg, s, event, t);
    var r := OnFinal(cfg, s, event, t).0;
    if r.appends != s.appends {
      ReplyAppended(cfg, s.frames, s.appends, r.appends[|s.appends|], |s.finals|);
    }
  }

  lemma FinalFrameDiscloses(cfg: Config, s: State, r: State, f: Frame)
    requires Disclosed(cfg, s) && Disclosed(cfg, r) && r.frames == s.frames
    requires f.AgentFrame? && PairAgrees(cfg, f) && KeyAgrees(f) && f.finals == |r.finals| == |s.finals| + 1
    requires f.switched <==> NoticeBefore(r.frames, |r.frames|)
    requires if r.appends == s.appends then !cfg.threads
             else |r.appends| > 0 && r.appends[..|r.appends| - 1] == s.appends
                  && Answers(r.appends[|r.appends| - 1], f) && r.appends[|r.appends| - 1].switched == f.switched
    ensures Disclosed(cfg, r.(frames := r.frames + [f]))
  {
    hide Keeps, FramesAgree, RepliesAgree, NoticeBefore, HeadAgrees, PairAgrees, KeyAgrees;
    AgentFrameAppended(cfg, r.frames, f, |r.finals|, |r.finals|);
    FrameAppended(r.frames, f);
    assert forall j :: 0 <= j < |s.appends| ==> r.appends[j] == s.appends[j];
    assert r.appends != s.appends ==> HasReply(r.appends, f);
    FinalFrameAppended(cfg.threads, r.frames, r.appends, f);
  }

  lemma FinalEventDiscloses(cfg: Config, s: State, event: Event, t: Tick)
    requires Disclosed(cfg, s) && !NoticeDue(s.world) && event.kind == "final"
    ensures Disclosed(cfg, Send(cfg, s, event, t))
  {
    hide Keeps, OnFinal, FramesAgree, RepliesAgree, AppendsAgree, NoticeBefore;
    FinalDiscloses(cfg, s, event, t);
    var (r, sent) := OnFinal(cfg, s, event, t);
    if !r.cut {
      FinalReplies(cfg, s, event, t);
      FinalEventAgrees(cfg, s, event, t);
      SwitchedIsAnnounced(s);
      FinalFrameDiscloses(cfg, s, r, AgentFrame(sent, event, r.world.flags.switched, |r.finals|));
    }
  }

  lemma ReceiveDiscloses(cfg: Config, s: State, event: Event, t: Tick)
    requires Disclosed(cfg, s)
    ensures Disclosed(cfg, Receive(cfg, s, event, t))
  {
    hide Keeps, Noticed, FramesAgree, RepliesAgree, AppendsAgree, SettleCut;
    SettleCutDiscloses(cfg, OnToken(s, event).(terminal := true), t.append, t.put);
  }

  lemma EventDiscloses(cfg: Config, s: State, event: Event, t: Tick)
    requires Disclosed(cfg, s)
    ensures Disclosed(cfg, OnEvent(cfg, s, event, t).state)
  {
    hide Disclosed, Receive, Send, OnToken;
    ReceiveDiscloses(cfg, s, event, t);
    var received := Receive(cfg, s, event, t);
    if !received.cut {
      var told := if NoticeDue(received.world) then Announce(cfg, received) else received;
      if NoticeDue(received.world) {
        AnnounceDiscloses(cfg, received);
      }
      if event.kind == "final" {
        FinalEventDiscloses(cfg, told, event, t);
      } else {
        OtherEventDiscloses(cfg, told, event, t);
      }
    }
  }

  lemma TimeoutDiscloses(cfg: Config, s: State)
    requires Disclosed(cfg, s)
    ensures Disclosed(cfg, s.(frames := s.frames + [TimeoutFrame]))
  {
    hide Keeps, AppendsAgree, RepliesAgree;
    FrameAppended(s.frames, TimeoutFrame);
    OtherFrameAppended(cfg.threads, s.frames, s.appends, TimeoutFrame);
  }

  /** Whether a turn is closed or unwinding does not matter here. */
  lemma MarksDisclose(cfg: Config, s: State, terminal: bool, cut: bool)
    requires Disclosed(cfg, s)
    ensures Disclosed(cfg, s.(terminal := terminal, cut := cut))
  {
  }

  lemma CutTickDiscloses(cfg: Config, s: State, t: Tick)
    requires Disclosed(cfg, s) && !t.pull.Yields?
    ensures Disclosed(cfg, OnTick(cfg, s, t).state)
  {
    hide Disclosed, SettleCut;
    OpsDisclose(cfg, s, t.ops);
    var s0 := s.(world := DoAll(s.world, t.ops));
    MarksDisclose(cfg, s0, true, s0.cut);
    SettleCutDiscloses(cfg, s0, t.append, t.put);
    SettleCutDiscloses(cfg, s0.(terminal := true), t.append, t.put);
    TimeoutDiscloses(cfg, SettleCut(cfg, s0.(terminal := true), t.append, t.put));
  }

  lemma TickDiscloses(cfg: Config, s: State, t: Tick)
    requires Disclosed(cfg, s)
    ensures Disclosed(cfg, OnTick(cfg, s, t).state)
  {
    hide Disclosed, OnEvent;
    if t.pull.Yields? {
      OpsDisclose(cfg, s, t.ops);
      EventDiscloses(cfg, s.(world := DoAll(s.world, t.ops)), t.pull.event, t);
    } else {
      CutTickDiscloses(cfg, s, t);
    }
  }

  lemma NetDiscloses(cfg: Config, s: State, fin: Final)
    requires Disclosed(cfg, s)
    ensures Disclosed(cfg, Net(cfg, s, fin))
  {
    hide Disclosed, SettleCut;
    MarksDisclose(cfg, s, s.terminal, false);
    SettleCutDiscloses(cfg, s.(cut := false), fin.append, fin.put);
  }

  lemma {:induction false} TurnDiscloses(cfg: Config, s: State, script: seq<Tick>, fin: Final)
    requires Disclosed(cfg, s)
    ensures Disclosed(cfg, Finish(cfg, s, script, fin))
    decreases |script|
  {
    hide Disclosed, OnTick, Net;
    if script == [] {
      NetDiscloses(cfg, s, fin);
    } else {
      TickDiscloses(cfg, s, script[0]);
      var step := OnTick(cfg, s, script[0]);
      if step.Going? {
        TurnDiscloses(cfg, step.state, script[1..], fin);
      } else {
        NetDiscloses(cfg, step.state, fin);
      }
    }
  }

  lemma BeginDiscloses(cfg: Config, fallback: bool, target: Support, stored: seq<string>)
    ensures Disclosed(cfg, Begin(fallback, target, stored))
  {
    StartKeeps(fallback, target);
  }

  // ------------------------------------------------------------------ every run

  /** Every run, whatever fails and however it ends: there is at most one notice, only if the local
      model answered; and for each final event that went out, the pair is on its frame, the notice
      stands before it, and every reply written to it is headed by the notice, all three or none; where
      messages are kept there is such a reply. The internal key is on the frame exactly if the agent
      gave it the value null. */
  lemma FinalsAreDisclosedAlike(cfg: Config, fallback: bool, target: Support, stored: seq<string>,
                                script: seq<Tick>, fin: Final, i: nat)
    requires var r := Finish(cfg, Begin(fallback, target, stored), script, fin);
      i < |r.frames| && Closing(r.frames[i])
    ensures var r := Finish(cfg, Begin(fallback, target, stored), script, fin);
      var f, told := r.frames[i], NoticeBefore(r.frames, i);
      && Notices(r.frames) <= 1 && (told ==> TargetAnswered(r.world.log))
      && Get(f.event.data, FALLBACK_KEY) == (if told then cfg.pair else Get(f.raw.data, FALLBACK_KEY))
      && (forall j :: 0 <= j < |r.appends| && Answers(r.appends[j], f) ==>
            r.appends[j].text == WithNotice(r.appends[j].body, told, cfg.notice))
      && (cfg.threads ==> HasReply(r.appends, f))
      && (PENDING_KEY in f.event.data <==> PENDING_KEY in f.raw.data && f.raw.data[PENDING_KEY] == JNull)
  {
    hide Finish, WithNotice, MarkIncomplete;
    BeginDiscloses(cfg, fallback, target, stored);
    TurnDiscloses(cfg, Begin(fallback, target, stored), script, fin);
  }

  // ------------------------------------------------------------------ the end of the turn

  predicate NoCalls(script: seq<Tick>) {
    forall i :: 0 <= i < |script| ==> script[i].ops == []
  }

  /** The frames of `s` stand, and the world is that of `s`. */
  predicate Stands(s: State, r: State) {
    r.world == s.world && s.frames <= r.frames
  }

  lemma EventAddsFrames(cfg: Config, s: State, event: Event, t: Tick)
    requires !NoticeDue(s.world)
    ensures Stands(s, OnEvent(cfg, s, event, t).state)
  {
    hide OnFinal, SettleCut, OnToken, TokenCount;
  }

  lemma TickAddsFrames(cfg: Config, s: State, t: Tick)
    requires !NoticeDue(s.world) && t.ops == []
    ensures Stands(s, OnTick(cfg, s, t).state)
  {
    hide OnEvent, SettleCut;
    if t.pull.Yields? {
      EventAddsFrames(cfg, s, t.pull.event, t);
    }
  }

  lemma {:induction false} RestAddsFrames(cfg: Config, s: State, script: seq<Tick>, fin: Final)
    requires !NoticeDue(s.world) && NoCalls(script)
    ensures Stands(s, Finish(cfg, s, script, fin))
    decreases |script|
  {
    hide OnTick, SettleCut;
    if script != [] {
      TickAddsFrames(cfg, s, script[0]);
      if OnTick(cfg, s, script[0]).Going? {
        RestAddsFrames(cfg, OnTick(cfg, s, script[0]).state, script[1..], fin);
      }
    }
  }

  /** The tick's event went out. */
  predicate Forwards(s: State, r: State) {
    |s.frames| < |r.frames| && r.frames[|r.frames| - 1].AgentFrame?
  }

  lemma ForwardedIsTold(cfg: Config, s: State, t: Tick)
    requires t.pull.Yields? && Forwards(s, OnTick(cfg, s, t).state)
    ensures !NoticeDue(OnTick(cfg, s, t).state.world)
  {
    hide OnFinal, SettleCut, OnToken;
  }

  lemma {:induction false} ReachedDiscloses(cfg: Config, s: State, before: seq<Tick>)
    requires Disclosed(cfg, s) && Reached(cfg, s, before).Some?
    ensures Disclosed(cfg, Reached(cfg, s, before).value)
    decreases |before|
  {
    hide Disclosed, OnTick;
    if before != [] {
      TickDiscloses(cfg, s, before[0]);
      ReachedDiscloses(cfg, OnTick(cfg, s, before[0]).state, before[1..]);
    }
  }

  /** A turn whose agent makes no call after an event that went out: at its end the turn has switched
      if and only if the reader was told once, if and only if the notice stands before that event. */
  lemma SwitchedIsToldIff(cfg: Config, fallback: bool, target: Support, stored: seq<string>,
                          before: seq<Tick>, t: Tick, rest: seq<Tick>, fin: Final)
    requires var start := Begin(fallback, target, stored);
      && Reached(cfg, start, before).Some? && t.pull.Yields? && NoCalls(rest)
      && Forwards(Reached(cfg, start, before).value, OnTick(cfg, Reached(cfg, start, before).value, t).state)
    ensures var start := Begin(fallback, target, stored);
      var n := |OnTick(cfg, Reached(cfg, start, before).value, t).state.frames| - 1;
      var r := Finish(cfg, start, before + ([t] + rest), fin);
      && 0 <= n < |r.frames|
      && r.frames[n] == OnTick(cfg, Reached(cfg, start, before).value, t).state.frames[n]
      && (r.world.flags.switched <==> Notices(r.frames) == 1)
      && (r.world.flags.switched <==> NoticeBefore(r.frames, n))
      && (fallback ==> (r.world.flags.switched <==> TargetAnswered(r.world.log)))
  {
    hide OnTick, Net, Drive, Keeps, Reached, NoticeBefore;
    var start := Begin(fallback, target, stored);
    var m := Reached(cfg, start, before).value;
    var step := OnTick(cfg, m, t);
    var r := Finish(cfg, start, before + ([t] + rest), fin);
    BeginDiscloses(cfg, fallback, target, stored);
    TurnDiscloses(cfg, start, before + ([t] + rest), fin);
    ReachedDiscloses(cfg, start, before);
    TickDiscloses(cfg, m, t);
    ForwardedIsTold(cfg, m, t);
    FinishFrom(cfg, start, before, [t] + rest, fin);
    FinishFinal(cfg, m, t, rest, fin);
    if step.Going? {
      RestAddsFrames(cfg, step.state, rest, fin);
    } else {
      NetAddsFrames(cfg, step.state, fin);
    }
    SwitchedIsAnnounced(step.state);
    PrefixNotices(step.state.frames, r.frames);
    FinishKeepsFallback(cfg, start, before + ([t] + rest), fin);
    SwitchedMeans(r.world);
  }

  lemma NetAddsFrames(cfg: Config, s: State, fin: Final)
    ensures Stands(s, Net(cfg, s, fin))
  {
  }

  /** A frame that is no notice stands behind a notice exactly if one stands before or at it. */
  lemma PrefixNotices(frames: seq<Frame>, more: seq<Frame>)
    requires frames <= more && frames != [] && !frames[|frames| - 1].NoticeFrame?
    ensures NoticeBefore(more, |frames| - 1) <==> NoticeBefore(frames, |frames|)
  {
    assert forall j :: 0 <= j < |frames| ==> more[j] == frames[j];
  }

  lemma FinishKeepsFallback(cfg: Config, s: State, script: seq<Tick>, fin: Final)
    requires Keeps(s.world)
    ensures Finish(cfg, s, script, fin).world.fallback == s.world.fallback
  {
    DriveKeepsWorld(cfg, s, script);
  }

  lemma SwitchedMeans(w: World)
    requires Keeps(w)
    ensures w.fallback ==> (w.flags.switched <==> TargetAnswered(w.log))
  {
  }
}
