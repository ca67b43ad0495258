/** Quota slots and bills over whole turns, from the admission to the end of the `finally`. */
module SlotProofs {
  import opened Wrappers
  import opened Text
  import opened Metering
  import opened Fallback
  import opened FallbackProofs
  import opened Billing
  import opened Turn
  import opened TurnProofs
  import opened Preflight

  // ------------------------------------------------------------------ the bill

  /** What the deliveries of the turn cost, read from the log alone. */
  ghost function Owed(cfg: Config, w: World): Charge {
    var calls := Consumed(Deliveries(w.log));
    Charge(if TargetAnswered(w.log) && !PrimaryDelivered(w.log) then cfg.targetRoute else cfg.route,
           PromptSum(calls), CompletionSum(calls), Estimated(calls))
  }

  /** Capture is wired and the log holds something to charge. */
  ghost predicate Owes(cfg: Config, w: World) {
    cfg.seams.capture && Owed(cfg, w).prompt + Owed(cfg, w).completion > 0
  }

  /** A store call of the abandonment net is reached and cancelled. */
  predicate NetCancelled(cfg: Config, end: State, fin: Final) {
    && !end.terminal && cfg.threads
    && (if KeepsText(cfg, end) && fin.append.Cut? then true else end.pending != [] && fin.put.Cut?)
  }

  lemma EndKeeps(cfg: Config, t: WholeTurn)
    requires t.reader.Pulls?
    ensures Keeps(EndOf(cfg, t).world) && EndOf(cfg, t).world.fallback == t.fallback
  {
    StartKeeps(t.fallback, t.target);
    DriveKeepsWorld(cfg, Begin(t.fallback, t.target, t.stored), t.reader.script);
  }

  /** Meter and flags say what the log says, whatever happened in the turn. */
  lemma ChargeIsOwed(cfg: Config, w: World)
    requires Keeps(w)
    ensures ChargeFor(BilledRoute(cfg, w), Calls(w)) == Owed(cfg, w)
    ensures Billable(cfg.seams, Calls(w)) <==> Owes(cfg, w)
  {
    MeterIsConsumed(Deliveries(w.log));
    assert Calls(w) == Consumed(Deliveries(w.log));
  }

  lemma NetCutIff(cfg: Config, end: State, fin: Final)
    ensures Net(cfg, end, fin).cut <==> NetCancelled(cfg, end, fin)
  {
  }

  /** The whole ledger of a turn that was pulled, however it ended: nothing but the deliveries decides
      the amounts, nothing but who delivered them decides the route, and only a cancelled net or a
      missing price leaves it empty. */
  lemma BillIsWhatWasDelivered(cfg: Config, t: WholeTurn)
    requires HandsBack(t.start) && t.reader.Pulls?
    ensures var w, slot := EndOf(cfg, t).world, SlotOf(t.start.admission);
      LedgerOf(cfg, t)
      == (if NetCancelled(cfg, EndOf(cfg, t), t.reader.fin) then []
          else if !Owes(cfg, w) then GiveBack(cfg.seams, slot)
          else if !t.reader.fin.priced then []
          else if cfg.seams.enforcement && slot.Some? then [Commit(slot.value, Owed(cfg, w))]
          else [Record(Owed(cfg, w))])
  {
    EndKeeps(cfg, t);
    ChargeIsOwed(cfg, EndOf(cfg, t).world);
    NetCutIff(cfg, EndOf(cfg, t), t.reader.fin);
  }

  // ------------------------------------------------------------------ the slot

  /** The store holds the slot because of this turn. */
  predicate Takes(t: WholeTurn, slot: nat) {
    t.start.admission == Reserved(slot) || t.start.admission == Dropped(Some(slot))
  }

  /** The turn gives its slot back: a guarded step raises, or the stream is pulled and neither its net
      is cancelled nor a charge is owed that cannot be priced. */
  ghost predicate GivesUp(cfg: Config, t: WholeTurn) {
    && t.start.admission.Reserved?
    && match Guarded(t.start)
       case Raises => true
       case Interrupted => false
       case Passes =>
         && t.reader.Pulls?
         && !NetCancelled(cfg, EndOf(cfg, t), t.reader.fin)
         && (Owes(cfg, EndOf(cfg, t).world) ==> t.reader.fin.priced)
  }

  /** A slot is settled at most once, by its own turn alone, and exactly when that turn gives it up. */
  lemma SlotIsSettledOnceIff(cfg: Config, t: WholeTurn, slot: nat)
    requires cfg.seams.enforcement
    ensures Settlements(LedgerOf(cfg, t), slot) == if Takes(t, slot) && GivesUp(cfg, t) then 1 else 0
  {
    if HandsBack(t.start) && t.reader.Pulls? {
      BillIsWhatWasDelivered(cfg, t);
    }
    var made := LedgerOf(cfg, t);
    if made != [] {
      assert made[1..] == [];
    }
  }

  /** Everything a platform does on its usage ports for a series of turns. */
  function LedgerOfAll(cfg: Config, turns: seq<WholeTurn>): seq<LedgerCall> {
    if turns == [] then []
    else LedgerOfAll(cfg, turns[..|turns| - 1]) + LedgerOf(cfg, turns[|turns| - 1])
  }

  method PlayAll(cfg: Config, ports: UsagePorts, turns: seq<WholeTurn>)
    modifies ports
    ensures ports.calls == old(ports.calls) + LedgerOfAll(cfg, turns)
  {
    for i := 0 to |turns|
      invariant ports.calls == old(ports.calls) + LedgerOfAll(cfg, turns[..i])
    {
      PlayTurn(cfg, ports, turns[i]);
      assert turns[..i + 1][..i] == turns[..i];
    }
    assert turns[..|turns|] == turns;
  }

  /** How many of the turns take the slot and give it up. */
  ghost function Settlers(cfg: Config, turns: seq<WholeTurn>, slot: nat): nat {
    if turns == [] then 0
    else
      var last := turns[|turns| - 1];
      Settlers(cfg, turns[..|turns| - 1], slot) + if Takes(last, slot) && GivesUp(cfg, last) then 1 else 0
  }

  lemma {:induction false} LedgerCountsSettlers(cfg: Config, turns: seq<WholeTurn>, slot: nat)
    requires cfg.seams.enforcement
    ensures Settlements(LedgerOfAll(cfg, turns), slot) == Settlers(cfg, turns, slot)
  {
    if turns != [] {
      var before, last := turns[..|turns| - 1], turns[|turns| - 1];
      LedgerCountsSettlers(cfg, before, slot);
      SettlementsOfSum(LedgerOfAll(cfg, before), LedgerOf(cfg, last), slot);
      SlotIsSettledOnceIff(cfg, last, slot);
    }
  }

  /** Every slot belongs to one turn. */
  ghost predicate OwnSlots(turns: seq<WholeTurn>) {
    forall i, j, slot: nat :: 0 <= i < j < |turns| && Takes(turns[i], slot) ==> !Takes(turns[j], slot)
  }

  lemma {:induction false} OneSettler(cfg: Config, turns: seq<WholeTurn>, i: nat, slot: nat)
    requires OwnSlots(turns) && i < |turns| && Takes(turns[i], slot)
    ensures Settlers(cfg, turns, slot) == if GivesUp(cfg, turns[i]) then 1 else 0
    decreases |turns|
  {
    var n := |turns| - 1;
    assert OwnSlots(turns[..n]);
    if i == n {
      NoSettler(cfg, turns[..n], slot);
    } else {
      OneSettler(cfg, turns[..n], i, slot);
    }
  }

  lemma {:induction false} NoSettler(cfg: Config, turns: seq<WholeTurn>, slot: nat)
    requires forall i :: 0 <= i < |turns| ==> !Takes(turns[i], slot)
    ensures Settlers(cfg, turns, slot) == 0
  {
    if turns != [] {
      NoSettler(cfg, turns[..|turns| - 1], slot);
    }
  }

  /** Conservation: over any series of turns on one ledger, every slot taken is settled exactly once if
      its own turn gives it up, and stays held until it expires if not; no other turn touches it. */
  lemma SlotsAreConserved(cfg: Config, turns: seq<WholeTurn>, i: nat, slot: nat)
    requires cfg.seams.enforcement && OwnSlots(turns) && i < |turns| && Takes(turns[i], slot)
    ensures Settlements(LedgerOfAll(cfg, turns), slot) == if GivesUp(cfg, turns[i]) then 1 else 0
  {
    LedgerCountsSettlers(cfg, turns, slot);
    OneSettler(cfg, turns, i, slot);
  }

  // ------------------------------------------------------------------ how a slot stays held

  const PASSED := Start(Reserved(7), Passes, Passes, Passes)
  const NOTHING := Final(Took("m"), Took(()), true)

  /** A cancellation inside the reservation, and one inside the pre-flight. */
  lemma InterruptedStartHoldsTheSlot(cfg: Config, target: Support, reader: Reader)
    ensures LedgerOf(cfg, WholeTurn(PASSED.(admission := Dropped(Some(7))), false, target, [], reader)) == []
    ensures LedgerOf(cfg, WholeTurn(PASSED.(open := Interrupted), false, target, [], reader)) == []
  {
  }

  /** A stream that is handed over and never pulled. */
  lemma UnpulledStreamHoldsTheSlot(cfg: Config, target: Support)
    ensures LedgerOf(cfg, WholeTurn(PASSED, false, target, [], NeverPulls)) == []
  {
  }

  /** One answered call that the pricing table does not know. */
  lemma UnpricedChargeHoldsTheSlot(cfg: Config, target: Support)
    requires cfg.seams.capture
    ensures var asks := Tick([Ask("hi", Need(false), Result(3, 5), Result(0, 0))], Exhausted,
                             Took("m"), Took(()), "", false, false);
      LedgerOf(cfg, WholeTurn(PASSED, false, target, [], Pulls([asks], NOTHING.(priced := false)))) == []
  {
    var ask := Ask("hi", Need(false), Result(3, 5), Result(0, 0));
    var asks := Tick([ask], Exhausted, Took("m"), Took(()), "", false, false);
    var t := WholeTurn(PASSED, false, target, [], Pulls([asks], NOTHING.(priced := false)));
    var s := Begin(false, target, []);
    var w := Do(s.world, ask);
    assert [ask][1..] == [];
    assert DoAll(s.world, [ask]) == DoAll(w, []);
    var saw := CallSaw("hi", Answered(Primary, 3, 5));
    assert w.log == [saw];
    assert EndOf(cfg, t).world == w;
    OneAnswerIsMetered(saw);
    assert Calls(w) == [Call("hi", [], Some(3), Some(5))];
    assert Calls(w)[1..] == [];
    assert PromptSum(Calls(w)) == 3 && CompletionSum(Calls(w)) == 5;
  }

  lemma OneAnswerIsMetered(saw: Happening)
    requires saw == CallSaw("hi", Answered(Primary, 3, 5))
    ensures Run(Deliveries([saw])).calls == [Call("hi", [], Some(3), Some(5))]
  {
    assert [saw][..0] == [];
    assert Deliveries([]) == [];
    var part := Delivery.Whole("hi", 3, 5);
    assert Deliveries([saw]) == [part];
    assert [part][..0] == [] && [part][|[part]| - 1] == part;
  }

  /** An abandoned turn whose net is cancelled while it clears the question of the thread. */
  lemma CancelledNetHoldsTheSlot(cfg: Config, target: Support)
    requires cfg.threads
    ensures LedgerOf(cfg, WholeTurn(PASSED, false, target, ["a.pdf"], Pulls([], NOTHING.(put := Cut(false))))) == []
  {
  }

  /** One turn for each way its slot, number 7, stays held on the platform's ledger although the turn
      took it: a cancelled reservation, a cancelled pre-flight, a stream nobody pulls, a price that is
      missing, and a cancelled net. */
  lemma EveryWayASlotStaysHeld(cfg: Config, target: Support)
    requires cfg.threads && cfg.seams.enforcement && cfg.seams.capture
    ensures var asks := Tick([Ask("hi", Need(false), Result(3, 5), Result(0, 0))], Exhausted,
                             Took("m"), Took(()), "", false, false);
      var held := [
        WholeTurn(PASSED.(admission := Dropped(Some(7))), false, target, [], NeverPulls),
        WholeTurn(PASSED.(open := Interrupted), false, target, [], NeverPulls),
        WholeTurn(PASSED, false, target, [], NeverPulls),
        WholeTurn(PASSED, false, target, [], Pulls([asks], NOTHING.(priced := false))),
        WholeTurn(PASSED, false, target, ["a.pdf"], Pulls([], NOTHING.(put := Cut(false))))];
      forall i :: 0 <= i < |held| ==>
        Takes(held[i], 7) && !GivesUp(cfg, held[i]) && Settlements(LedgerOf(cfg, held[i]), 7) == 0
  {
    hide GivesUp, LedgerOf;
    var asks := Tick([Ask("hi", Need(false), Result(3, 5), Result(0, 0))], Exhausted,
                     Took("m"), Took(()), "", false, false);
    var held := [
      WholeTurn(PASSED.(admission := Dropped(Some(7))), false, target, [], NeverPulls),
      WholeTurn(PASSED.(open := Interrupted), false, target, [], NeverPulls),
      WholeTurn(PASSED, false, target, [], NeverPulls),
      WholeTurn(PASSED, false, target, [], Pulls([asks], NOTHING.(priced := false))),
      WholeTurn(PASSED, false, target, ["a.pdf"], Pulls([], NOTHING.(put := Cut(false))))];
    InterruptedStartHoldsTheSlot(cfg, target, NeverPulls);
    UnpulledStreamHoldsTheSlot(cfg, target);
    UnpricedChargeHoldsTheSlot(cfg, target);
    CancelledNetHoldsTheSlot(cfg, target);
    forall i | 0 <= i < |held|
      ensures Takes(held[i], 7) && !GivesUp(cfg, held[i]) && Settlements(LedgerOf(cfg, held[i]), 7) == 0
    {
      assert LedgerOf(cfg, held[i]) == [];
      SlotIsSettledOnceIff(cfg, held[i], 7);
    }
  }
}
