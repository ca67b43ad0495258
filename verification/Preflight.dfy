/** A whole turn from its admission on: `_begin_turn` and what becomes of the stream it hands back;
    src/app/agents/orchestrator.py. One ledger of the usage ports runs through all of it. */
module Preflight {
  import opened Wrappers
  import opened Text
  import opened Metering
  import opened Fallback
  import opened Billing
  import opened Turn

  /** How the admission ends. `Denied` is everything up to it that raises; `Dropped` is a cancellation
      inside the reservation, which the store may have taken all the same. */
  datatype Admission = Denied | Unlimited | Reserved(slot: nat) | Dropped(held: Option<nat>)

  /** How one of the steps under the guard ends; only `Raises` is an Exception. */
  datatype Outcome = Passes | Raises | Interrupted

  /** The admission, then the dependencies, the agent, and the opened thread. */
  datatype Start = Start(admission: Admission, build: Outcome, create: Outcome, open: Outcome)

  /** What the caller does with the stream it is handed. */
  datatype Reader = NeverPulls | Pulls(script: seq<Tick>, fin: Final)

  datatype WholeTurn = WholeTurn(start: Start, fallback: bool, target: Support, stored: seq<string>,
                                 reader: Reader)

  // ------------------------------------------------------------------ the specification

  /** The first of the three steps that does not pass, or `Passes`. */
  function Guarded(s: Start): Outcome {
    if s.build != Passes then s.build else if s.create != Passes then s.create else s.open
  }

  function SlotOf(a: Admission): Option<nat> {
    if a.Reserved? then Some(a.slot) else None
  }

  predicate Admitted(a: Admission) {
    a.Unlimited? || a.Reserved?
  }

  predicate HandsBack(s: Start) {
    Admitted(s.admission) && Guarded(s) == Passes
  }

  /** Where the loop of a pulled turn ends. */
  function EndOf(cfg: Config, t: WholeTurn): State
    requires t.reader.Pulls?
  {
    Drive(cfg, Begin(t.fallback, t.target, t.stored), t.reader.script).state
  }

  /** Every call a turn makes on the usage ports. */
  function LedgerOf(cfg: Config, t: WholeTurn): seq<LedgerCall> {
    if !Admitted(t.start.admission) then []
    else
      match Guarded(t.start)
      case Raises => GiveBack(cfg.seams, SlotOf(t.start.admission))
      case Interrupted => []
      case Passes =>
        if t.reader.NeverPulls? then []
        else Bill(cfg, EndOf(cfg, t), SlotOf(t.start.admission), t.reader.fin)
  }

  // ------------------------------------------------------------------ the code

  /** `_begin_turn`: the generator, or null where it raises. */
  method BeginTurn(cfg: Config, ports: UsagePorts, t: WholeTurn) returns (run: TurnRun?)
    modifies ports
    ensures run != null <==> HandsBack(t.start)
    ensures run != null ==>
      && fresh(run) && run.cfg == cfg && run.ports == ports && run.slot == SlotOf(t.start.admission)
      && run.Snapshot() == Begin(t.fallback, t.target, t.stored) && ports.calls == old(ports.calls)
    ensures run == null ==> ports.calls == old(ports.calls) + LedgerOf(cfg, t)
  {
    var slot: Option<nat> := None;
    match t.start.admission {
      case Denied => return null;
      case Dropped(_) => return null;
      case Unlimited =>
      case Reserved(taken) => slot := Some(taken);
    }
    var failed := Passes;
    if t.start.build != Passes {
      failed := t.start.build;
    } else if t.start.create != Passes {
      failed := t.start.create;
    } else {
      failed := t.start.open;
    }
    match failed {
      case Raises =>
        ports.Attempt(GiveBack(cfg.seams, slot));
        return null;
      case Interrupted =>
        return null;
      case Passes =>
        run := new TurnRun(cfg, slot, ports, t.fallback, t.target, t.stored);
    }
  }

  /** A turn to its end, whoever ends it. */
  method PlayTurn(cfg: Config, ports: UsagePorts, t: WholeTurn)
    modifies ports
    ensures ports.calls == old(ports.calls) + LedgerOf(cfg, t)
  {
    var run := BeginTurn(cfg, ports, t);
    if run != null && t.reader.Pulls? {
      var how := run.Metered(t.reader.script, t.reader.fin);
    }
  }
}
