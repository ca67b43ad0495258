/** Per-step billing of a workflow run: `_MeteredSteps` and `WorkflowRun.events` of
    src/app/agents/orchestrator.py. What the engine asks for, what the running step consumes and how
    each pull ends is input. */
module Workflow {
  import opened Wrappers
  import opened Metering
  import opened Billing

  /** A step that was admitted, with everything its provider delivered so far. */
  datatype StepRun = StepRun(agent: string, route: Route, slot: Option<nat>, log: seq<Delivery>)

  /** How `begin_step` ends: it raises before it holds anything, it raises with a slot reserved, or the
      step is admitted. */
  datatype Attempt =
    | Denied
    | Lost(held: nat)
    | Begun(agent: string, route: Route, slot: Option<nat>)

  /** One thing that happens between two pulls: the engine asks for the next step (`priced` says
      whether the step this closes can be priced), or the running step's provider delivers. */
  datatype Act = ForAgent(attempt: Attempt, priced: bool) | Deliver(delivery: Delivery)

  datatype Steps = Steps(open: Option<StepRun>, billed: seq<StepRun>, ledger: seq<LedgerCall>)

  const NO_STEPS := Steps(None, [], [])

  /** The bill of one step: what it delivered, on its own route, against its own slot. */
  function StepBill(seams: Seams, step: StepRun, priced: bool): seq<LedgerCall> {
    Capture(seams, step.route, Run(step.log).calls, step.slot, priced)
  }

  /** `close_step`. */
  function Close(seams: Seams, s: Steps, priced: bool): Steps {
    if s.open.None? then s
    else Steps(None, s.billed + [s.open.value], s.ledger + StepBill(seams, s.open.value, priced))
  }

  function DoAct(seams: Seams, s: Steps, act: Act): Steps {
    match act
    case Deliver(d) =>
      if s.open.None? then s
      else s.(open := Some(s.open.value.(log := s.open.value.log + [d])))
    case ForAgent(attempt, priced) =>
      var closed := Close(seams, s, priced);
      match attempt
      case Denied => closed
      case Lost(_) => closed
      case Begun(agent, route, slot) => closed.(open := Some(StepRun(agent, route, slot, [])))
  }

  function DoActs(seams: Seams, s: Steps, acts: seq<Act>): Steps
    decreases |acts|
  {
    if acts == [] then s else DoActs(seams, DoAct(seams, s, acts[0]), acts[1..])
  }

  // ------------------------------------------------------------------ the run

  /** A step's output event, a terminal error, or anything else, with its payload's name. */
  datatype Event = StepFinal(data: string) | StepError | Progress(data: string)

  datatype Pulled = Exhausted | TimedOut | Crashed | Yields(event: Event)

  /** One turn of the pull loop; `write` is how writing a step output ends, when there is one. */
  datatype Tick = Tick(acts: seq<Act>, pull: Pulled, write: Awaited<()>, leave: bool)

  datatype Status = Running | Completed | Failed

  datatype Frame = Forwarded(event: Event) | DeadlineError

  datatype State = State(steps: Steps, outputs: seq<string>, written: seq<string>, status: Status,
                         frames: seq<Frame>)

  datatype Progressed = Going(state: State) | Stopped(state: State)

  /** The output of a step is collected and written before it goes out. */
  function Collect(s: State, event: Event, write: Awaited<()>): State {
    match event
    case StepFinal(data) =>
      s.(outputs := s.outputs + [data], written := if write.TakesEffect() then s.written + [data] else s.written)
    case StepError => s.(status := Failed)
    case Progress(_) => s
  }

  /** The reader goes away while a step output is being written. */
  predicate CutAtWrite(t: Tick) {
    t.pull.Yields? && t.pull.event.StepFinal? && t.write.Cut?
  }

  function OnTick(seams: Seams, capped: bool, s: State, t: Tick): Progressed {
    var s0 := s.(steps := DoActs(seams, s.steps, t.acts));
    match t.pull
    case Exhausted => Stopped(if s0.status == Running then s0.(status := Completed) else s0)
    case TimedOut =>
      Stopped(if capped then s0.(status := Failed, frames := s0.frames + [DeadlineError]) else s0)
    case Crashed => Stopped(s0)
    case Yields(event) =>
      var s1 := Collect(s0, event, t.write);
      if CutAtWrite(t) then Stopped(s1)
      else
        var s2 := s1.(frames := s1.frames + [Forwarded(event)]);
        if t.leave then Stopped(s2) else Going(s2)
  }

  /** The loop of `events()`; a script that runs out is an engine that ran out of steps. */
  function Drive(seams: Seams, capped: bool, s: State, script: seq<Tick>): State
    decreases |script|
  {
    if script == [] then (if s.status == Running then s.(status := Completed) else s)
    else
      var r := OnTick(seams, capped, s, script[0]);
      if r.Stopped? then r.state else Drive(seams, capped, r.state, script[1..])
  }

  /** With the `finally`: the step that has no successor is closed when the stream ends. */
  function Events(seams: Seams, capped: bool, s: State, script: seq<Tick>, priced: bool): State {
    var r := Drive(seams, capped, s, script);
    r.(steps := Close(seams, r.steps, priced))
  }

  // ------------------------------------------------------------------ the objects

  /** `_MeteredSteps`. */
  class MeteredSteps {
    const seams: Seams
    var open: Option<StepRun>
    ghost var billed: seq<StepRun>
    var ledger: seq<LedgerCall>

    constructor (seams: Seams)
      ensures this.seams == seams && Snapshot() == NO_STEPS
    {
      this.seams := seams;
      open, billed, ledger := None, [], [];
    }

    ghost function Snapshot(): Steps
      reads this
    {
      Steps(open, billed, ledger)
    }

    method CloseStep(priced: bool)
      modifies this
      ensures Snapshot() == Close(seams, old(Snapshot()), priced)
    {
      if open.None? {
        return;
      }
      var step := open.value;
      open := None;
      billed := billed + [step];
      ledger := ledger + Capture(seams, step.route, Run(step.log).calls, step.slot, priced);
    }

    /** `for_agent`: close, ask, and only then open. */
    method ForAgentStep(attempt: Attempt, priced: bool)
      modifies this
      ensures Snapshot() == DoAct(seams, old(Snapshot()), ForAgent(attempt, priced))
    {
      CloseStep(priced);
      if attempt.Begun? {
        open := Some(StepRun(attempt.agent, attempt.route, attempt.slot, []));
      }
    }

    method Meter(delivery: Delivery)
      modifies this
      ensures Snapshot() == DoAct(seams, old(Snapshot()), Deliver(delivery))
    {
      if open.Some? {
        open := Some(open.value.(log := open.value.log + [delivery]));
      }
    }

    method Perform(acts: seq<Act>)
      modifies this
      ensures Snapshot() == DoActs(seams, old(Snapshot()), acts)
    {
      for i := 0 to |acts|
        invariant DoActs(seams, old(Snapshot()), acts) == DoActs(seams, Snapshot(), acts[i..])
      {
        assert acts[i..][0] == acts[i] && acts[i..][1..] == acts[i + 1..];
        match acts[i] {
          case ForAgent(attempt, priced) => ForAgentStep(attempt, priced);
          case Deliver(delivery) => Meter(delivery);
        }
      }
    }
  }

  /** `WorkflowRun`. */
  class WorkflowRun {
    const steps: MeteredSteps
    const capped: bool
    var outputs: seq<string>
    var written: seq<string>
    var status: Status
    var frames: seq<Frame>

    constructor (steps: MeteredSteps, capped: bool)
      ensures this.steps == steps && this.capped == capped
      ensures Snapshot() == State(steps.Snapshot(), [], [], Running, [])
    {
      this.steps, this.capped := steps, capped;
      outputs, written, status, frames := [], [], Running, [];
    }

    ghost function Snapshot(): State
      reads this, steps
    {
      State(steps.Snapshot(), outputs, written, status, frames)
    }

    method PullOnce(t: Tick) returns (going: bool)
      modifies this, steps
      ensures OnTick(steps.seams, capped, old(Snapshot()), t)
           == if going then Going(Snapshot()) else Stopped(Snapshot())
    {
      steps.Perform(t.acts);
      match t.pull {
        case Exhausted =>
          if status == Running {
            status := Completed;
          }
          return false;
        case TimedOut =>
          if capped {
            status := Failed;
            frames := frames + [DeadlineError];
          }
          return false;
        case Crashed =>
          return false;
        case Yields(event) =>
          match event {
            case StepFinal(data) =>
              outputs := outputs + [data];
              if t.write.TakesEffect() {
                written := written + [data];
              }
              if t.write.Cut? {
                return false;
              }
            case StepError =>
              status := Failed;
            case Progress(_) =>
          }
          frames := frames + [Forwarded(event)];
          return !t.leave;
      }
    }

    method PullAll(script: seq<Tick>)
      modifies this, steps
      ensures Snapshot() == Drive(steps.seams, capped, old(Snapshot()), script)
    {
      for i := 0 to |script|
        invariant Drive(steps.seams, capped, old(Snapshot()), script)
               == Drive(steps.seams, capped, Snapshot(), script[i..])
      {
        assert script[i..][0] == script[i] && script[i..][1..] == script[i + 1..];
        var going := PullOnce(script[i]);
        if !going {
          return;
        }
      }
      if status == Running {
        status := Completed;
      }
    }

    /** `events()`, drained or abandoned, to the end of its `finally`. */
    method StreamEvents(script: seq<Tick>, priced: bool)
      modifies this, steps
      ensures Snapshot() == Events(steps.seams, capped, old(Snapshot()), script, priced)
    {
      PullAll(script);
      steps.CloseStep(priced);
    }
  }

  // ------------------------------------------------------------------ the reference reading

  /** What is delivered before the engine asks for another step. */
  function Until(acts: seq<Act>): seq<Delivery> {
    if acts == [] || acts[0].ForAgent? then [] else [acts[0].delivery] + Until(acts[1..])
  }

  /** The steps that began, each with exactly what was delivered while it ran. */
  function Segments(acts: seq<Act>): seq<StepRun> {
    if acts == [] then []
    else if acts[0].ForAgent? && acts[0].attempt.Begun? then
      var b := acts[0].attempt;
      [StepRun(b.agent, b.route, b.slot, Until(acts[1..]))] + Segments(acts[1..])
    else Segments(acts[1..])
  }

  /** Whether the step that runs at the head of `acts` can be priced when it is closed. */
  function PricedAt(acts: seq<Act>, last: bool): bool {
    if acts == [] then last else if acts[0].ForAgent? then acts[0].priced else PricedAt(acts[1..], last)
  }

  /** The bills of those steps, in the order the steps end. */
  function SegmentBills(seams: Seams, acts: seq<Act>, last: bool): seq<LedgerCall> {
    if acts == [] then []
    else if acts[0].ForAgent? && acts[0].attempt.Begun? then
      var b := acts[0].attempt;
      StepBill(seams, StepRun(b.agent, b.route, b.slot, Until(acts[1..])), PricedAt(acts[1..], last))
      + SegmentBills(seams, acts[1..], last)
    else SegmentBills(seams, acts[1..], last)
  }

  /** The open step once everything ahead of it has been delivered. */
  function Grown(open: Option<StepRun>, acts: seq<Act>): seq<StepRun> {
    if open.None? then [] else [open.value.(log := open.value.log + Until(acts))]
  }

  function GrownBill(seams: Seams, open: Option<StepRun>, acts: seq<Act>, last: bool): seq<LedgerCall> {
    if open.None? then [] else StepBill(seams, Grown(open, acts)[0], PricedAt(acts, last))
  }

  /** Everything that will have been billed once the acts are done and the last step is closed. */
  function Billed(s: Steps, acts: seq<Act>): seq<StepRun> {
    s.billed + (Grown(s.open, acts) + Segments(acts))
  }

  function Bills(seams: Seams, s: Steps, acts: seq<Act>, last: bool): seq<LedgerCall> {
    s.ledger + (GrownBill(seams, s.open, acts, last) + SegmentBills(seams, acts, last))
  }

  lemma DeliveryGrows(open: Option<StepRun>, acts: seq<Act>)
    requires acts != [] && acts[0].Deliver? && open.Some?
    ensures Grown(Some(open.value.(log := open.value.log + [acts[0].delivery])), acts[1..])
         == Grown(open, acts)
  {
    assert open.value.log + Until(acts)
        == (open.value.log + [acts[0].delivery]) + Until(acts[1..]);
  }

  /** Where the next step stands after a request for one. */
  function Opened(attempt: Attempt): Option<StepRun> {
    if attempt.Begun? then Some(StepRun(attempt.agent, attempt.route, attempt.slot, [])) else None
  }

  lemma BoundaryCloses(seams: Seams, s: Steps, acts: seq<Act>, last: bool)
    requires acts != [] && acts[0].ForAgent?
    ensures DoAct(seams, s, acts[0])
         == Steps(Opened(acts[0].attempt), s.billed + Grown(s.open, acts),
                  s.ledger + GrownBill(seams, s.open, acts, last))
  {
    if s.open.Some? {
      assert s.open.value.log + [] == s.open.value.log;
    } else {
      assert s.billed + [] == s.billed && s.ledger + [] == s.ledger;
    }
  }

  lemma BoundaryOpens(seams: Seams, acts: seq<Act>, last: bool)
    requires acts != [] && acts[0].ForAgent?
    ensures Segments(acts) == Grown(Opened(acts[0].attempt), acts[1..]) + Segments(acts[1..])
    ensures SegmentBills(seams, acts, last)
         == GrownBill(seams, Opened(acts[0].attempt), acts[1..], last)
            + SegmentBills(seams, acts[1..], last)
  {
    assert [] + Until(acts[1..]) == Until(acts[1..]);
  }

  lemma Regroup<T>(a: seq<T>, b: seq<T>, c: seq<T>)
    ensures (a + b) + c == a + (b + c)
  {
  }

  /** One act changes none of what will have been billed. */
  lemma ActKeepsBills(seams: Seams, s: Steps, acts: seq<Act>, last: bool)
    requires acts != []
    ensures Billed(DoAct(seams, s, acts[0]), acts[1..]) == Billed(s, acts)
    ensures Bills(seams, DoAct(seams, s, acts[0]), acts[1..], last) == Bills(seams, s, acts, last)
  {
    if acts[0].ForAgent? {
      BoundaryCloses(seams, s, acts, last);
      BoundaryOpens(seams, acts, last);
      Regroup(s.billed, Grown(s.open, acts), Segments(acts));
      Regroup(s.ledger, GrownBill(seams, s.open, acts, last), SegmentBills(seams, acts, last));
    } else if s.open.Some? {
      DeliveryGrows(s.open, acts);
    }
  }

  /** Closing after any acts bills the open step, then every step that began, each once, in order. */
  lemma {:induction false} ClosingBillsTheRest(seams: Seams, s: Steps, acts: seq<Act>, last: bool)
    ensures Close(seams, DoActs(seams, s, acts), last)
         == Steps(None, Billed(s, acts), Bills(seams, s, acts, last))
    decreases |acts|
  {
    if acts == [] {
      if s.open.Some? {
        assert s.open.value.log + [] == s.open.value.log;
      }
    } else {
      ClosingBillsTheRest(seams, DoAct(seams, s, acts[0]), acts[1..], last);
      ActKeepsBills(seams, s, acts, last);
    }
  }

  /** The acts of the pulls that really happened. */
  function Performed(seams: Seams, capped: bool, s: State, script: seq<Tick>): seq<Act>
    decreases |script|
  {
    if script == [] then []
    else
      var r := OnTick(seams, capped, s, script[0]);
      script[0].acts + (if r.Stopped? then [] else Performed(seams, capped, r.state, script[1..]))
  }

  lemma {:induction false} DoActsAppend(seams: Seams, s: Steps, left: seq<Act>, right: seq<Act>)
    ensures DoActs(seams, s, left + right) == DoActs(seams, DoActs(seams, s, left), right)
    decreases |left|
  {
    if left == [] {
      assert left + right == right;
    } else {
      assert (left + right)[1..] == left[1..] + right;
      DoActsAppend(seams, DoAct(seams, s, left[0]), left[1..], right);
    }
  }

  lemma {:induction false} DrivePerforms(seams: Seams, capped: bool, s: State, script: seq<Tick>)
    ensures Drive(seams, capped, s, script).steps
         == DoActs(seams, s.steps, Performed(seams, capped, s, script))
    decreases |script|
  {
    if script != [] {
      var r := OnTick(seams, capped, s, script[0]);
      if r.Going? {
        DrivePerforms(seams, capped, r.state, script[1..]);
        DoActsAppend(seams, s.steps, script[0].acts, Performed(seams, capped, r.state, script[1..]));
      } else {
        assert script[0].acts + [] == script[0].acts;
      }
    }
  }

  /** A run that has ended, in whatever way, has billed exactly the steps that began, in order, once
      each, for what was delivered while each of them ran, and leaves no step open. */
  lemma RunBillsItsSteps(seams: Seams, capped: bool, script: seq<Tick>, priced: bool)
    ensures var s := State(NO_STEPS, [], [], Running, []);
      var acts := Performed(seams, capped, s, script);
      Events(seams, capped, s, script, priced).steps
      == Steps(None, Segments(acts), SegmentBills(seams, acts, priced))
  {
    var s := State(NO_STEPS, [], [], Running, []);
    DrivePerforms(seams, capped, s, script);
    ClosingBillsTheRest(seams, NO_STEPS, Performed(seams, capped, s, script), priced);
  }

  /** Asking twice bills once. */
  lemma ClosingIsIdempotent(seams: Seams, s: Steps, priced: bool, again: bool)
    ensures Close(seams, Close(seams, s, priced), again) == Close(seams, s, priced)
  {
  }

  // ------------------------------------------------------------------ the slots of the steps

  /** Act `i` reserves the slot. */
  predicate TakesAt(acts: seq<Act>, i: nat, slot: nat) {
    i < |acts| && acts[i].ForAgent?
    && (acts[i].attempt == Lost(slot) || (acts[i].attempt.Begun? && acts[i].attempt.slot == Some(slot)))
  }

  /** The step that act `i` begins gives its slot back when it is closed: unless a charge is owed for what
      was delivered while it ran, and that charge cannot be priced. */
  predicate GivesUpAt(seams: Seams, acts: seq<Act>, i: nat, last: bool)
    requires i < |acts| && acts[i].ForAgent?
  {
    && acts[i].attempt.Begun?
    && (Billable(seams, Run(Until(acts[i + 1..])).calls) ==> PricedAt(acts[i + 1..], last))
  }

  lemma StepBillSettles(seams: Seams, step: StepRun, priced: bool, slot: nat)
    requires seams.enforcement
    ensures Settlements(StepBill(seams, step, priced), slot)
         == if step.slot == Some(slot) && (Billable(seams, Run(step.log).calls) ==> priced) then 1 else 0
  {
    var bill := StepBill(seams, step, priced);
    if bill != [] {
      assert bill[1..] == [];
    }
  }

  lemma {:induction false} UntakenIsUnsettled(seams: Seams, acts: seq<Act>, last: bool, slot: nat)
    requires seams.enforcement && forall i: nat :: i < |acts| ==> !TakesAt(acts, i, slot)
    ensures Settlements(SegmentBills(seams, acts, last), slot) == 0
  {
    if acts != [] {
      assert forall i: nat :: i < |acts| - 1 ==> TakesAt(acts[1..], i, slot) == TakesAt(acts, i + 1, slot);
      assert !TakesAt(acts, 0, slot);
      UntakenIsUnsettled(seams, acts[1..], last, slot);
      FirstActSettles(seams, acts, last, slot);
    }
  }

  /** The bills of the acts are the bill of the step the first one begins, and the bills of the rest. */
  lemma FirstActSettles(seams: Seams, acts: seq<Act>, last: bool, slot: nat)
    requires seams.enforcement && acts != []
    ensures Settlements(SegmentBills(seams, acts, last), slot)
         == Settlements(SegmentBills(seams, acts[1..], last), slot)
            + (if TakesAt(acts, 0, slot) && GivesUpAt(seams, acts, 0, last) then 1 else 0)
  {
    hide StepBill, Settlements;
    if acts[0].ForAgent? && acts[0].attempt.Begun? {
      var b := acts[0].attempt;
      var step := StepRun(b.agent, b.route, b.slot, Until(acts[1..]));
      var bill := StepBill(seams, step, PricedAt(acts[1..], last));
      SettlementsOfSum(bill, SegmentBills(seams, acts[1..], last), slot);
      StepBillSettles(seams, step, PricedAt(acts[1..], last), slot);
    }
  }

  lemma {:induction false} TakenIsSettledIff(seams: Seams, acts: seq<Act>, last: bool, i: nat, slot: nat)
    requires seams.enforcement && TakesAt(acts, i, slot)
    requires forall j: nat :: j < |acts| && j != i ==> !TakesAt(acts, j, slot)
    ensures Settlements(SegmentBills(seams, acts, last), slot) == if GivesUpAt(seams, acts, i, last) then 1 else 0
    decreases |acts|
  {
    hide GivesUpAt, SegmentBills;
    assert forall j: nat :: j < |acts| - 1 ==> TakesAt(acts[1..], j, slot) == TakesAt(acts, j + 1, slot);
    FirstActSettles(seams, acts, last, slot);
    if i == 0 {
      UntakenIsUnsettled(seams, acts[1..], last, slot);
    } else {
      TakenIsSettledIff(seams, acts[1..], last, i - 1, slot);
      GivesUpLater(seams, acts, i, last);
    }
  }

  lemma GivesUpLater(seams: Seams, acts: seq<Act>, i: nat, last: bool)
    requires 0 < i < |acts| && acts[i].ForAgent?
    ensures GivesUpAt(seams, acts[1..], i - 1, last) == GivesUpAt(seams, acts, i, last)
  {
    assert acts[1..][i - 1] == acts[i] && acts[1..][i..] == acts[i + 1..];
  }

  /** Conservation over every run that reserves each slot once: when the run has ended, in whatever way,
      the slot of a step is settled once if that step gives it up, and otherwise stays held until it
      expires. */
  lemma StepSlotsAreConserved(seams: Seams, capped: bool, script: seq<Tick>, priced: bool, i: nat, slot: nat)
    requires var acts := Performed(seams, capped, State(NO_STEPS, [], [], Running, []), script);
      && seams.enforcement && TakesAt(acts, i, slot)
      && forall j: nat :: j < |acts| && j != i ==> !TakesAt(acts, j, slot)
    ensures var s := State(NO_STEPS, [], [], Running, []);
      Settlements(Events(seams, capped, s, script, priced).steps.ledger, slot)
      == if GivesUpAt(seams, Performed(seams, capped, s, script), i, priced) then 1 else 0
  {
    hide Events, Performed, GivesUpAt;
    RunBillsItsSteps(seams, capped, script, priced);
    TakenIsSettledIff(seams, Performed(seams, capped, State(NO_STEPS, [], [], Running, []), script), priced,
                      i, slot);
  }

  /** A step whose dependencies cannot be assembled after its slot was reserved: nothing gives it back. */
  lemma LostStepHoldsItsSlot(seams: Seams, capped: bool, route: Route, priced: bool)
    requires seams.enforcement && !seams.capture
    ensures var script := [Tick([ForAgent(Begun("one", route, Some(6)), true),
                                 ForAgent(Lost(7), true)], Crashed, Took(()), false)];
      Events(seams, capped, State(NO_STEPS, [], [], Running, []), script, priced).steps.ledger == [Release(6)]
  {
    var acts := [ForAgent(Begun("one", route, Some(6)), true), ForAgent(Lost(7), true)];
    var script := [Tick(acts, Crashed, Took(()), false)];
    var s1 := DoAct(seams, NO_STEPS, acts[0]);
    var s2 := DoAct(seams, s1, acts[1]);
    assert acts[1..][1..] == [];
    assert DoActs(seams, NO_STEPS, acts) == DoActs(seams, s1, acts[1..]) == DoActs(seams, s2, []);
    assert s2 == Steps(None, [StepRun("one", route, Some(6), [])], [Release(6)]);
  }

  // ------------------------------------------------------------------ what the handle reports

  function FinalsOf(frames: seq<Frame>): seq<string> {
    if frames == [] then []
    else
      var last := frames[|frames| - 1];
      FinalsOf(frames[..|frames| - 1])
      + (if last.Forwarded? && last.event.StepFinal? then [last.event.data] else [])
  }

  predicate Bad(f: Frame) {
    f == DeadlineError || f == Forwarded(StepError)
  }

  predicate AnyBad(frames: seq<Frame>) {
    exists i :: 0 <= i < |frames| && Bad(frames[i])
  }

  /** Its outputs are the step outputs that went out, and it says failed exactly when a failure did. */
  predicate Truthful(s: State) {
    s.outputs == FinalsOf(s.frames) && (s.status == Failed <==> AnyBad(s.frames))
  }

  /** The output that a reached tick collected and never sent. */
  function Unsent(seams: Seams, capped: bool, s: State, script: seq<Tick>): seq<string>
    decreases |script|
  {
    if script == [] then []
    else if CutAtWrite(script[0]) then [script[0].pull.event.data]
    else
      var r := OnTick(seams, capped, s, script[0]);
      if r.Stopped? then [] else Unsent(seams, capped, r.state, script[1..])
  }

  /** The engine runs out of steps while it is being pulled. */
  predicate RunsOut(seams: Seams, capped: bool, s: State, script: seq<Tick>)
    decreases |script|
  {
    script == [] || script[0].pull.Exhausted?
    || (OnTick(seams, capped, s, script[0]).Going?
        && RunsOut(seams, capped, OnTick(seams, capped, s, script[0]).state, script[1..]))
  }

  lemma FrameAppended(frames: seq<Frame>, f: Frame)
    ensures FinalsOf(frames + [f])
         == FinalsOf(frames) + (if f.Forwarded? && f.event.StepFinal? then [f.event.data] else [])
    ensures AnyBad(frames + [f]) <==> AnyBad(frames) || Bad(f)
  {
    assert (frames + [f])[..|frames|] == frames;
    assert forall i :: 0 <= i < |frames| ==> (frames + [f])[i] == frames[i];
    assert (frames + [f])[|frames|] == f;
  }

  lemma CollectIsTruthful(s: State, event: Event, write: Awaited<()>)
    requires Truthful(s) && s.status != Completed
    ensures var r := Collect(s, event, write);
      Truthful(r.(frames := r.frames + [Forwarded(event)])) && r.status != Completed
  {
    var r := Collect(s, event, write);
    assert r.outputs == s.outputs + (if event.StepFinal? then [event.data] else []);
    assert r.status == (if event.StepError? then Failed else s.status);
    FrameAppended(s.frames, Forwarded(event));
  }

  /** What one tick leaves the handle saying. */
  predicate TickTruthful(r: Progressed, t: Tick) {
    && (r.state.status == Failed <==> AnyBad(r.state.frames))
    && r.state.outputs == FinalsOf(r.state.frames) + (if CutAtWrite(t) then [t.pull.event.data] else [])
    && (r.state.status == Completed <==> t.pull.Exhausted? && !AnyBad(r.state.frames))
    && (r.Going? ==> t.pull.Yields? && !CutAtWrite(t))
  }

  lemma EventIsTruthful(seams: Seams, capped: bool, s: State, t: Tick)
    requires Truthful(s) && s.status != Completed && t.pull.Yields?
    ensures TickTruthful(OnTick(seams, capped, s, t), t)
  {
    hide DoActs, AnyBad, FinalsOf;
    CollectIsTruthful(s.(steps := DoActs(seams, s.steps, t.acts)), t.pull.event, t.write);
  }

  lemma TickIsTruthful(seams: Seams, capped: bool, s: State, t: Tick)
    requires Truthful(s) && s.status != Completed
    ensures TickTruthful(OnTick(seams, capped, s, t), t)
  {
    hide DoActs, AnyBad, FinalsOf;
    if t.pull.Yields? {
      EventIsTruthful(seams, capped, s, t);
    } else {
      FrameAppended(s.frames, DeadlineError);
    }
  }

  /** Every run reports what it did, whether it is drained, cut or abandoned: it failed if and only if a
      failure went out; it completed if and only if the engine ran out of steps and no failure went
      out; and its outputs are the step outputs that went out, followed by the one whose write was
      cancelled, if there is one. */
  lemma {:induction false} RunIsTruthful(seams: Seams, capped: bool, s: State, script: seq<Tick>,
                                         priced: bool)
    requires Truthful(s) && s.status != Completed
    ensures var r := Events(seams, capped, s, script, priced);
      && (r.status == Failed <==> AnyBad(r.frames))
      && (r.status == Completed <==> RunsOut(seams, capped, s, script) && !AnyBad(r.frames))
      && r.outputs == FinalsOf(r.frames) + Unsent(seams, capped, s, script)
    decreases |script|
  {
    hide OnTick, AnyBad, FinalsOf;
    if script != [] {
      TickIsTruthful(seams, capped, s, script[0]);
      var r := OnTick(seams, capped, s, script[0]);
      if r.Going? {
        assert r.state.outputs == FinalsOf(r.state.frames);
        RunIsTruthful(seams, capped, r.state, script[1..], priced);
      }
    }
  }

  /** The outputs are those that went out, if and only if no reached write of an output was cancelled. */
  lemma OutputsWentOutIff(seams: Seams, capped: bool, script: seq<Tick>, priced: bool)
    ensures var s := State(NO_STEPS, [], [], Running, []);
      var r := Events(seams, capped, s, script, priced);
      r.outputs == FinalsOf(r.frames) <==> Unsent(seams, capped, s, script) == []
  {
    var s := State(NO_STEPS, [], [], Running, []);
    RunIsTruthful(seams, capped, s, script, priced);
  }

  /** A reader who disconnects while the second output is being written: both are counted, one went
      out. */
  lemma CutWriteCountsAnUnsentOutput(seams: Seams, capped: bool, one: string, two: string, priced: bool)
    ensures var script := [Tick([], Yields(StepFinal(one)), Took(()), false),
                           Tick([], Yields(StepFinal(two)), Cut(false), false)];
      var r := Events(seams, capped, State(NO_STEPS, [], [], Running, []), script, priced);
      r.outputs == [one, two] && r.frames == [Forwarded(StepFinal(one))] && r.status == Running
  {
    var t0, t1 := Tick([], Yields(StepFinal(one)), Took(()), false),
                  Tick([], Yields(StepFinal(two)), Cut(false), false);
    var s0 := State(NO_STEPS, [], [], Running, []);
    var s1 := State(NO_STEPS, [one], [one], Running, [Forwarded(StepFinal(one))]);
    assert OnTick(seams, capped, s0, t0) == Going(s1);
    assert [t0, t1][1..] == [t1];
    assert Drive(seams, capped, s0, [t0, t1]) == Drive(seams, capped, s1, [t1]);
  }
}
