/** Charges and quota slots: `_capture`, `_give_back` and `_release` of
    src/app/agents/orchestrator.py. */
module Billing {
  import opened Wrappers
  import opened Metering

  datatype Route = Route(provider: string, model: string)

  /** What one charge names; its cost is the route's price of the two halves. */
  datatype Charge = Charge(route: Route, prompt: int, completion: int, estimated: bool)

  /** Calls on the usage ports, attempted whether or not they succeed. */
  datatype LedgerCall = Commit(slot: nat, charge: Charge) | Release(slot: nat) | Record(charge: Charge)

  /** Which of the two usage ports are wired. */
  datatype Seams = Seams(enforcement: bool, capture: bool)

  function ChargeFor(route: Route, calls: seq<Call>): Charge {
    Charge(route, PromptSum(calls), CompletionSum(calls), Estimated(calls))
  }

  function GiveBack(seams: Seams, slot: Option<nat>): seq<LedgerCall> {
    if seams.enforcement && slot.Some? then [Release(slot.value)] else []
  }

  predicate Billable(seams: Seams, calls: seq<Call>) {
    seams.capture && PromptSum(calls) + CompletionSum(calls) > 0
  }

  /** `_capture`: a model the table cannot price is swallowed with everything after it. */
  function Capture(seams: Seams, route: Route, calls: seq<Call>, slot: Option<nat>, priced: bool)
    : seq<LedgerCall>
  {
    if !Billable(seams, calls) then GiveBack(seams, slot)
    else if !priced then []
    else if seams.enforcement && slot.Some? then [Commit(slot.value, ChargeFor(route, calls))]
    else [Record(ChargeFor(route, calls))]
  }

  /** The usage ports of the platform, with every call that was attempted on them. */
  class UsagePorts {
    var calls: seq<LedgerCall>

    constructor ()
      ensures calls == []
    {
      calls := [];
    }

    method Attempt(made: seq<LedgerCall>)
      modifies this
      ensures calls == old(calls) + made
    {
      calls := calls + made;
    }
  }

  method CaptureUsage(seams: Seams, route: Route, meter: TokenMeter, slot: Option<nat>, priced: bool)
    returns (made: seq<LedgerCall>)
    ensures made == Capture(seams, route, meter.Snapshot(), slot, priced)
  {
    var prompt, completion, estimated := meter.Totals();
    if !seams.capture || prompt + completion <= 0 {
      return if seams.enforcement && slot.Some? then [Release(slot.value)] else [];
    }
    if !priced {
      return [];
    }
    var charge := Charge(route, prompt, completion, estimated);
    return if seams.enforcement && slot.Some? then [Commit(slot.value, charge)] else [Record(charge)];
  }

  function Settlements(calls: seq<LedgerCall>, slot: nat): nat {
    if calls == [] then 0
    else (if (calls[0].Commit? || calls[0].Release?) && calls[0].slot == slot then 1 else 0)
         + Settlements(calls[1..], slot)
  }

  lemma {:induction false} SettlementsOfSum(a: seq<LedgerCall>, b: seq<LedgerCall>, slot: nat)
    ensures Settlements(a + b, slot) == Settlements(a, slot) + Settlements(b, slot)
    decreases |a|
  {
    if a == [] {
      assert a + b == b;
    } else {
      assert (a + b)[1..] == a[1..] + b;
      SettlementsOfSum(a[1..], b, slot);
    }
  }

  /** A capture settles its slot once, unless the charge it owes cannot be priced; and it records a
      charge exactly when capture is wired, something was consumed, and it can be priced. */
  lemma CaptureSettlesOnceIff(seams: Seams, route: Route, calls: seq<Call>, slot: nat, priced: bool)
    requires seams.enforcement
    ensures var made := Capture(seams, route, calls, Some(slot), priced);
      && Settlements(made, slot) == (if Billable(seams, calls) && !priced then 0 else 1)
      && ((exists c :: c in made && !c.Release?) <==> Billable(seams, calls) && priced)
  {
    var made := Capture(seams, route, calls, Some(slot), priced);
    if made != [] {
      assert made == [made[0]] && made[1..] == [];
      assert Settlements(made[1..], slot) == 0;
      assert made[0] in made;
    }
  }
}
