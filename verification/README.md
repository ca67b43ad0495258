# Verified model of AIZZAK's turn protocol, supply-chain gate, host sizer and their smaller relatives

AIZZAK is a multi-tenant platform for AI agents. This project models six parts of it in Dafny and
proves what each of them promises. Where the source works on objects and loops, the model has classes
and loops, each proved equal to a function of the state; the properties are then proved about that
function, over all inputs or over all runs.

`dafny verify dfyconfig.toml` checks everything.

## The parts

**Turn protocol** (`src/app/agents/orchestrator.py`). An agent turn is admitted with a quota slot,
pulls events from a producer and ends by a final event, an error event, an exception, a deadline or
abandonment; a `finally` settles and bills. Around it sit a usage meter that must be right at every
instant, a fallback to a local model that is sticky and must be disclosed, and a per-step bill for
workflows. Store calls may fail or be
cancelled at every point, and take effect all the same; provider calls interleave freely.
- `Metering.dfy`: the meter. `Billing.dfy`: charges and slots. `Fallback.dfy`, `FallbackProofs.dfy`:
  the two-model protocol. `Turn.dfy`: the turn. `Preflight.dfy`: its admission, and what becomes of the
  stream. `TurnProofs.dfy`: replies and the question a turn leaves. `SlotProofs.dfy`: slots and bills.
  `AfterFinal.dfy`: what can still happen after the final event. `DisclosureProofs.dfy`: the disclosure
  of a fallback. `TurnRuns.dfy`: concrete runs. `Workflow.dfy`: steps and workflow runs.

**Supply-chain gate** (`deploy/supply-chain/supply_chain_check.py`). Licence expressions are the
AND/OR/WITH part of Annex D of the SPDX Specification 2.3.
- `Spdx.dfy`, `SpdxProofs.dfy`: lexer, recursive-descent parser, printer, and their round trip.
  `Versions.dfy`: releases and ranges. `Licences.dfy`: the licence check. `PolicyFile.dfy`: the policy,
  from its TOML document. `Gate.dfy`: vulnerabilities and coverage. `Verdict.dfy`: the exit code, and
  what a pass rests on.

**Host sizer** (`deploy/auto_size.py`).
- `Sizes.dfy`: sizes as text. `Sizer.dfy`, `Planner.dfy`, `HostGrowth.dfy`: interpolation, totals,
  bisection, and growth of the host. `SizeFiles.dfy`: the two size files. `EnvBlock.dfy`,
  `EnvBlockProofs.dfy`: the block in `.env`. `Rerun.dfy`: a whole run and the run after it.
  `WritePair.dfy`: the replacement of two files.

**Embedding batcher** (`services/embedding/app.py`). `Batching.dfy` cuts the one consumer at its awaits
and lets its steps interleave with callers and shutdown; `BatchingProofs.dfy` proves the invariant.

**Cursors** (`src/app/framework/pagination.py`). `Cursor.dfy`, over UTF-8 (RFC 3629) and base64url
(section 5 of RFC 4648, padding stripped as section 3.2 allows).

**Page inspector** (`services/ele_parse/__main__.py`). `Pages.dfy`.

`Wrappers.dfy` and `Text.dfy` hold Option, Result, the three ends of an awaited call, blanks and
numerals.

## What does not hold, and exactly when it does

- A quota slot is settled at most once, and by its own turn alone. It is settled **unless** the
  reservation, the pre-flight or the abandonment net is cancelled, the stream is handed back and never
  pulled, or a charge is owed that cannot be priced (`SlotProofs.SlotIsSettledOnceIff`,
  `SlotProofs.SlotsAreConserved`; one run for each in `SlotProofs.EveryWayASlotStaysHeld`).
- The slot of a workflow step is given back when the step is closed, **unless** a charge is owed for it
  that cannot be priced, or the step was never begun because its dependencies failed after the
  reservation (`Workflow.StepSlotsAreConserved`, `Workflow.LostStepHoldsItsSlot`).
- A turn with at most one terminal event stores at most one message, **unless** an append takes effect
  without the store getting to report it and a later one takes effect too
  (`TurnProofs.AtMostOneReplyIff`, `TurnRuns.UnreportedAppendIsRepeated`).
- A whole answer can be stored as one that was cut off, and a question just asked can be forgotten: the
  executor turns an exception after the final event into an error event, and the deadline is tested
  before the producer is asked whether it has ended. `AfterFinal.WholeAnswerIsMarkedIff` and
  `AfterFinal.QuestionIsForgottenIff` say for which scripts, and each has a concrete run
  (`TurnRuns.ErrorAfterFinalMarksAWholeAnswer`, `TurnRuns.LateDeadlineForgetsTheQuestion`). Producers
  that end right after their terminal event are free of it (`TurnProofs.QuietTurnIsHonest`).
- Not every ending settles the turn. A reader who disconnects while the text of a failed turn is being
  kept cancels the rest, and the question of an earlier turn stands (`TurnProofs.EndingSettlesIff`,
  `TurnRuns.CutErrorKeepsTheOldQuestion`).
- Skipping an unchanged write compares with what the pre-flight read, not with what is stored. It
  equals always writing exactly under the condition of `TurnProofs.SkippingRefinesWritingIff` on the
  script; `TurnRuns.LateDeadlineSkipsTheWrite` is a run where it does not.
- When primary and target both fail before answering, the user sees the primary's error unless the
  target refused at the call itself, or another call in flight had switched the turn
  (`FallbackProofs.PrimaryErrorIsRaisedIff`; one run for each in `FallbackProofs.RefusalIsRaised` and
  `FallbackProofs.ConcurrentCallsSeeTheOtherError`).
- Once the turn has switched, the primary can still come to answer something if and only if a stream is
  open on it, and then on that stream alone (`FallbackProofs.PrimaryCanAnswerIff`,
  `FallbackProofs.SwitchedTurnLeavesThePrimary`, `FallbackProofs.OpenStreamStaysWithThePrimary`).
- The internal key of pending options reaches the client when an agent sets it to null, and only then:
  the key with that null, no list (`DisclosureProofs.FinalsAreDisclosedAlike`,
  `TurnRuns.NullKeyReachesTheClient`).
- The outputs of a workflow run are the step outputs that went out, **unless** the reader goes away
  while one is being written: that one is counted and never sent (`Workflow.OutputsWentOutIff`,
  `Workflow.CutWriteCountsAnUnsentOutput`).
- `_unmet` reads an Or without alternatives as satisfied (`Licences.EmptyOrIsMisread`). No component
  can bring one (`Licences.ComponentExpressionHasAlternatives`), so the check is exact.
- The docstring of `_drain` (services/embedding/app.py:602-605) says a request that would cross the cap
  stays queued. The loop looks at the texts before a request, not at its own: it is taken if and only if
  it is the first or those are under the cap (`BatchingProofs.TakenIffUnderTheCap`). So the rule is
  broken if and only if some waiting request finds room under the cap and not enough of it
  (`BatchingProofs.CrossingIsTakenIff`, `BatchingProofs.BatchCrossesIff` over every run,
  `BatchingProofs.CrossingRequestIsTaken` for one).
- A shutdown that finds the batcher in its window leaves the waiters it had drained without an answer
  for ever, and only those (`BatchingProofs.ShutdownForgetsExactlyTheWindow`,
  `BatchingProofs.LostInTheWindow`).
- Splicing twice is splicing once, and a second run changes no byte, **unless** the file had no block and
  ended in a lone carriage return (`EnvBlockProofs.SpliceTwiceIsOnceIff`,
  `Rerun.RerunChangesNothingIff`, `EnvBlockProofs.LoneReturnIsSplicedTwice`).

## Model

| member | source | states |
|---|---|---|
| Spdx.Parser.Primary | deploy/supply-chain/supply_chain_check.py:94-102 | An id or a parenthesised expression: the position moves past exactly the tokens the grammar takes, and a refusal is the grammar's refusal. |
| Spdx.Parser.WithClause | deploy/supply-chain/supply_chain_check.py:104-111 | WITH attaches to a single id only; anything else before WITH is refused. |
| Spdx.Parser.Conjunction | deploy/supply-chain/supply_chain_check.py:113-118 | The loop over AND reads the same tree, and leaves the same tokens, as the right-recursive grammar. |
| Spdx.Parser.Disjunction | deploy/supply-chain/supply_chain_check.py:120-125 | The loop over OR, likewise; mutual recursion terminates on the tokens left. |
| Spdx.ParseExpression | deploy/supply-chain/supply_chain_check.py:72-130 | A text is accepted exactly when the grammar takes every token of it, and the tree is the grammar's. |
| SpdxProofs.PrintParseRoundTrip | deploy/supply-chain/supply_chain_check.py:72-143 | Lexing and parsing the printed text of any well-formed tree gives back exactly that tree. |
| SpdxProofs.PrecedenceRecoversTree | deploy/supply-chain/supply_chain_check.py:113-125 | AND binds tighter than OR: a tree is recovered even when an AND under an OR is written without parentheses. |
| SpdxProofs.ParsedIsWellFormed | deploy/supply-chain/supply_chain_check.py:94-125 | Every tree the parser builds has at least two items under each And and Or and usable names, and what is left over are tokens again. |
| SpdxProofs.ParseIsStable | deploy/supply-chain/supply_chain_check.py:72-143 | Parse, print, parse is parse, on every accepted text. |
| Versions.ReadRelease | deploy/supply-chain/supply_chain_check.py:187-194 | Reads exactly the dotted numerals, without trailing zeros. |
| Versions.ReadClauses | deploy/supply-chain/supply_chain_check.py:197-213 | The loop over the clauses reads them all in order or refuses the range. |
| Versions.ParseVersions | deploy/supply-chain/supply_chain_check.py:197-213 | A range is accepted exactly when all clauses read and it is closed on both sides. |
| Versions.StrippedOrderIsPaddedOrder | deploy/supply-chain/supply_chain_check.py:187-229 | Comparing stripped tuples is comparing the releases with zeros filled in, for order and for equality. |
| Versions.ClosedRangeIsBounded | deploy/supply-chain/supply_chain_check.py:197-229 | Two clauses of every accepted range name releases that all its versions lie between, one from below and one from above. |
| Licences.UnmetIsExact | deploy/supply-chain/supply_chain_check.py:154-167 | On parser-shaped trees nothing is reported if and only if the expression is satisfied. |
| Licences.EmptyOrIsMisread | deploy/supply-chain/supply_chain_check.py:154-167 | The concrete tree on which that fails. |
| Licences.SatisfiedIsMonotone | deploy/supply-chain/supply_chain_check.py:154-167 | Allowing more ids or exceptions never breaks a satisfied expression. |
| Licences.GrantingUnmetSatisfies | deploy/supply-chain/supply_chain_check.py:154-167 | Granting every id and exception that is reported makes the expression satisfied. |
| Licences.ComponentExpressionHasAlternatives | deploy/supply-chain/supply_chain_check.py:477-521 | Whatever a component declares, its expression has no empty Or. |
| Licences.ComponentPassesIffAcceptable | deploy/supply-chain/supply_chain_check.py:529-587 | A component has no violation if and only if its owner decision still holds, or it has none and its licence is satisfied. |
| Licences.CheckRows | deploy/supply-chain/supply_chain_check.py:590-616 | The loop checks every component in SBOM order, or rejects an entry that is no object. |
| Licences.CheckLicences | deploy/supply-chain/supply_chain_check.py:590-616 | An SBOM is rejected exactly when it has no root, no component or a broken one; else every component is reported once. |
| Licences.CleanIffAllAcceptable | deploy/supply-chain/supply_chain_check.py:590-616 | The licence report is clean if and only if every component of the SBOM may ship. |
| Licences.EveryIdMustBeAllowed | deploy/supply-chain/supply_chain_check.py:477-514 | Several id entries are an AND: a component passes only if each of them is allowed. |
| Gate.MergeAdvisories | deploy/supply-chain/supply_chain_check.py:692-714 | The nested loops build exactly the merged advisories. |
| Gate.MergeIsUnion | deploy/supply-chain/supply_chain_check.py:692-714 | Merging loses no advisory and no alias and invents none. |
| Gate.VulnerabilityStatus | deploy/supply-chain/supply_chain_check.py:748-761 | The search over exceptions answers what its specification answers. |
| Gate.ExceptedIffCovered | deploy/supply-chain/supply_chain_check.py:748-761 | An advisory is excused if and only if some exception for that package and id is in force today, and the exception named is one. |
| Gate.CheckVulnerabilities | deploy/supply-chain/supply_chain_check.py:677-745 | Refuses its input exactly when one of the named problems is there; else reports on every merged advisory. |
| Gate.CheckCoverage | deploy/supply-chain/supply_chain_check.py:779-818 | Lists exactly the components that no audit covers, with the reason. |
| Gate.NothingMissingIffAllAudited | deploy/supply-chain/supply_chain_check.py:779-818 | Coverage is clean if and only if every component's normalised name was audited. |
| Verdict.AdvisoriesCleanIffExcused | deploy/supply-chain/supply_chain_check.py:677-761 | The vulnerability report is clean if and only if every advisory of every dependency is excused. |
| Verdict.PassIffClean | deploy/supply-chain/supply_chain_check.py:830-831 | The gate passes if and only if every component may ship and was audited and every advisory is excused. |
| Verdict.RunGate | deploy/supply-chain/supply_chain_check.py:927-971 | From the policy document, the SBOM, the audit and the freeze to the exit code: 2 when an input is refused, 1 on a violation, else 0. |
| Verdict.ExitsZeroIffClean | deploy/supply-chain/supply_chain_check.py:927-971 | Exit code 0 if and only if every input is accepted and the environment is clean. |
| Verdict.PassRestsOn | deploy/supply-chain/supply_chain_check.py:927-971 | Exit code 0 means, for each component, that it was audited and that an owner decision on exactly its licences names releases on both sides of it, or that its licence is satisfied; and for each advisory an exception of the owner's that started by today and ends within 90 days of today. |
| PolicyFile.LoadPolicy | deploy/supply-chain/supply_chain_check.py:366-412 | The loops over approvals, packages and vulnerabilities read the document as specified, or refuse it. |
| PolicyFile.PackagesReadIff | deploy/supply-chain/supply_chain_check.py:388-393 | The package table is accepted if and only if every entry reads and no package is decided twice. |
| PolicyFile.PackagesAreTheEntries | deploy/supply-chain/supply_chain_check.py:319-343 | It then holds the decisions of its entries and no others. |
| PolicyFile.ExceptionsReadIff | deploy/supply-chain/supply_chain_check.py:394-399 | The exception table is accepted if and only if every entry reads and no advisory of a package has two; it then holds the exceptions of its entries in order. |
| PolicyFile.LoadedPolicyIsBounded | deploy/supply-chain/supply_chain_check.py:319-363 | In a loaded policy every package decision has a closed range and every exception at most 90 days, and both name an owner decision. |
| PolicyFile.EveryWideningIsDecided | deploy/supply-chain/supply_chain_check.py:366-399 | One approval, package or exception without the id of an owner decision, and the whole policy is refused. |
| Metering.TokenMeter.Begin | src/app/agents/orchestrator.py:264-268 | A new call is appended; the others stay as they are. |
| Metering.TokenMeter.Totals | src/app/agents/orchestrator.py:270-287 | The totals are the sums over the calls; `estimated` holds if and only if some call lacks a counter. |
| Metering.MeteredStream.OnChunk | src/app/agents/orchestrator.py:580-597 | The first chunk opens one call; a later one changes that call and no other, wherever it stands by then. |
| Metering.MeterIsConsumed | src/app/agents/orchestrator.py:187-287 | After every prefix of every interleaving of calls and chunks the meter holds exactly what each call that delivered has delivered. |
| Metering.StreamIsOneCall | src/app/agents/orchestrator.py:580-597 | After every interleaving the meter holds one call for each whole answer and one for each stream, no two streams share one, and a stream's call is all of its chunks, whichever model served them. |
| Billing.CaptureUsage | src/app/agents/orchestrator.py:2270-2339 | The ledger calls made are those of the capture rule on the meter's state. |
| Billing.CaptureSettlesOnceIff | src/app/agents/orchestrator.py:2270-2348 | A capture settles its slot once unless the charge it owes cannot be priced, and writes a charge if and only if capture is wired, something was consumed and it can be priced. |
| Fallback.FallbackState.CompleteCall | src/app/agents/orchestrator.py:723-767 | A whole call asks the models the protocol says and leaves the flags it says. |
| Fallback.FallbackStream.Pull | src/app/agents/orchestrator.py:769-805 | One pull of a stream takes the protocol's step: what is seen, which model is next, and the flags. |
| FallbackProofs.RunKeeps | src/app/agents/orchestrator.py:723-821 | The invariant tying flags, stages and log is kept by every interleaving of calls. |
| FallbackProofs.OneStreamOneModel | src/app/agents/orchestrator.py:769-805 | What an agent sees from one stream comes from one model alone. |
| FallbackProofs.FlagsMeanTheLog | src/app/agents/orchestrator.py:625-672 | At every point, switched means the target answered and `primary_served` means the primary delivered, both ways. |
| FallbackProofs.SwitchedTurnStaysOnTarget | src/app/agents/orchestrator.py:723-805 | Once switched, no later stream sees a chunk of the primary. |
| FallbackProofs.SwitchedTurnLeavesThePrimary | src/app/agents/orchestrator.py:723-805 | After any run in which the target answered, whatever follows: the primary answers no whole call and no stream but those that were open on it at that moment. |
| FallbackProofs.OpenStreamStaysWithThePrimary | src/app/agents/orchestrator.py:769-805 | A run in which such a stream goes on with the primary. |
| FallbackProofs.PrimaryCanAnswerIff | src/app/agents/orchestrator.py:769-805 | After any run in which the target answered: some continuation is answered by the primary, if and only if a stream is open on it. |
| FallbackProofs.StartedStreamFailsAsItself | src/app/agents/orchestrator.py:769-805 | No fallback follows a first primary chunk: the stream fails with the primary's own error. |
| FallbackProofs.PrimaryErrorIsRaisedIff | src/app/agents/orchestrator.py:769-805 | After any run, when both fail before answering: the primary's error is raised if and only if the target did not refuse at the call and had answered nothing in the turn; else the refusal or the target's error. |
| FallbackProofs.SequentialFailureIsThePrimarys | src/app/agents/orchestrator.py:769-805 | Agents that make one call at a time see the primary's error. |
| FallbackProofs.ConcurrentCallsSeeTheOtherError | src/app/agents/orchestrator.py:769-805 | A run of two calls in flight that does not. |
| FallbackProofs.RefusalIsRaised | src/app/agents/orchestrator.py:791-796 | A run of one call at a time in which the target's refusal at the call is raised. |
| Turn.TurnRun.Forward | src/app/agents/orchestrator.py:1939-1974 | Handling one event is the specification's step on events, frames, writes and flags, and each store call in it may fail or be cancelled. |
| Turn.TurnRun.PullOnce | src/app/agents/orchestrator.py:1903-1974 | One turn of the pull loop, with deadline, exception, and cancellation at the pull and inside every store call. |
| Turn.TurnRun.Metered | src/app/agents/orchestrator.py:1853-1997 | The whole loop with its `finally`: final state and ledger calls are those of the specification. |
| Preflight.BeginTurn | src/app/agents/orchestrator.py:1332-1422 | The admission and the three guarded steps: the slot is given back on an exception and only then, and otherwise goes with the stream. |
| Preflight.PlayTurn | src/app/agents/orchestrator.py:1277-1432 | A turn to its end, pulled or not: the calls on the usage ports are those of the specification. |
| SlotProofs.SlotIsSettledOnceIff | src/app/agents/orchestrator.py:1387-1432 | Over every such turn a slot is settled at most once, by the turn that took it, and exactly under the condition on the script and the price. |
| SlotProofs.SlotsAreConserved | src/app/agents/orchestrator.py:1332-1432 | Over any series of turns on one ledger every slot taken is settled once exactly when its own turn gives it up; no other turn touches it. |
| SlotProofs.EveryWayASlotStaysHeld | src/app/agents/orchestrator.py:1332-1432 | Five turns that took a slot and never settle it: reservation cancelled, pre-flight cancelled, stream never pulled, price missing, net cancelled. |
| SlotProofs.BillIsWhatWasDelivered | src/app/agents/orchestrator.py:1975-1997 | However a pulled turn ends, its ledger is what the log of deliveries says, on the target's route if and only if the turn switched and the primary delivered nothing; only a cancelled net or a missing price leaves it empty. |
| TurnProofs.MessagesAreApplied | src/app/agents/orchestrator.py:1894-1997 | For every script, the messages stored are as many as the appends that its ticks come to and the store applies, reported or not. |
| TurnProofs.AtMostOneReplyIff | src/app/agents/orchestrator.py:1894-1997 | With at most one terminal event, at most one message is stored, if and only if no append that took effect unreported is followed by another that takes effect. |
| TurnProofs.AtMostOneReply | src/app/agents/orchestrator.py:1894-1997 | So with a store that reports what it applies there is at most one, however the turn ends and wherever it is cancelled. |
| TurnProofs.QuietTurnIsHonest | src/app/agents/orchestrator.py:1999-2125 | If the producer also ends after it, a copy marked incomplete is stored only without a final event and with non-blank streamed text, and what is settled is what the final declared, or nothing. |
| TurnProofs.StoredIsLastChange | src/app/agents/orchestrator.py:2127-2209 | However often a turn settles, the thread ends with the last change. |
| TurnProofs.SettlesAreSaid | src/app/agents/orchestrator.py:1894-1992 | What a run settles is what its script says tick by tick: nothing at a cut, the declaration at a final, and no word at all where keeping the text is cancelled. |
| TurnProofs.SkippingRefinesWritingIff | src/app/agents/orchestrator.py:2167-2209 | Skipping unchanged writes leaves what always writing would leave, if and only if the last thing the script says is a change or all it says is what was there. |
| TurnProofs.EndingSettlesIff | src/app/agents/orchestrator.py:1999-2043 | An ending settles the turn, unless the turn is cut and every attempt to keep its text is cancelled. |
| TurnProofs.MemoryIsTheDeclarationIff | src/app/agents/orchestrator.py:1999-2043 | After one quiet turn the stored list is what its final declared, or empty if it was cut, exactly unless it was cut short on a waiting thread. |
| TurnProofs.MemoryIsTheLastDeclarationIff | src/app/agents/orchestrator.py:2127-2209 | After any conversation the thread waits for what the last turn declared, under the same condition on the last turn. |
| AfterFinal.WholeAnswerIsMarkedIff | src/app/agents/orchestrator.py:1894-1997 | A whole answer is stored as one that was cut off, if and only if the store did not report the reply and a later reached tick cuts the turn, finds text, and its append takes effect. |
| AfterFinal.QuestionIsForgottenIff | src/app/agents/orchestrator.py:1894-2209 | The question a turn asked is forgotten, if and only if the thread was waiting before and a later reached tick cuts the turn, gets as far as the question, and its write takes effect. |
| DisclosureProofs.TurnDiscloses | src/app/agents/orchestrator.py:1939-1997 | The invariant that ties notice, frames, appends and flags is kept over every run. |
| DisclosureProofs.FinalsAreDisclosedAlike | src/app/agents/orchestrator.py:1939-1997 | Over every run, for each final event that went out: the pair on its frame, a notice before it and the notice at the head of every reply written to it, all three or none; such a reply exists where messages are kept; and the internal key is on the frame exactly if its value was null. |
| DisclosureProofs.SwitchedIsToldIff | src/app/agents/orchestrator.py:1939-1997 | When no model call follows an event that went out: the turn has switched at its end if and only if there was one notice, if and only if it stands before that event. |
| DisclosureProofs.BeginDiscloses | src/app/agents/orchestrator.py:1332-1422 | A turn starts in that invariant. |
| TurnRuns.ErrorAfterFinalMarksAWholeAnswer | src/app/framework/agent_runtime/executor.py:127-140 | A run in which a whole answer is stored as one that was cut off. |
| TurnRuns.LateDeadlineForgetsTheQuestion | src/app/agents/orchestrator.py:455-475 | A run in which a late deadline erases the question the turn had just asked. |
| TurnRuns.LateDeadlineSkipsTheWrite | src/app/agents/orchestrator.py:2167-2209 | The same deadline on a thread that waited for nothing leaves the question standing. |
| TurnRuns.CutErrorKeepsTheOldQuestion | src/app/api/v1/sse.py:126-138 | A run in which a disconnect during the keeping of a failed turn's text leaves an earlier question standing. |
| TurnRuns.NullKeyReachesTheClient | src/app/agents/orchestrator.py:2127-2165 | A run whose final frame carries the internal key. |
| TurnRuns.UnreportedAppendIsRepeated | src/app/agents/orchestrator.py:2045-2125 | A run that stores the text of a failed turn twice. |
| Workflow.MeteredSteps.CloseStep | src/app/agents/orchestrator.py:998-1010 | Closing bills the open step once and leaves none open. |
| Workflow.MeteredSteps.ForAgentStep | src/app/agents/orchestrator.py:977-996 | The next step closes the one before it; a denied one opens nothing. |
| Workflow.WorkflowRun.StreamEvents | src/app/agents/orchestrator.py:1116-1178 | Streaming the events is the specified run, with its outputs, status and bills. |
| Workflow.ClosingBillsTheRest | src/app/agents/orchestrator.py:963-1010 | After any mix of steps, denials and calls, closing has billed every step that began, once, in order. |
| Workflow.RunBillsItsSteps | src/app/agents/orchestrator.py:1116-1178 | A run that has ended in any way has billed exactly the steps that began, in order, for what was delivered while each ran; nothing is open. |
| Workflow.StepSlotsAreConserved | src/app/agents/orchestrator.py:1642-1697 | Over every run that reserves each slot once: a step's slot is settled once if the step began and its charge, if one is owed, can be priced; otherwise never. |
| Workflow.LostStepHoldsItsSlot | src/app/agents/orchestrator.py:1671-1679 | A run whose second step fails after its reservation: the first slot is released, the second never. |
| Workflow.ClosingIsIdempotent | src/app/agents/orchestrator.py:998-1010 | Closing twice bills once. |
| Workflow.RunIsTruthful | src/app/agents/orchestrator.py:1094-1178 | At every ending: failed if and only if a failure went out, completed if and only if the engine ran out of steps without one, and the outputs are those that went out, then the one whose write was cancelled. |
| Workflow.OutputsWentOutIff | src/app/agents/orchestrator.py:1163-1176 | The outputs are those that went out, if and only if no reached write of an output was cancelled. |
| Workflow.CutWriteCountsAnUnsentOutput | src/app/agents/orchestrator.py:1163-1176 | A run of two outputs of which the second is counted and never sent. |
| Sizes.CpusRoundTrip | deploy/auto_size.py:318-324 | Every vCPU figure is read back as it was written. |
| Sizes.MibRoundTrip | deploy/auto_size.py:303-311 | Every memory figure is read back as it was written. |
| Sizes.BytesRoundTrip | deploy/auto_size.py:253-257 | A limit and a Redis maximum are worth the same bytes to the budget as the MiB they were written from. |
| Sizer.MemIsBetween | deploy/auto_size.py:344-349 | Every limit is between `small` and `large`, starts at the first (role server) and ends at the second. |
| Sizer.MemMonotone | deploy/auto_size.py:344-349 | Limits rise with the step, for both roles, clamps included. |
| Sizer.DevKeepsThePeak | deploy/auto_size.py:327-349 | On a development host a measured service gets at least its peak and a quarter, or `large`. |
| Sizer.ReplicasAreBetween | deploy/auto_size.py:372-376 | Replica counts are between `small` and `large`; the CPU cap only lowers them. |
| Sizer.CpusAreBetween | deploy/auto_size.py:367-370 | CPU shares are between `small` and `large` and meet them at the ladder's ends. |
| Planner.FillValues | deploy/auto_size.py:352-384 | The two passes give every key its rule's value. |
| Planner.EveryValueIsBetween | deploy/auto_size.py:352-384 | Read back from its text, every limit, share and count lies between its two ends. |
| SizeFiles.ReadValues | deploy/auto_size.py:139-146 | The loop reads a size file into a dictionary that keeps its order. |
| SizeFiles.ValuesAreLastWords | deploy/auto_size.py:139-146 | The dictionary says of each key what the last line about it says, and nothing of any other key. |
| SizeFiles.ReadLadderIsDistinct | deploy/auto_size.py:139-153 | However often a file sets a key, the ladder that is read has it once. |
| SizeFiles.PlannedValueIsBetweenTheFiles | deploy/auto_size.py:150-384 | From text to text: what is planned for a key, read back, lies between what the two files say last about it. |
| SizeFiles.ComputeFromFiles | deploy/auto_size.py:392-436 | The plan from the texts of the two size files, refused as a whole when one of them does not read. |
| Planner.MaximumLeavesRoom | deploy/auto_size.py:336-341 | In bytes, a stream's limit is at least 1.5 times its maximum, within 1.5 MiB; a cache's exceeds it by the fixed overhead. |
| Planner.StandingTotals | deploy/auto_size.py:260-272 | The running totals are the sums over the rows that stay up, and fail exactly when one of those cannot be read. |
| Planner.TotalsMonotone | deploy/auto_size.py:260-272 | Totals over all rows never decrease with the step, nor from CPU-capped to memory-bound replicas. |
| Planner.NeedMonotone | deploy/auto_size.py:402-404 | The claim the bisection rests on, for both roles. |
| Planner.Search | deploy/auto_size.py:400-410 | The bisection ends at the largest step in [0, 1000] that fits. |
| Planner.Compute | deploy/auto_size.py:392-433 | A server is refused if and only if the smallest limits do not fit; otherwise the step is the largest that fits and the final plan, with CPU-capped replicas, fits; a development host that fits nothing gets the smallest limits. |
| HostGrowth.BudgetIgnoresHost | deploy/auto_size.py:396-404 | The budget of a step is the same on every host. |
| HostGrowth.NoValueShrinks | deploy/auto_size.py:392-433 | On a host with no fewer CPUs and no less memory, no value of the plan is smaller. |
| EnvBlock.SpliceText | deploy/auto_size.py:556-583 | The checking loop refuses at the first conflicting line, and otherwise writes what the specification writes. |
| EnvBlockProofs.ConcatOfLines | deploy/auto_size.py:486-488 | Cutting a text into lines loses nothing. |
| EnvBlockProofs.BlockIsFound | deploy/auto_size.py:495-513 | The result holds one well-formed block, at the place of the old one or at the end. |
| EnvBlockProofs.SearchIsExact | deploy/auto_size.py:563-576 | A splice is refused for a conflict if and only if some line outside the block conflicts. |
| EnvBlockProofs.SpliceTwiceIsOnceIff | deploy/auto_size.py:556-583 | A splice can always be repeated, and changes nothing then if and only if there was a block or no lone carriage return at the end. |
| EnvBlockProofs.LoneReturnIsSplicedTwice | deploy/auto_size.py:577-580 | A file on which the second splice changes every line end of the block. |
| EnvBlockProofs.TheRestIsLeftAlone | deploy/auto_size.py:577-583 | Outside the block every line stands byte for byte, in order, but for one line end added to an unfinished last line. |
| EnvBlockProofs.TheBlockStandsWhole | deploy/auto_size.py:577-583 | Between the markers stand exactly the block's lines. |
| EnvBlockProofs.AssignReads | deploy/auto_size.py:95 | `KEY=value` is read as that key and value; the optional `export` is not in the way, whatever the name. |
| EnvBlockProofs.TheBlockWins | deploy/auto_size.py:556-592 | Whoever reads the result by last definition gets the block's value for every key the block sets. |
| Rerun.BlockRole | deploy/auto_size.py:516-531 | The loop over the block's lines answers the role of the first role line, or refuses. |
| Rerun.Run | deploy/auto_size.py:788-882 | One run from the text of `.env` to the text it writes: the role, the settings outside the block, the plan, the block, the splice. |
| Rerun.RenderIsGood | deploy/auto_size.py:466-480 | What is rendered of any plan is a block that splicing can place: markers at its ends only, names and values on one line each. |
| Rerun.RoleIsRemembered | deploy/auto_size.py:516-531 | The role read from a spliced file is the role of the plan in it. |
| Rerun.OutsideIsTheSame | deploy/auto_size.py:586-592 | What the file assigns outside the block is the same after a splice, for every name. |
| Rerun.RerunChangesNothingIff | deploy/auto_size.py:855-882 | A second run on the same host keeps the role and changes no byte, if and only if the first file was not without a block and ended in a lone carriage return. |
| WritePair.FileSystem.Stage | deploy/auto_size.py:644-670 | The new file stands under its temporary name, or nothing has changed. |
| WritePair.FileSystem.SwapBoth | deploy/auto_size.py:704-724 | Both replaced, or the first put back, or the mismatch is told. |
| WritePair.FileSystem.Write | deploy/auto_size.py:681-728 | Over every placement of failures: both files new; or both as they were, a missing first one included; or the one error that reports a mismatch. No temporary file is left and nothing else changes. |
| Batching.Batcher.DrainQueue | services/embedding/app.py:601-614 | The loop takes whole requests until the cap is reached or the queue is empty. |
| Batching.Batcher.OnWake | services/embedding/app.py:588-597 | From the queue to the next await: window or dispatch. |
| Batching.Batcher.HandOut | services/embedding/app.py:639-644 | The loop hands every waiter its slice. |
| Batching.Batcher.OnCancel | services/embedding/app.py:628-638 | A cancellation fails the batch in the encoder, and forgets what a window held. |
| Batching.Batcher.CloseQueue | services/embedding/app.py:646-655 | Closing fails everything still queued. |
| BatchingProofs.RunKeeps | services/embedding/app.py:574-655 | The invariant over every interleaving: order, answers and bounds. |
| BatchingProofs.BatchingIsInvisible | services/embedding/app.py:616-644 | With an encoder that maps texts one by one, whoever is answered gets the vectors and the token sum of its own texts. |
| BatchingProofs.NoFutureIsSetTwice | services/embedding/app.py:639-672 | An outcome, once there, is there for the rest of the run. |
| BatchingProofs.BatchesAreTheOrder | services/embedding/app.py:588-614 | Batches are the submission order cut into pieces; each piece without its last request is under the cap; between batches everybody in them has an answer. |
| BatchingProofs.NoRequestIsLeftBehind | services/embedding/app.py:588-614 | A batch goes out under the cap only when the queue is empty. |
| BatchingProofs.TakenIffUnderTheCap | services/embedding/app.py:601-614 | Whenever `run` drains, the k-th waiting request is taken if and only if it is the first or the texts before it are under the cap. |
| BatchingProofs.CrossingIsTakenIff | services/embedding/app.py:601-614 | A drain takes a request that crosses the cap, if and only if some waiting request finds room under the cap and not enough of it. |
| BatchingProofs.BatchCrossesIff | services/embedding/app.py:588-614 | Over every run: a batch holds a crossing request if and only if it has two or more and its last has more texts than the others leave room for; no other request of a batch crosses. |
| BatchingProofs.CrossingRequestIsTaken | services/embedding/app.py:601-614 | A cap of two, requests of one and two texts: one batch of three. |
| BatchingProofs.ShutdownForgetsExactlyTheWindow | services/embedding/app.py:413-421 | After cancel and close, a waiter still waits if and only if the window held it and it has not left. |
| BatchingProofs.EveryoneIsAnsweredIff | services/embedding/app.py:646-672 | So everybody is answered if and only if the cancellation did not find the window. |
| BatchingProofs.LostInTheWindow | services/embedding/app.py:596-598 | A run that loses a caller. |
| Cursor.Utf8RoundTrip | src/app/framework/pagination.py:118-120 | Decoding the encoded text gives the text, for every text. |
| Cursor.Utf8IsCanonical | src/app/framework/pagination.py:144-147 | The strict decoder accepts only what the encoder makes. |
| Cursor.EnvelopeRoundTrip | src/app/framework/pagination.py:118-147 | Every text survives the envelope, padding stripped and restored. |
| Cursor.MangledIsRejected | src/app/framework/pagination.py:123-143 | A cursor with a character outside the alphabet is rejected, wherever it stands. |
| Cursor.IdRoundTrip | src/app/framework/pagination.py:80-97 | A text comes back from an id cursor if and only if it is a canonical UUID. |
| Cursor.SeqRoundTrip | src/app/framework/pagination.py:100-115 | Every integer comes back from a seq cursor, unless it is beyond the given maximum. |
| Cursor.KeysetsNeverMix | src/app/framework/pagination.py:85-115 | No cursor is accepted by both decoders. |
| Pages.Inspection.InspectRange | services/ele_parse/__main__.py:32-73 | A range, its retry page by page, and what both add to the shared list of failures. |
| Pages.Inspection.InspectFile | services/ele_parse/__main__.py:76-96 | The ranges of 200 in order; the first refusal that is not retried ends the inspection. |
| Pages.ReportIsByFate | services/ele_parse/__main__.py:32-96 | The report is, page by page, what the answer that decided about the page says, in ascending order. |
| Pages.EveryPageOnce | services/ele_parse/__main__.py:32-96 | Every page 1..n is in exactly one of the two lists, with its reason, nothing else is, and both ascend. |
| Pages.NoReportIff | services/ele_parse/__main__.py:24-73 | There is no report if and only if some page is decided by a refusal that is not retried. |

## Left out

- Turn protocol: authorization, provider resolution, prompts, log lines and real time. The deadline is an outcome of a pull; a store call that raises or is cancelled may have taken effect; a capture or a give-back, once begun, is not cancelled.
- Turn protocol: the price of a charge. Whether the pricing table knows the model is an input, and a charge is its route and its two token halves.
- Turn protocol: an agent makes its model calls before its producer is pulled, and none while one of its events is handled.
- Turn protocol: the JSON text of a reply that is not a string is an input, and a producer's `aclose` does nothing.
- TurnProofs.AtMostOneReplyIff: assumes that the producer emits at most one terminal event; the executor does not ensure it, as `TurnRuns.ErrorAfterFinalMarksAWholeAnswer` shows.
- TurnProofs.QuietTurnIsHonest: assumes that the producer ends right after its terminal event and is asked before the deadline; the runs without it are witnesses above.
- TurnProofs.MemoryIsTheDeclarationIff: assumes that the writes of the turn succeed.
- AfterFinal.WholeAnswerIsMarkedIff: assumes one final event with nothing terminal before it, as does AfterFinal.QuestionIsForgottenIff, which also assumes that the declaration was written.
- Supply-chain gate: TOML and JSON reading, rendering, row sorting, fix versions and the rows about exceptions. Inputs start as a parsed policy document and decoded components and audits.
- Supply-chain gate: lower-casing is ASCII only, and Python's recursion limit is not modelled.
- SizeFiles.ReadValues: the files are given as their lines; the `# host:` figures of the CPU ladder are inputs.
- Sizer.ReadRung: figures are digits with an optional decimal part; exponents, signs and digits outside ASCII are not read.
- Planner.Fits: bytes, shares and vCPU sums are exact; the source computes them in floating point.
- Planner.Compute: assumes, as SizeFiles.ComputeFromFiles does, that the size files are in order (`small` at most `large`, each Redis maximum with its limit) and that the Compose rows read; the order of the keys in the result is not kept.
- Sizer: YAML merging, reading the host, `auto.conf`, the external budget script.
- Rerun.Run: the wording of the comments, how flags and environment pick mode and profiles from the settings of `.env`, and the budget script are inputs or left out; the same flags but for the role are given both times.
- EnvBlock.Splice: the block is given as its lines.
- WritePair.FileSystem.Write: calls fail with OSError only, cleaning up in the `finally` succeeds, and ownership and ACLs are left out.
- Batching.Batcher: the model is loaded while the consumer runs; timing of the window is left to the interleaving.
- Batching.Batcher.OnEncoded: nothing is assumed of the lengths that the encoder returns; `BatchingProofs.BatchingIsInvisible` assumes one vector and one count per text.
- Cursor.Decode64: padding added by the client after a complete group is refused, and text is without lone surrogates.
- Cursor.ReadInt: digits outside ASCII and Python's limit of 4300 digits are not modelled.
- Cursor: injectivity of decoding; `+`, `/` and spare bits are accepted as aliases.
- Pages: the summary, the signals of a page, and the child process. `Pages.EveryPageOnce` assumes that a range is answered by ascending pages of that range, as services/ele_parse/inspect.py:232-240 makes them.
- Migrations, HTTP assembly, the sandbox, the load harness, error catalogs and operations scripts.
