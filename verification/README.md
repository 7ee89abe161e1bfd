# payment-service: what the saga guarantees

A Dafny model of the payment saga orchestrator: the engine that drives every payment through fraud
screening, funds hold, gateway submission, processor capture and ledger capture, the outbox relay,
the idempotency store, the gateway consumer, the resilience layer in front of the processors, and
the reconciler that checks the books against the processor's settlement report. Every property
below is proved for all inputs, all runs or all reachable states.

`dafny verify dfyconfig.toml` checks the whole project.

## How it is built

The saga is the centre. `Payments` holds one payment's durable state (`Core`: row, outbox, hold,
whether the processor has the money) and the two guarded updates that write it: one compares the
step of the driver's snapshot, the other only the status. `Driver` cuts every driver of a saga
(the `Advance` loop, gateway completions, step-up resumes, the expiry sweeps) at each SQL
transaction and remote call; `Exec` is one such effect, applied to the present state by a driver
that carries an old snapshot. On this one step function stand:

| module | what runs |
|---|---|
| `Interleaved` | any number of drivers with arbitrarily stale snapshots, dying anywhere; holds lapsing at any time |
| `Hazards`, `Races` | from which interleaved states a race can still undo a payment, exactly; concrete runs that do |
| `World` | any number of such payments against one account-service, with a clock |
| `Published` | those payments' events through one outbox and one relay to the broker |
| `Serial` | one driver at a time, still dying anywhere and losing replies, with holds still lapsing; shown to be among the interleaved runs |
| `Attempts`, `Outcomes`, `Histories` | whole attempts under fixed answers, cut anywhere; shown to be serial runs |
| `Entries` | what a completion, a decline and an owner's resume make of a payment, and which driver may begin where |
| `Convergence` | undisturbed attempts on whatever a serial or an interleaved run has left behind |
| `Redelivery` | one approved completion delivered any number of times |
| `Engine` | the engine as a class over the payments table, method by method, each proved to do what `Attempts` says |

Beside it: `Reconciler` (the class and its counts), `Settlement` (the counts composed with the
reachable worlds) and `Straddling` (a run for it), `Idempotency` (the store's statements) and
`IdempotencyProtocol` (requests racing for a key), `IdempotencyHazards` (when they can still repeat)
and `Charges` (a key down to the money), `Relay`, `Psp`, `Consumer`, `AccountService`,
`FraudClient`.

What is taken as given: the account-service answers a request id once and replays the answer, and
a hold is captured or released, never both, though it may release one on its own account at any
time; the processor gives each payment one reference of its own, and may refuse at any time, even
what it has captured. `Attempts` further fixes each service's answer, the release's included, and
there a captured payment's capture is answered as done. `Settlement` takes the report to list, once
each, the captures of some earlier state since the start of its coverage, and the query to return
the booked rows of a later one.

## What was found

- **Releasing after the point of no return.** The sweeps scan, then reload without checking again
  (internal/saga/saga.go:263-269). Interleaved with a capture, a sweep can release the hold and fail
  a payment that already stands at psp_captured (`Races.SweepUndoesCapturedMoney`), and so can any
  driver left at a call that may be turned down. `Hazards.NoReturnExactly` gives the exact condition
  on the drivers still under way; with drivers serialised it always holds
  (`Serial.PspCapturedIsCommitment`).
- **Step-up expiry over a hold.** Two drivers that get different fraud verdicts can leave a payment
  failed as step_up_expired over an active hold, with no failed event (`Races.ExpiryStrandsHold`),
  even after the processor has taken the money (`Races.ExpiryUndoesCapturedMoney`).
  `Hazards.HeldFundsExpireExactly` gives the exact condition.
- **Collected, and nothing left to book.** A driver that dies between its release and its failure
  write (`Races.TornCompensationStrandsMoney`), or a hold that lapses at the account-service
  (`Races.LapseStrandsMoney`), leaves the payment open without its hold; the next capture at the
  processor collects money the ledger can never book. `Serial.CapturedMoneyLostItsHold` proves that
  with drivers serialised nothing else does, in both directions.
- **Redelivery does not finish the job alone.** The consumer's comment says a crash before the mark
  redelivers harmlessly (internal/consumer/consumer.go:156-159). A redelivery that finds the payment
  at psp_captured does nothing; only the resume sweeper books it. `Redelivery.RedeliveryIsHarmless`
  gives the exact condition, `Redelivery.StrandingHappens` a run.
- **Coverage straddle.** A payment captured at the processor before the report's coverage, whose
  booked row is last written or touched after that begins, is counted as booked but not settled,
  although it was settled (`Straddling.StraddlingHappens`); the comparison looks at updated_at, which a
  late touch moves too (internal/saga/saga.go:514-518). `Settlement.NoPhantomsUnlessStraddling` proves
  it to be the only such case.
- **A second payment under one key.** The key is to keep a repeated request from paying twice, but one that
  inserts its payment and then dies, or fails to store its response, which is only logged and happens
  under the client's own context (internal/httpapi/server.go:153-157), lets the next request insert
  another once the lease has passed, with nobody ever late (`IdempotencyHazards.DeathRepeats`). So do
  executions that outlive their lease (`IdempotencyProtocol.LateExecutionRepeats`).
  `IdempotencyHazards.OnePaymentExactly` and `OneResponseExactly` say from which states a second
  payment or response is impossible: never before a response is stored.
- **A hold after the failure.** With nobody dying and no release erring, a driver that denies the
  payment can fail it before another one's hold arrives (`Races.LateHoldOutlivesFailure`).
  `Hazards.CompensationExactly` gives the exact condition.

One suspicion proved unfounded. `retry` returns the error of a cancelled context, which the saga
reads as a decline (internal/psp/psp.go:121-125, internal/saga/saga.go:399-409); but the compensation
that follows is under the same context and reaches neither the account-service nor the database, so
the payment stays as it is (`Psp.GivesUpExactly`, `Psp.CancellationIsReadAsRefusal`).

Where code and documentation differ the model follows the code: a fraud outage that fails closed
ends as fraud_denied (README.md of the service says gateway_unavailable); the step diagram there
omits psp_captured; the wallet adapter's reading of a missing outcome as pending never applies
(`Psp.AdaptersAgree`).

## Model

| member | source | states |
|---|---|---|
| Interleaved.LedgerAfterProcessor | internal/saga/saga.go:437-507 | in every run of any racing, stale or dying drivers, the ledger has captured only if the processor has, and succeeded means both |
| Interleaved.TerminalIsFinal | internal/saga/saga.go:534-587 | once failed or succeeded, no later action changes the row or the outbox, although the step-guarded update ignores the status |
| Interleaved.OutboxHistory | internal/saga/saga.go:492-506 | requested first and once; at most one ending and nothing after it; captured iff succeeded; failed iff failed for a reason other than step-up expiry, with that reason |
| Interleaved.MoneyIsCleared | internal/saga/saga.go:344-389 | no hold is requested, and none exists, unless a screen let the payment through or its owner resumed it after a step-up verdict |
| Interleaved.DereferencesAreSafe | internal/saga/saga.go:448-507 | hold and processor reference are set in the row and in every snapshot wherever a step dereferences them, and they are this payment's |
| Interleaved.RunKeeps | internal/saga/saga.go:68-129 | the invariant coupling row, hold, processor, outbox and every live snapshot is kept by every run, and what snapshots rely on is never taken back |
| Interleaved.BookedAfterCollected | internal/saga/saga.go:454-507 | over every run with a clock that never goes back, the timestamps lie in the past and a succeeded payment was written after the processor captured |
| Hazards.NoReturnExactly | internal/saga/saga.go:236-271 | in every reachable interleaved state at psp_captured: the payment can never fail, and no driver will release its hold, if and only if no live driver is at a call that may be turned down, at a step-up verdict, or in a compensation |
| Hazards.HeldFundsExpireExactly | internal/saga/saga.go:183-202 | in every reachable interleaved state with a hold: expiry can never take the payment if and only if it is not parked and, while open, no live driver is still screening it |
| Hazards.CompensationExactly | internal/saga/saga.go:589-613 | in every reachable interleaved state of a failed payment: it has and will have no active hold if and only if it has none now and, where it has no hold at all, no live driver is still asking for one |
| World.FundsAreConserved | internal/accountclient/accountclient.go:34-76 | available plus held plus captured is constant per account over any run of any drivers on any payments |
| World.OneHoldOneBooking | internal/accountclient/accountclient.go:34-76 | each payment has at most one hold and one booking, for exactly its amount and on its account, and a hold is captured if and only if it is booked |
| World.RequestsDiffer | internal/accountclient/accountclient.go:34-76 | request ids derived from the payment id collide neither between payments nor between operations |
| AccountService.HoldIsExact | internal/accountclient/accountclient.go:34-76 | a new hold request is granted exactly when the account's available money covers it; that much moves into one active hold, and a refusal changes nothing |
| AccountService.GoesOneWay | internal/accountclient/accountclient.go:34-76 | an active hold is captured or released, whichever comes first, and every later request under another id is refused and changes nothing |
| World.LapseGivesBack | internal/accountclient/accountclient.go:34-76 | a hold that lapses gives its whole amount back to its account; one that was captured or released before stays as it is |
| World.BankAnswersExactly | internal/accountclient/accountclient.go:34-76 | that account-service gives every reply the driver must be ready for, and a new hold request the one its money decides |
| World.BankFits | internal/accountclient/accountclient.go:34-76 | an account-service keyed by request id gives only the replies the saga's own proof admits, and moves the hold as the saga believes |
| Serial.PspCapturedIsCommitment | internal/saga/saga.go:466-507 | from psp_captured on no driver is about to release or fail, the engine does nothing to the hold but capture it, an active hold is lost exactly if it lapses, and the only possible ending is succeeded |
| Serial.CompensationIsComplete | internal/saga/saga.go:183-202 | a failed payment has no hold or a released one, unless the release of the compensation that failed it errored, and then its failed event is out; a step-up expiry never had a hold |
| Serial.CapturedMoneyLostItsHold | internal/saga/saga.go:589-613 | at psp_captured the hold is released if and only if some driver died between a compensating release and its failure write or the hold lapsed |
| Serial.SerialIsInterleaved | internal/saga/saga.go:68-129 | every serial run is an interleaved run, state by state |
| Races.SweepUndoesCapturedMoney | internal/saga/saga.go:244-271 | a run in which a sweep scanned earlier fails and releases a payment standing at psp_captured |
| Races.TornCompensationStrandsMoney | internal/saga/saga.go:589-613 | a serial run that ends at psp_captured with the hold released |
| Races.LapseStrandsMoney | internal/saga/saga.go:292-295 | a serial run without any death that ends at psp_captured after its hold lapsed |
| Races.ExpiryStrandsHold | internal/saga/saga.go:183-202 | an interleaved run that ends step_up_expired over an active hold with no failed event |
| Races.ExpiryUndoesCapturedMoney | internal/saga/saga.go:563-587 | an interleaved run that ends step_up_expired with the money collected, the hold active, and no ending told |
| Races.LateHoldOutlivesFailure | internal/saga/saga.go:373-389 | an interleaved run without a death or an erring release that ends failed over an active hold |
| Attempts.CrashTransparency | internal/saga/saga.go:68-129 | attempts cut off anywhere, any number of them, then one uninterrupted attempt, end in the state of the uninterrupted attempt alone |
| Attempts.Restart | internal/saga/saga.go:68-105 | going on from any place inside a pass is the same as starting over from the row |
| Attempts.FaultsMean | internal/saga/saga.go:68-129 | what a cut is: the driver is gone, with its effect in place or without; otherwise it goes on to its next effect |
| Outcomes.OutcomeOfAttempt | internal/saga/saga.go:344-507 | an attempt on a new payment ends as an independent table over the services' answers says |
| Outcomes.EventualOutcome | internal/saga/saga.go:344-507 | after any interrupted history the outcome is that table's; success exactly when every party agrees; the hold taken on success and, if the release gets through, given back on failure |
| Entries.DeclineCompensates | internal/saga/saga.go:135-155 | an undisturbed decline fails a payment waiting at the gateway as gateway_declined, with its event, and gives back the active hold it knows; any other payment stays as it is |
| Entries.DeclineIsAllOrNothing | internal/saga/saga.go:135-155 | a decline cut anywhere leaves row and outbox as they were, or failed as gateway_declined with its event; a payment not waiting is untouched under any cut |
| Entries.ApprovalContinues | internal/saga/saga.go:135-161 | an undisturbed approval of a waiting payment writes the reference and ends where an attempt on that row ends |
| Entries.ResumeContinues | internal/saga/saga.go:164-181 | an undisturbed resume by the owner of a payment at requires_action reopens it at fraud_screened and ends where an attempt on that row ends; any other resume changes nothing |
| Entries.ResumeIsLettingThrough | internal/saga/saga.go:164-181 | so a payment parked before any hold ends as the outcome table says of one that was let through |
| Entries.MayBegin | internal/saga/saga.go:204-271 | which driver may begin at which row: passes, completions and resumes anywhere, the sweeps only where their scans look |
| Entries.LostReplies | internal/saga/saga.go:373-507 | a service's effect whose reply is lost is the effect of the reply, with nothing written but a timestamp, or, for a release, with the failure |
| Payments.TransitionMeans | internal/saga/saga.go:534-555 | the step-guarded update column by column: it writes exactly when the row still has the snapshot's step, whatever its status |
| Payments.TransitionWithMeans | internal/saga/saga.go:563-587 | the status-guarded update column by column: it writes exactly when the row is open, whatever its step, and it overwrites the failure code |
| FraudClient.Screen | internal/fraudclient/fraudclient.go:47-71 | an outage lets a payment pass exactly below the limit, flagged and scored -1; a reply passes only if it approves, and asks for a step-up exactly for step-up and hold |
| Outcomes.SweepCompensates | internal/saga/saga.go:204-271 | an undisturbed sweep gives back the hold the row knows, whatever it reloads, and fails an open row with its code and its event |
| Histories.HistoriesAreSerial | internal/saga/saga.go:68-271 | any history of attempts, completions, resumes and sweeps, each with its own answers and cuts, and of lapses between them, is one serial run |
| Histories.HistoriesAreSafe | internal/saga/saga.go:68-271 | so a failed payment holds no funds unless the release of the very job that failed it errored, its subscribers are told, and a succeeded one has its money captured by the processor and by the ledger, in every such history |
| Histories.TransparentEverywhere | internal/saga/saga.go:68-129 | crash transparency from every state a payment can reach |
| Convergence.EveryPaymentEnds | internal/saga/saga.go:68-129 | whatever a serial run leaves, one attempt against services that answer ends the payment or leaves it waiting for its completion; or at psp_captured without its hold, and that only after a torn compensation or a lapse |
| Convergence.EveryRaceEnds | internal/saga/saga.go:68-129 | whatever interleaved drivers leave, two attempts against services that answer end the payment, or leave it waiting, or at psp_captured without its hold; one is enough unless it was submitted before, pulled back, and is now pending |
| Convergence.AttemptEnds | internal/saga/saga.go:68-105 | the loop behind it: every pass goes on, or nothing is left to do |
| Redelivery.RedeliveryIsHarmless | internal/consumer/consumer.go:140-168 | deliveries that die, then one that does not, end as a single delivery if and only if the last did not find the payment at psp_captured with its ledger capture to be had; and always after one resumed attempt |
| Redelivery.DuplicatesChangeNothing | internal/consumer/consumer.go:140-168 | after any deliveries, a marked event has its reference in the row, later deliveries change nothing, and a resumed attempt ends as a single delivery would |
| Redelivery.StrandingHappens | internal/consumer/consumer.go:156-168 | the exception is reachable from every waiting card or wallet payment with a capturable hold whose captures would be accepted |
| Engine.Engine.Advance | internal/saga/saga.go:68-105 | the loop does to its payment what the attempt function says, stamps it if it writes the row, and touches no other payment's row or timestamp |
| Engine.Engine.Transition | internal/saga/saga.go:534-555 | the step-guarded update: which row is written, and that an error may hide a commit |
| Engine.Engine.TransitionWith | internal/saga/saga.go:563-587 | the status-guarded update, likewise |
| Engine.Engine.FailAndCompensate | internal/saga/saga.go:589-613 | release first, then the failure with its event, also when the release errors or its reply is lost, up to any cut |
| Engine.Engine.StepFraud | internal/saga/saga.go:344-371 | the fraud step up to the next reload, on this payment alone, its timestamp set to now if its row is written |
| Engine.Engine.StepHold | internal/saga/saga.go:373-389 | the hold step up to the next reload, on this payment alone, its timestamp set to now if its row is written |
| Engine.Engine.StepSubmit | internal/saga/saga.go:391-435 | the submission step up to the next reload, on this payment alone, its timestamp set to now if its row is written |
| Engine.Engine.StepPspCapture | internal/saga/saga.go:448-474 | the processor capture up to the next reload, on this payment alone, its timestamp set to now if its row is written |
| Engine.Engine.StepLedgerCapture | internal/saga/saga.go:480-507 | the ledger capture up to the next reload, on this payment alone, its timestamp set to now if its row is written |
| Engine.Engine.CompleteFromGateway | internal/saga/saga.go:135-155 | a completion's effect up to any cut; an error exactly when the payment is unknown, its load is cut, or the write of an awaited approval is; undisturbed, an awaited approval goes on from its reference and an awaited decline fails and compensates; a payment that waits for nothing stays as it is |
| Engine.Engine.ResumeAfterStepUp | internal/saga/saga.go:164-181 | resumes exactly when the payment exists, is at requires_action, the caller is its owner, and neither the load nor the write is cut; undisturbed, it then ends as an attempt on the reopened row; others change nothing |
| Engine.Engine.ExpireStaleRequiresAction | internal/saga/saga.go:186-202 | exactly the payments at requires_action whose updated_at lies before the limit fail as step_up_expired in one statement; nothing else changes |
| Engine.Engine.ExpireStuckSubmissions | internal/saga/saga.go:208-234 | of the processing payments at funds_held not updated since the limit, all, or twenty if there are more, are each failed and compensated as the sweep prescribes, up to any cut; no other payment's row or timestamp changes |
| Engine.Engine.ExpireStuckCaptures | internal/saga/saga.go:244-271 | likewise for those at submitted_to_gateway with a reference; a payment at psp_captured is never scanned |
| Engine.Engine.ResumeStale | internal/saga/saga.go:108-129 | of the processing payments not updated since the limit, all, or twenty if there are more, get one attempt each, one after another; no other payment's row or timestamp changes |
| Reconciler.Reconciler.Run | internal/saga/reconcile.go:91-182 | unavailable exactly when the report, its period or the rows are missing; otherwise each count is its own function of report and rows, drift exactly when one of the three is positive, a coverage gap exactly when only rows out of coverage are |
| Reconciler.Reconciler.ScanReport | internal/saga/reconcile.go:114-141 | the loop over the report: its references and the two counts |
| Reconciler.Reconciler.CountPhantoms | internal/saga/reconcile.go:143-153 | the count is the cardinality of booked minus reported, in whatever order the map yields |
| Reconciler.Reconciler.BookedReferences | internal/saga/reconcile.go:205-228 | the references in scope, and the rows out of it |
| Reconciler.ComparisonIgnoresOrder | internal/saga/reconcile.go:114-181 | permuting report and rows changes nothing |
| Reconciler.CleanMeans | internal/saga/reconcile.go:163-181 | clean if and only if nothing is unbooked, phantom, double or out of coverage |
| Reconciler.StatusMeans | internal/saga/reconcile.go:155-182 | from report and rows: drift if and only if an entry was settled twice, or an entry before the cutoff is unbooked, or a booked reference in scope is unreported; a gap if and only if none of these and some row is older than the coverage |
| Reconciler.CountSplit | internal/saga/reconcile.go:205-228 | rows out of scope plus rows in scope are all rows |
| Reconciler.CountIsCardinality | internal/saga/reconcile.go:114-141 | in a report without repetitions the count is that of distinct references |
| Settlement.PhantomsAreSettled | internal/saga/reconcile.go:143-153 | a booking in scope that an earlier report lacks is of money the processor has, captured before its coverage or after it was drawn up |
| Settlement.NoPhantomsUnlessStraddling | internal/saga/reconcile.go:143-153 | report and rows of one moment: nothing booked but not settled, if and only if no payment straddles the start of the coverage |
| Straddling.StraddlingHappens | internal/saga/reconcile.go:143-153 | a run from an empty system after which a right report and right rows of one moment yield one booking that was never settled |
| Settlement.LostMoneyIsCounted | internal/saga/reconcile.go:114-141 | settledNotBooked is exactly the number of payments captured within coverage and before the cutoff whose rows are not booked |
| Settlement.CleanIsTruthful | internal/saga/reconcile.go:155-181 | over reachable states, clean means that all money captured within the coverage and before the cutoff is booked, and that all bookings are of captured money and within the coverage |
| Idempotency.Store.Begin | internal/idempotency/idempotency.go:52-102 | three statements at three times with any statements of others between: who executes, replays, is refused, the two-minute lease written out, and the table after it |
| Idempotency.Store.Complete | internal/idempotency/idempotency.go:106-112 | the unguarded update of an existing record |
| Idempotency.Store.Purge | internal/idempotency/idempotency.go:115-122 | a record stays, unchanged, if and only if it is at most 24 hours old, completed or not, and the number of the others is returned |
| IdempotencyProtocol.GrantsAreSpaced | internal/idempotency/idempotency.go:52-102 | any two executions granted for a key are more than two minutes apart, so racing reclaimers yield one winner |
| IdempotencyProtocol.NoGrantAfterCompletion | internal/idempotency/idempotency.go:81-102 | once a response is stored the key is never granted again |
| IdempotencyProtocol.AnswersAreTrue | internal/idempotency/idempotency.go:78-102 | a replay is a response stored for the same payload; a mismatch means every execution was of another payload |
| IdempotencyProtocol.OneResponseForAll | internal/idempotency/idempotency.go:81-112 | if executions complete within their lease or never, one response at most, and every replay is it |
| IdempotencyProtocol.OnePaymentPerKey | internal/httpapi/server.go:134-224 | if executions neither outlive their lease nor die before their response is stored, one grant and at most one payment per key |
| IdempotencyProtocol.LateExecutionRepeats | internal/httpapi/server.go:134-224 | a run in which a late execution and its reclaimer both insert and both complete; the other cause is in DeathRepeats |
| IdempotencyHazards.OnePaymentExactly | internal/httpapi/server.go:134-224 | in every reachable state of a key: it can never come to a second payment if and only if its response is stored and its payments and pending insertions are at most one together |
| IdempotencyHazards.OneResponseExactly | internal/idempotency/idempotency.go:81-112 | it can never come to a second response if and only if it has one and no execution is left |
| IdempotencyHazards.DeathRepeats | internal/httpapi/server.go:153-160 | a run in which nobody is ever late and two payments are inserted, the first execution having died before its response was stored |
| Charges.OneChargePerKey | internal/httpapi/server.go:134-224 | if a key's executions are prompt and none dies, at most one payment is inserted under it, with at most one hold and one booking, for its amount, whatever the engine does with all payments |
| Charges.OneChargeHappens | internal/httpapi/server.go:134-224 | and that one payment can be had, by a run in which nobody is late or dies |
| IdempotencyProtocol.RunKeeps | internal/idempotency/idempotency.go:52-112 | the invariant over record, grants, completions and every racing request |
| Relay.Relay.Write | internal/outbox/outbox.go:23-32 | one more row, unprocessed, with an id beyond all others; the rows before it as they were, and still in id order |
| Relay.Relay.DrainOnce | internal/outbox/outbox.go:64-119 | the first fifty unmarked rows published in order up to any failure, and marked all or none |
| Relay.Relay.Poll | internal/outbox/outbox.go:47-62 | the loop, with writes between its ticks |
| Relay.AtLeastOnceInOrder | internal/outbox/outbox.go:64-119 | marked rows are a prefix; first occurrences in the log are a longer prefix, in id order; at most fifty are published but unmarked |
| Relay.NothingLostNothingInvented | internal/outbox/outbox.go:64-119 | every marked row is in the log, and the log holds only rows |
| Relay.EverythingIsDelivered | internal/outbox/outbox.go:47-119 | after any failures, enough undisturbed drains publish and mark everything |
| Published.SubscribersSeeHistory | internal/outbox/outbox.go:20-119 | over every run of the engine and a failing relay, what subscribers see of a payment is, without repetitions, a beginning of its outbox history: request first, ending last, a capture only if it succeeded, a failure only if it failed |
| Published.SubscribersSeeAll | internal/outbox/outbox.go:47-119 | and once enough drains succeed, all of it |
| Published.RecordTellsEvent | internal/saga/saga.go:589-613 | each event has its topic; the failure code can be read back from a failed record, and the reference from an authorized or a captured one |
| Psp.Retry | internal/psp/psp.go:112-128 | the loop makes turns while they fail transiently and the context lives, and returns the first settling turn's verdict |
| Psp.FirstSettles | internal/psp/psp.go:112-128 | that verdict, turn by turn |
| Psp.Authorize | internal/psp/psp.go:130-137 | the first conclusive exchange is the result: approved, pending or declined with the reply's own reference, or a refusal; a context that ends before one is its error, and silence throughout, breaker refusals included, is unavailability |
| Psp.Capture | internal/psp/psp.go:139-147 | the same for the capture |
| Psp.AdaptersAgree | internal/psp/psp.go:206-263 | the wallet's own reading of a missing outcome never applies |
| Psp.TurnMeaning | internal/psp/psp.go:101-110 | every guarded call is silent, a yes, a wait, a no or unsendable, and its result says which |
| Psp.GivesUpExactly | internal/saga/saga.go:397-414 | the submission fails an open payment if and only if the first conclusive exchange was a no or could not be built and the context outlived it; it lets go of the hold in no other case; and without a conclusive exchange, or under a context that has ended, the payment stays as it is |
| Psp.SubmitsExactly | internal/saga/saga.go:411-435 | at funds_held, a yes as the first conclusive exchange submits the payment with its reference and its authorized event, a wait without either, and it is submitted in no other case |
| Psp.DeclinedIsAnswered | internal/psp/psp.go:101-137 | unreachable is never declined: a payment failed as declined got an answer below 500 that was a no |
| Psp.SilenceChangesNothing | internal/saga/saga.go:397-407 | an attempt that meets only transport errors, 5xx, undecodable replies or breaker refusals leaves the payment as it is, also under a context that ends |
| Psp.CancellationIsReadAsRefusal | internal/saga/saga.go:397-409 | a wait cut short by a cancellation is read as a refusal, one cut short by a deadline as silence; neither changes the payment, since what follows is under the ended context |
| Psp.CaptureVerdict | internal/saga/saga.go:454-474 | the same for the capture: failed, recorded as collected, or left as it is, each exactly when, and only under a context that outlives the exchange |
| Consumer.Consumer.Handle | internal/consumer/consumer.go:105-168 | when a record is poison and when it is processed, both exactly; effect before mark, no mark after an error, no effect for a known event; on its payment, alone, an approval is one delivery of the redelivery laws, and a decline fails it or leaves it |
| Consumer.Consumer.HandleWithRetry | internal/consumer/consumer.go:88-103 | three attempts at most: one with everything up settles a clear record; the payment ends as at most three deliveries leave it; settled means processed or dead-lettered, an unreadable record has no effect, and only a failing dead-letter topic leaves one unsettled |
| Consumer.Consumer.HandleBatch | internal/consumer/consumer.go:65-82 | every record is attempted; offsets are committed only if every record is processed or dead-lettered with this batch, and held back only for one whose dead-letter topic was down |

## Left out

- Redelivery.RedeliveryIsHarmless: up to the row's version, which every repeated write raises, and for approvals only, because the engine hides a failed write of a decline.
- Redelivery.DuplicatesChangeNothing: starts from a payment already waiting for its completion; an event that arrives before submitted_to_gateway is recorded counts as resolved in the code.
- Attempts.CrashTransparency: with the services' answers fixed, the release's included, and no hold lapsing meanwhile.
- Histories.HistoriesAreSerial: holds lapse between jobs; within one they do in Serial and Interleaved only.
- Settlement.NoPhantomsUnlessStraddling: the claim that report and rows of one moment never disagree is false for straddling payments, so their absence is the condition.
- IdempotencyProtocol.OneResponseForAll: within one record's lifetime; a purge ends it, and the store's completion is unguarded.
- Relay.AtLeastOnceInOrder: one relay, rows inserted in id order; several replicas skip each other's locks and give up order across batches.
- Engine.Engine.ResumeStale: runs its attempts one after another where the code starts goroutines; their interleaving is the subject of Interleaved. ResumeAfterStepUp likewise.
- Engine.Engine.StepHold: a step that only touches the payment may or may not have moved updated_at when it is cut, so of a payment whose row is not written the timestamp is stated to be as before or now.
- Engine.Engine.CompleteFromGateway: takes the event's reference to be the one reference the processor gives the payment; a decline whose failure write is cut returns no error, as in the code, so a marked decline may have had no effect.
- Engine.Engine.ExpireStuckSubmissions: no bound on the wait, since the retries refresh the timestamp the scan looks at; which rows a full scan picks is left open.
- Psp.Authorize: the breakers either make the call or refuse it; their counting is not modelled, nor are backoff durations and Reverse, which the engine never calls.
- Consumer.Consumer.Handle: the wait for the schema registry is reduced to whether it ends before the consumer does; offset commits across batches belong to the Kafka client.
- ExpireStaleWallets: its query names a column the payments table does not have (migrations/00001_initial.sql:58-80), so it never gets past its scan.
- AlertStalledLedgerCaptures, logging, metrics and the status broadcast (internal/pubsub/pubsub.go): they observe and change nothing.
- FX quotes and rates, failure details, event payloads beyond hold, reference and code: carried along, never decided upon.
- createPayment's validation, authentication and step-up gate: only claim, execution and completion are modelled.
- A record that the broker stores long after its publish was reported as failed.
- SQL, HTTP, gRPC, Kafka and JSON themselves, configuration, health endpoints and the SSE stream.
