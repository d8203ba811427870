# Builder code bot: the payout, consolidation and signing core in Dafny

The service pays referral records out of a settlement account on an exchange, once a day, and marks the
records as completed in MySQL. Before that, at UTC 00:00, it claims the rewards of a list of builder accounts
and sweeps them into settlement. It must survive a crash at any point, an unreadable primary snapshot, an
exchange that does not answer, and a database that loses the response to a commit.

`dafny verify dfyconfig.toml` checks everything.

## What is proved

* **No double payment.** Over any number of activations, crashes after any effect and losses of the primary
  snapshot, a record occurs at most once over all applied payouts, every applied request pays exactly the
  rounded-up sum of its records to the recipient, a run submits at most twice and both times the identical
  request, no request leaves before both snapshot generations name it, losing the primary never strands an
  unsettled payment, and every row at status 1 was so before, was completed by another writer, or belongs to a
  run that was paid in full or owed nothing
  (`Payout.Orchestrator.Lifetime`, on the invariant `World.Inv`).
* **Recovery does what its phase demands.** A request that may have left is watched first, and the window that
  is put on record determines whether it is confirmed, replayed once or blocked; one that cannot have left is
  delivered; a paid run is completed. With nothing going wrong outside each of these steps is certain to be
  taken (`RecoverState`, `RunNew`, `Activate`). An exact boundary proves that the payment was made
  (`BalanceProvesPayment`), and a payment that alone moved the balance is confirmed (`PaymentConfirms`).
* **Blocked is terminal** in both snapshot generations, whatever is lost afterwards (`BlockedForever`).
* **Every activation ends** after at most the baseline and two observation windows of twenty queries: the
  `decreases` clauses of the mutually recursive payout methods go down in the submissions still authorized and
  the phase.
* **The store refines a register** with a one-generation fallback, through every sequence of cut Saves and
  losses; the loss that the payout proof must exclude (between two Saves of one activation) is shown to be
  exactly the one that breaks the promise (`TwoSavesCoverBothGenerations`).
* **The observers are trace properties**: their counters are proved equal to statements about the whole
  sequence of replies, including the window that grows while it is being used.
* **`Complete` is sound** under lost commit responses: after one, only rows that were seen pending since are
  tried again; it gives up only with a row or a refusal to blame, and with none it completes.
* **The consolidation** claims at most once per builder and date, only after the claimables are durable, leaves
  no step pending, and writes only records its validator accepts; a claim is prepared exactly when the logged
  answers and the baseline window call for it, and a sweep stops only for a reason that is on the log; an
  interleaved observation over all builders is equal to one observation per builder; every record is what the
  exchange has on its log; and settlement gains exactly what all builders lose, whatever the exchange applied
  and when.
* **MessagePack**: the encoder round-trips through a decoder written from the specification, exactly for the
  values whose lengths fit in 32 bits, no encoding of the same value is shorter, and a reader of the layout
  gets the action-hash preimage back as action, nonce, vault and expiry.
* **Lockstep** of the scheduler's retries, the application's attempts and the report status; **exact totals**.

## Files

| file | models |
|---|---|
| Wrappers.dfy | optional values |
| Funding.dfy | persisted entities and their validation |
| Manifests.dfy | totals, sort, frozen manifest |
| Store.dfy | the two snapshot generations |
| Repository.dfy | `Complete` and its retry loop |
| Observation.dfy, FinalBalance.dfy | the settlement observers |
| World.dfy | disk, exchange, database and logs as one value; the invariant and its steps |
| Payout.dfy | the orchestrator: new run, payout, recovery, completion, whole lifetimes |
| Exchange.dfy | the exchange of the UTC 00:00 task: its books, and its log of all that was asked, answered and sent |
| Reports.dfy, Claims.dfy, Sweep.dfy, Stages.dfy, Consolidation.dfy | the UTC 00:00 task |
| Nonce.dfy, Msgpack.dfy | the nonce source, the encoder and the hash preimage |
| Scheduler.dfy | schedule, retries, attempts, report status |

## Environment and faults

* One process runs at a time. A crash is an effect that does not happen: after every effect there is a path on
  which the next one fails without doing anything. What holds at every return of a method holds at a crash.
* A rename or a remove of a snapshot file is atomic. The primary may become unreadable any number of times,
  but only while no activation runs; the backup never does.
* The exchange applies a nonce at most once. Accepted means applied. A first delivery that is rejected was
  never applied. An ambiguous request may be applied at once, at any later time, or never.
* Money leaves settlement only through this service and may come in at any time. The baseline read before a
  payout reflects every earlier outflow; later reads may lag, but not behind that baseline.
* The client signs the nonce it is given and may return anything else; validation has to catch it.
* What goes wrong outside is counted where it is drawn, never by the service: failed file and archive calls,
  refused queries, updates that leave a row pending, dishonest signatures, cancellations, and changes by other
  writers. `Trouble` is their sum. A contract that says what happens with no trouble leaves the service no
  excuse of its own.
* The clock is ahead of every payout nonce that an earlier process drew.
* Other writers may change database rows at any time, except that status 1 is never taken back. The record
  identifier is the primary key, so a list of rows never repeats one.
* Amounts are integers at the scale 10^-18; addresses are compared in lower case, so a string stands for its
  lower-case form.
* Values chosen by the outside world are drawn with `*`, and put on record where they are drawn: balance
  replies and lists of rows in `World.Told`, answers to a payout in its run, changes by other writers in the
  repository, and everything of the UTC 00:00 task in the exchange. An observer gets a whole window of replies
  at once; the queries it does not need count as made.
* The UTC 00:00 task draws a nonce from a clock that is ahead of those of earlier processes, too. Money may
  reach or leave any account by other ways at any time.

Where the service repeats a check on a state it has validated before, the model asserts that it holds.

## Model

| member | source | states |
|---|---|---|
| Payout.Orchestrator.Lifetime | internal/funding/recovery.go:29-99 | over any number of activations, new processes, environment moves and primary losses: an identifier occurs at most once over all applied manifests, inside each one too; payments are exact, and go from the configured settlement account to the configured recipient; at most two identical sends per run; every send left with both generations naming the request and an attempt for it; a row at status 1 was so at the start, was completed by another writer or belongs to a run paid in full or owing nothing, and the service changed no row in any other way; an unsettled payment survives the loss of the primary |
| Payout.Orchestrator.BlockedForever | internal/funding/recovery.go:172-184 | once both generations are blocked, no later activation submits, completes a row, freezes or draws a nonce, and both stay blocked through any loss |
| Payout.Orchestrator.Activate | internal/funding/recovery.go:29-99 | keeps the invariant, only extends the logs, asks for at most forty-five balances; a doubly blocked or unreadable store changes nothing at all; with nothing going wrong outside, a loaded run is recovered as its phase demands, an empty disk is left alone at startup and starts a run otherwise, and an accepted payment finishes |
| Payout.Orchestrator.Dispatch | internal/funding/recovery.go:29-99 | what was loaded decides: an error or a block changes nothing, a run is recovered, an empty disk starts a run unless this is startup |
| Payout.Orchestrator.RecoverState | internal/funding/recovery.go:101-188 | by phase and provenance, against the record of replies: submitting, replaying and a payout_prepared from the backup read one window first, and what it shows decides between confirming, replaying, blocking and stopping; a primary payout_prepared delivers the request over the two boundaries; prepared acts on a baseline window, or completes if it owes nothing; confirmed and completed finish; blocked, and a baseline that does not cover the payout, touch nothing. A step is certain to be taken when nothing goes wrong outside, and it is fatal only after a delivery, at a block, or with a baseline that does not cover the payout |
| Payout.Orchestrator.Resume | internal/funding/recovery.go:131-188 | the switch over the phases of a validated run that is not completed, with the same promise |
| Payout.Orchestrator.WatchFirst | internal/funding/recovery.go:131-156 | one window of twenty replies is recorded before anything else and determines the decision; halt changes nothing, block ends in both generations blocked and archived, a confirmation finishes with its evidence archived, a replay is delivered with both generations at two attempts, each with nothing going wrong outside |
| Payout.Orchestrator.RunNew | internal/funding/orchestrator.go:129-216 | with nothing on disk a new run freezes exactly the rows of the list that is on record, with their exact and rounded total and the configured accounts; with nothing going wrong outside an empty list is no data, a negative amount is fatal, a run that owes nothing finishes and any other acts on its baseline window; it is fatal only for a negative amount or after that window |
| Payout.Orchestrator.Snapshot | internal/funding/orchestrator.go:129-200 | the manifest is that of the recorded list with the configured accounts; no manifest means no rows, a negative amount or a refusal from outside |
| Payout.Orchestrator.ListPending | internal/repository/mysql/repository.go:62-95 | the rows it returned are on record, pending and distinct |
| Payout.Orchestrator.FreezeManifest | internal/funding/orchestrator.go:202-216 | the run starts at prepared with the frozen manifest as what the disk gives back |
| Payout.Orchestrator.RunActiveTarget | internal/funding/orchestrator.go:218-236 | a completed run is finished and a run that owes nothing is completed, unless something goes wrong outside; any other acts on a baseline window that is on record |
| Payout.Orchestrator.RunPositive | internal/funding/orchestrator.go:238-335 | on the recorded window of five: without a first stable covering pair nothing is drawn, saved or sent; a send means such a pair k, is the honest request of the manifest, and left while the disk was submitting over the journaled intent with the total of reply k as its baseline; with nothing going wrong outside it is sent if that total covers the payout |
| Payout.Orchestrator.ExecutePayout | internal/funding/payout.go:46-88 | either nothing is sent, or a request that validates against the manifest left while the disk was submitting over the intent journaled with the given baseline and one attempt; it is sent if the baseline covers the payout and nothing goes wrong outside |
| Payout.Orchestrator.Prepare | internal/funding/payout.go:63-66 | the nonce was never drawn before, and the baseline is the floor that later reads cannot fall behind; a request other than the honest one counts as trouble |
| Payout.Orchestrator.DrawNonce | internal/hyperliquid/signing/nonce.go:22-32 | with a clock ahead of the nonces of earlier processes the generator returns one that no payout used |
| Payout.Orchestrator.SubmitPreparedPayout | internal/funding/payout.go:90-112 | either nothing is sent, or the journaled request left while the primary said submitting and the backup held the prepared intent; it is sent if its baseline covers the payout and nothing goes wrong outside |
| Payout.Orchestrator.ReplayPreparedPayout | internal/funding/payout.go:114-144 | either nothing is sent, or the same request left while both generations said replaying with two attempts, which happens unless something goes wrong outside; the run is forgotten only if it is paid and completed; at most one more window of queries |
| Payout.Orchestrator.SubmitPayoutAttempt | internal/funding/payout.go:146-185 | the journaled request is delivered with the disk as it was; the run is forgotten unpaid only on the first delivery, fatally, and with the request neither in flight nor applied; with nothing going wrong outside an accepted one finishes, archived with the exchange's response as its evidence, and a first rejected one ends archived as rejected with an empty disk; an ambiguous one, or a rejected replay, records a window |
| Payout.Orchestrator.ActOnReply | internal/funding/payout.go:163-185 | the same, answer by answer |
| Payout.Orchestrator.ObserveUncertainPayout | internal/funding/payout.go:187-299 | the decision is the one the recorded replies determine: halt changes nothing on disk; block is fatal and ends in both generations blocked and archived; only a replay sends, with both generations at two attempts; a confirmation finishes with its evidence archived; each unless something goes wrong outside |
| Payout.Orchestrator.ActOnDecision | internal/funding/payout.go:236-299 | what each decision leads to |
| Payout.Orchestrator.Watch | internal/funding/payout.go:214-281 | one window of twenty queries is asked and recorded; a confirmation means the request was applied |
| Payout.Orchestrator.Readings | internal/funding/payout.go:218-249 | every query is counted and recorded, and shows a total no older than the given position |
| Payout.Orchestrator.ConfirmPayout | internal/funding/payout.go:320-352 | sends nothing; the run is forgotten only if paid and completed; a finished one is archived as completed with the evidence it was confirmed by; it is never fatal, and finishes unless a write, the archive or the database fails |
| Payout.Orchestrator.RejectPayout | internal/funding/payout.go:354-392 | a first delivery that was refused ends fatally; unless a write or the archive fails it is archived as rejected and the disk is empty |
| Payout.Orchestrator.BlockUncertainPayout | internal/funding/payout.go:394-428 | ends fatally with the run still on disk; unless a write or the archive fails it is archived as uncertain and both generations are blocked |
| Payout.Orchestrator.CompleteDatabase | internal/funding/orchestrator.go:1340-1392 | sends nothing; the disk is emptied only when the rows are at status 1 and the payment is settled; a finished run is archived as completed; it is never fatal, and finishes unless a write, the archive or the database fails |
| Payout.Orchestrator.CompleteRows | internal/funding/orchestrator.go:1352-1366 | the rows of a settled run are completed and no other row is touched |
| Payout.Orchestrator.FinishRun | internal/funding/orchestrator.go:1394-1411 | archives and clears a completed run and touches nothing else; it finishes unless a write or the archive fails |
| Payout.Orchestrator.Persist | internal/funding/orchestrator.go:1309-1338 | a permitted state is saved at any cut without breaking the invariant |
| Payout.Orchestrator.PersistTwice | internal/funding/payout.go:128-135 | two Saves of one state leave both generations equal to it, or the run still on disk |
| Payout.BalanceProvesPayment | internal/funding/payout.go:301-318 | with inflow-only settlement a readable exact boundary implies that this run's own request was applied |
| Payout.PaymentConfirms | internal/funding/payout.go:301-318 | the converse: if the exchange applies the open run's request to the balance of its baseline, with or without the fee of a new address, two adjacent queries in the window that show the new total are confirmed, as the payout with or without the fee |
| Payout.OnlyHonestRequestsAreValid | internal/funding/action_validation.go:13-49 | validation accepts a request iff it is the transfer the manifest asks for, field by field |
| Payout.CoveredIsValid | internal/funding/action_validation.go:51-103 | a held run with a journal passes the checks of recovery iff its baseline covers its payout |
| Payout.AdvanceIsSafe | internal/funding/payout.go:90-428 | which phase changes of a journal may replace what is on disk |
| Payout.BoundaryAllowsSend | internal/funding/payout.go:100-140 | two generations that both name the request allow its send |
| Payout.PreparedMeansUnsent | internal/funding/recovery.go:131-142 | at prepared nothing of this run has left and nothing of any run can still move money |
| World.PaidRecordsAreDisjoint | internal/funding/payout.go:46-428 | the invariant implies that an identifier occurs at one place of one applied manifest, and that every applied request pays its manifest exactly |
| World.LossNeverStrandsAPayment | internal/state/store.go:39-72 | while a payment may still move or has moved and its rows are open, losing the primary loads the backup, which names the request |
| World.CompletionIsSound | internal/funding/orchestrator.go:1340-1392 | the invariant implies that a row at status 1 was so at the start, was completed by another writer, or belongs to a run applied in full or owing nothing |
| World.DurableBoundary | internal/funding/recovery.go:131-156 | a loadable prepared, or a primary payout_prepared, implies nothing was sent; after two sends whatever loads has two attempts |
| World.SaveKeepsInv | internal/state/store.go:74-125 | every cut of a permitted Save keeps the invariant |
| World.LossKeepsInv | internal/state/store.go:39-72 | losing the primary keeps the invariant |
| World.ClearKeepsInv | internal/state/store.go:169-188 | every cut of a Clear keeps the invariant when the run is completed or was refused outright |
| World.FreezeKeepsInv | internal/funding/orchestrator.go:129-216 | freezing pending rows with no open run keeps every payment disjoint |
| World.SendKeepsInv | internal/funding/payout.go:146-185 | a send recorded in everything readable keeps the invariant |
| World.ApplyKeepsInv | internal/dev/hyperliquidmock/server.go:340-378 | the exchange applying a request in flight at any time keeps the invariant |
| World.CompleteKeepsInv | internal/repository/mysql/repository.go:97-152 | a table that differs by completed rows of a settled run, and by other writers, keeps the invariant |
| Store.SnapshotStore.LoadWithMetadata | internal/state/store.go:39-72 | primary, else backup, else empty only if both are missing, else an error |
| Store.SnapshotStore.Save | internal/state/store.go:74-125 | leaves one of the permitted disks; success means the new primary over the rotated backup; with no failure of the system it is refused iff an unreadable primary has no readable backup |
| Store.SnapshotStore.Clear | internal/state/store.go:169-188 | leaves one of the permitted disks; success means both are gone, and with no failure of the system it succeeds |
| Store.SaveIsAtomic | internal/state/store.go:74-125 | a cut Save leaves the old or the new value and never destroys the only readable snapshot |
| Store.PrimaryLossRevertsOneGeneration | internal/state/store.go:39-125 | a loss after a Save brings back exactly the previous value, or fails closed |
| Store.TwoSavesCoverBothGenerations | internal/state/store.go:93-117 | saving a new state twice survives a loss if and only if the primary was not lost in between |
| Store.ClearNeverResurrects | internal/state/store.go:169-188 | a cut Clear loads as the terminal state or as nothing |
| Store.StoreRefinesRegister | internal/state/store.go:39-125 | through every sequence of cut Saves and losses the files behave as a value with one fallback |
| Observation.QuerySettlement | internal/funding/payout.go:214-281 | the loop leaves where the trace says: a confirmation, an interruption, or a used-up window |
| Observation.ObservePayout | internal/funding/payout.go:187-299 | confirmed iff two adjacent queries in the window show one boundary; stopped iff interrupted before; a full unmoved window iff ten successes all at the pre-submit total |
| Observation.Decide | internal/funding/payout.go:214-299 | on the replies alone: confirm iff a reached query and the one before it both show the baseline less the payout, or both that less one USDC, and neither is negative, with the evidence that names which; halt iff a reached interruption; replay iff one attempt in an eligible phase and a full unmoved window; block otherwise |
| Observation.UnmovedMeansUnconfirmed | internal/funding/payout.go:214-299 | the replay condition and the confirmation condition exclude each other |
| Observation.AwaitStableBalance | internal/funding/orchestrator.go:238-335 | stable iff two adjacent equal covering tuples come first; stopped iff interrupted before; unobserved iff every query failed; unstable and underfunded by whether the last balance covers |
| FinalBalance.AwaitRepeatedTotal | internal/funding/report_observation.go:69-158 | the growing limit admits exactly the queries before which five successes are not used up or the last success showed an expected total |
| FinalBalance.ObserveFinalBalance | internal/funding/report_observation.go:47-158 | after a payout: observed iff a repeated expected total falls into the window, and then it is a boundary that is not negative; invalid iff the payout exceeds the baseline; without a payout one plain read |
| MySql.Repository.Complete | internal/repository/mysql/repository.go:97-152 | returns nil only if every id is at status 1; changes no row outside the ids, and those only from pending to completed, other writers aside; a permanent error names a row of the ids that was missing or at another status than 0 and 1, a row an update left pending, or a permanent refusal; after a commit without an answer a transaction is begun only for rows that were seen pending since; with no refusal, no other writer, no row left pending and every id at 0 or 1 it completes |
| MySql.Repository.Attempt | internal/repository/mysql/repository.go:108-150 | one attempt: while the outcome of a commit is open no transaction is begun before all rows are read back, and then only for those seen pending; after a retryable error it stays open only if that read-back was refused; an error is retryable only after a refusal, and permanent only with a row or a refusal to blame |
| MySql.Repository.TryRemaining | internal/repository/mysql/repository.go:124-150 | the same from the transaction on |
| MySql.Repository.CompleteTransaction | internal/repository/mysql/repository.go:154-205 | changes no row outside the ids, and none at all without a commit attempt, other writers aside; success means every id at status 1; a commit is attempted only after a status query in the transaction showed every id completed; an error is the refusal that was met, or permanent because of a bad row or a row an update left pending |
| MySql.Repository.UpdateRows | internal/repository/mysql/repository.go:171-192 | the transaction's view differs only by rows of the ids that went from pending to completed; a row left pending was left by an update |
| MySql.Repository.ReadStatuses | internal/repository/mysql/repository.go:213-293 | every id that is not returned is at status 1, in the transaction's view or on the live table, and every id that is returned was read as pending; it fails only with the refusal it met, or because a read showed an id missing or at another status than 0 and 1; nothing is written |
| MySql.Repository.ReadBatch | internal/repository/mysql/repository.go:262-287 | refused iff an id of the batch is missing or at another status than 0 and 1; otherwise the ids at status 0 |
| MySql.UniqueIds | internal/repository/mysql/repository.go:337-348 | the first occurrences in their order: same set, no repetition |
| Manifests.RoundUpIsLeastMultiple | internal/funding/amount.go:12-27 | the payout is the least multiple of 10^-6 not below the sum and exceeds it by less than 10^-6 |
| Manifests.CalculateTotals | internal/funding/amount.go:12-27 | exact sum, or the first negative record |
| Manifests.PayoutIsZeroIffAllZero | internal/funding/amount.go:12-27 | the payout is zero iff all amounts are |
| Manifests.SumIgnoresOrder | internal/funding/manifest.go:18-45 | totals do not depend on the sort |
| Manifests.SortRecords | internal/funding/manifest.go:18-45 | an ordered permutation that keeps identifiers distinct |
| Manifests.OrderIsUnique | internal/funding/manifest.go:18-45 | with unique ids the unstable sort has exactly one output |
| Manifests.BuildManifest | internal/funding/manifest.go:18-45 | refused iff an amount is negative; otherwise a sorted, totalled copy with a token iff the payout is positive, with distinct identifiers if the rows have them |
| Claims.ObserveMeans | internal/funding/orchestrator.go:1046-1119 | the counters of one builder's observation say exactly what its trace says, and what was read last is the balance it first converged at |
| Claims.ObserveClaims | internal/funding/orchestrator.go:1016-1142 | the interleaved loop over maps leaves for every builder the state of its own separate observation |
| Claims.Ask | internal/funding/orchestrator.go:1046-1119 | one attempt for one builder is one step of its observation and leaves all others alone |
| Claims.Judge | internal/funding/orchestrator.go:1068-1119 | visibility, transition and counter agree with the step function on every state |
| Claims.ResolvedClaimsWereWitnessed | internal/funding/orchestrator.go:1016-1142 | an unknown claim is resolved iff the pre-claim tuple was seen and then two adjacent equal covering tuples, each with a lower claimable, and the claimable was captured |
| Sweep.LoadSweepBalance | internal/funding/orchestrator.go:908-973 | steady iff two adjacent equal tuples at or above the floor come first |
| Sweep.SweepBuilder | internal/funding/orchestrator.go:754-884 | on the exchange's log: at most three submissions, increasing nonces, all to settlement, each after a window of its own and of that window's steady available balance, or of the last ambiguous amount if that is more; the reported amount is the accepted one and is part of what was moved; success iff the only submission was accepted and the claim converged; skipped iff the last window showed nothing to sweep; ambiguity ends as a warning; and it stops only when an answer settled it, at the third attempt, or because the last window was unsteady, showed nothing to sweep or could not be acted on |
| Sweep.SweepAttempt | internal/funding/orchestrator.go:767-876 | one attempt reads one window and either ends the sweep for one of the reasons that allow it, or leaves every promise of the log open for the next |
| Sweep.SendAmount | internal/funding/orchestrator.go:821-876 | the amount read is signed and sent, and the answer decides between ending and another attempt |
| Sweep.AmbiguityIsPursued | internal/funding/orchestrator.go:767-876 | an ambiguous transfer below the third attempt is followed by another window |
| Sweep.SubmissionKeepsOpen | internal/funding/orchestrator.go:795-876 | a submission of the right amount keeps every promise, and leaves the sweep open only if it was ambiguous or a rejected retry |
| Sweep.AppendKeepsSafe | internal/funding/orchestrator.go:842-876 | a further submission keeps nonces, destination and amounts in shape |
| Exchanges.BalanceIsConserved | internal/funding/orchestrator.go:754-884 | with every transfer from a builder to settlement, settlement gained what all builders together lost, no builder gained and no other account is concerned |
| Exchanges.SubmissionKeepsBalance | internal/funding/orchestrator.go:846-870 | a further transfer, applied or not, keeps the books equal to the applied part of the log |
| Exchanges.LateApplicationKeepsBalance | internal/dev/hyperliquidmock/server.go:340-378 | an ambiguous transfer applied later, once, moves its amount from its signer to its destination |
| Exchanges.BuildersPayForAll | internal/funding/orchestrator.go:754-884 | what the builders lost together is the sum of the applied transfers |
| Exchanges.Exchange.Submit | internal/dev/hyperliquidmock/server.go:340-378 | the transfer is on the log with its outcome and the window before it, and the books stay sound |
| Exchanges.Exchange.DrawNonce | internal/hyperliquid/signing/nonce.go:22-32 | the nonce is above every nonce ever sent |
| Nonces.NonceGenerator.Next | internal/hyperliquid/signing/nonce.go:22-32 | strictly increasing, never behind the clock, and always the clock or one past the last nonce |
| Stages.CaptureClaimable | internal/funding/orchestrator.go:377-457 | the first of five answers that is not negative, or a warning if there is none |
| Stages.CaptureBuilder | internal/funding/orchestrator.go:377-457 | the captured values are those of the answers on the exchange's log |
| Stages.DueMeans | internal/funding/orchestrator.go:504-509 | a claim is made iff the first of the logged answers that is not negative is at least one USDC, or there is none |
| Stages.BaselineBuilder | internal/funding/orchestrator.go:511-608 | the baseline is the tuple the logged window settled on; only an eligible builder is asked |
| Consolidation.DailyTask.Capture | internal/funding/orchestrator.go:377-457 | every builder is captured, observed or with a warning, as the exchange answered |
| Consolidation.DailyTask.TakeBaselines | internal/funding/orchestrator.go:511-608 | a baseline exists iff the builder is eligible and its logged window settled, and is that tuple; otherwise a warning |
| Stages.ClaimBuilder | internal/funding/orchestrator.go:610-735 | a claim is prepared, once, iff it is due and the baseline window settled, and reaches the exchange iff the client signed it; the logged reply settles the claim with its status or leaves the target it calls for; a claim that is not due is skipped |
| Stages.ClaimIsDecided | internal/funding/orchestrator.go:504-735 | on the exchange's log alone: a reply implies that the first non-negative answer was at least one USDC or that there was none; those answers imply a baseline window, and with a settled window and a signed request exactly one reply; skipped without a request iff the first non-negative answer is less |
| Stages.TargetFrom | internal/funding/orchestrator.go:673-685 | the increase to wait for is the captured claimable truncated to the token's unit, or one USDC if it is unknown |
| Consolidation.DailyTask.ClaimRewards | internal/funding/orchestrator.go:610-735 | every builder that is due and has a settled baseline is claimed for, once, with the record already durable, and no other; every target is the one the logs call for; it stops early only on a refusal from outside |
| Stages.SettleObservation | internal/funding/orchestrator.go:1176-1236 | an observed claim is a success iff its logged trace converged, and uncertain iff it was unknown and did not; without a target it is neither; only an unconverged one leaves its sweep at a warning |
| Stages.SweepOne | internal/funding/orchestrator.go:754-884 | the report of the sweep is what the exchange's log shows was read and sent |
| Consolidation.DailyTask.ObserveRewards | internal/funding/orchestrator.go:1016-1142 | no claim stays open, uncertain implies warning, and every report, floor and convergence is what the logged trace shows |
| Consolidation.DailyTask.SweepAll | internal/funding/orchestrator.go:754-884 | no sweep stays pending, and every report is what the exchange's log shows |
| Consolidation.DailyTask.ClaimAndSweep | internal/funding/consolidation.go:125-166 | without an error no step is pending and every report is what the exchange's log shows; no other date is touched |
| Consolidation.DailyTask.RecordOf | internal/funding/daily_consolidation.go:205-232 | captured and finished reports both give a record the validator accepts and the logs support |
| Reports.Validate | internal/funding/daily_consolidation.go:49-108 | accepts a record iff it has its times, distinct addresses and consistent entries, with nothing pending once completed |
| Consolidation.DailyTask.SaveRecord | internal/funding/daily_consolidation.go:176-199 | a record is durable whole or not at all, and the claimables of its date stay as first written |
| Consolidation.DailyTask.FreezeClaimables | internal/funding/daily_consolidation.go:167-186 | the claimables of a new date become durable exactly as captured, before anything is claimed |
| Consolidation.DailyTask.RunDaily | internal/funding/daily_consolidation.go:147-203 | an existing record stops everything; otherwise success means a completed valid record with the captured claimables and the times of this run that is what the exchange's log shows, and only a refusal from outside prevents it; other dates are untouched |
| Consolidation.DailyTask.Lifetime | internal/funding/daily_consolidation.go:147-203 | any number of daily runs cut anywhere: at most one claim per builder and date reaches the exchange, with a valid durable record, its first claimables, and answers that call for it; every record, and every decision to claim or to skip in it, is what the exchange's log shows; settlement gained exactly what all builders lost |
| Consolidation.StepKeepsInv | internal/funding/daily_consolidation.go:147-203 | a step for one builder of a begun date keeps every record true and every date claimed once |
| Msgpack.Pack | internal/hyperliquid/signing/msgpack.go:12-18 | succeeds iff types, integer range and keys are accepted, and then returns the specified bytes |
| Msgpack.EncodeValue | internal/hyperliquid/signing/msgpack.go:20-63 | appends exactly the bytes of the value, or fails iff it is not accepted |
| Msgpack.EncodeObject | internal/hyperliquid/signing/msgpack.go:65-81 | header and entries in order; fails iff a key is empty or a value not accepted |
| Msgpack.EncodeArray | internal/hyperliquid/signing/msgpack.go:83-93 | header and items in order |
| Msgpack.RoundTrip | internal/hyperliquid/signing/msgpack.go:12-205 | decoding the encoding and any following bytes gives back the value and those bytes |
| Msgpack.RoundTripsExactlyWhenSized | internal/hyperliquid/signing/msgpack.go:95-190 | the round trip holds iff every length is below 2^32 |
| Msgpack.HeadIsShortest | internal/hyperliquid/signing/msgpack.go:95-190 | no format of the specification writes a header or integer in fewer bytes |
| Msgpack.HeadIsCanonical | internal/hyperliquid/signing/msgpack.go:95-190 | among the shortest forms of a header or integer the encoder's is the only one that writes a non-negative integer unsigned |
| Msgpack.NoShorterEncoding | internal/hyperliquid/signing/msgpack.go:12-205 | no bytes that decode to a value are shorter than its encoding |
| Msgpack.EncodingsArePrefixFree | internal/hyperliquid/signing/action_hash.go:17-44 | bytes may follow an encoding without a separator |
| Msgpack.BuildPreimage | internal/hyperliquid/signing/action_hash.go:17-44 | fails iff the action is nil or not accepted; otherwise a reader of the layout gets back the action, the nonce, the vault address and the expiry |
| Msgpack.PreimageIsReadable | internal/hyperliquid/signing/action_hash.go:17-44 | the reader takes the action, eight bytes of nonce, a byte 0, or a byte 1 and twenty bytes of address, and then nothing or a byte 0 and eight bytes of expiry |
| Msgpack.PreimageIsInjective | internal/hyperliquid/signing/action_hash.go:17-44 | equal preimages have equal action, nonce, vault and expiry |
| Scheduler.NextTaskIsEarliest | internal/scheduler/scheduler.go:58-71 | the next slot is on the schedule, not in the past, and no slot is skipped |
| Scheduler.App.RunFunding | internal/app/app.go:195-210 | the attempt stays between one and six; a report says retrying iff the attempt grew by one, exhausted iff a nonfatal failure of the sixth; success starts again at one |
| Scheduler.Run | internal/scheduler/scheduler.go:82-154 | a turn consolidates iff no retry is owed and the calendar says so; every history is in lockstep; retry-exhausted is returned iff the last report says so |
| Scheduler.EveryCallIsInLockstep | internal/funding/report.go:455-510 | attempt = retries + 1, at most six; a report says retrying iff the next turn is the next attempt |

## Left out

- The run state holds one referral target; the list of targets and its kind check are not modelled.
- Decimal and date text, hexadecimal addresses, keccak, EIP-712 and signatures: opaque values.
- Sync of files and directories below the rename; the lock file; snapshot checksums (readable or not).
- Retry backoff, jitter and the notifier of the MySQL retry loop; SQL text and driver error classes.
- Report texts, alerts, warnings lists, rate limits, attaching a daily record to the funding report.
- The consolidate-only entry point, which skips the daily record.
- Goroutine order inside a joined round: builders are taken one after the other.
- Consolidation.DailyTask.SaveRecord: one record per date with an atomic rename; its own file checks are not modelled.
- Consolidation.DailyTask.ClaimRewards: a cancelled round stops after any prefix of the claims instead of after all of them.
- Payout.Orchestrator.Snapshot: a run whose amounts are invalid ends fatally; its archived copy is not modelled.
- Payout.Orchestrator.ListPending: returns any sequence of distinct pending rows, not necessarily all of them.
- MySql.Repository.Complete: the unbounded retry loop ends after `patience` attempts, which stands for the cancelled context.
- Nonces.NonceGenerator.Next: does not model wrap-around of the 64-bit counter.
- Scheduler.App.RunFunding: a successful run has one status; warning and no-data reports are not told apart.
