# Verification of the transfer engine

This project models the parts of dv-processing that move money, and proves what they promise:

* the resumable **workflow engine** and the three state machines that run on it: UTXO chains, EVM
  chains and Tron. A transfer lives across many runs, each restored from the snapshot the one before
  stored; steps fail, snooze, jump, and the process may die in them;
* the **block scanner**: chunked catch-up, validation before commit, rollback and restart;
* **admission and dispatch**: many callers of `Create` around a condition variable, ticks that insert
  workflow jobs, and status changes, in every interleaving;
* the **webhook sender** and the order in which webhooks of one request are delivered;
* the **wallet cache** against the database it stands for;
* the **arithmetic** of EVM fees and of UTXO transactions, with its rounding written out.

`dafny verify dfyconfig.toml` checks everything.

## How it is built

`Engine.dfy` says what a run means, on values; `WorkflowRun.dfy` is the workflow object, updated in
place by loops, and every method of it is proved to do what the function of the engine says.
`Resumption.dfy` defines a driver that moves only when a step succeeds, `Simulation.dfy` proves that
one run makes a stretch of the driver's steps, and `History.dfy` lifts that to any number of runs. A
property of a state machine is then an invariant of its driver: the answers of nodes, explorers and
databases come from a tape the theorem quantifies over, so it holds whatever is answered.
`TransferJobs.dfy` runs the workflow object with each state machine and ensures the promises of the
theorems. The files named `Steps` hold what the step functions do with database transactions and
loops, in place; those named `Deaths` say what becomes of a transfer whose process died right after a
broadcast. For Tron `FsmTronRouting.dfy` says what holds at each step, and `FsmTronCalls.dfy` proves it
of each call. `LastStage.dfy` is about runs that a redirect sends to the last stage, where the
driver's regime ends, and `FsmTronInterrupted.dfy` about the runs after it.

Three files say of the engine what its definition only implies: `StatusLog.dfy` what a stored status tells
about the calls that were made, `Retries.dfy` what the attempts of a step come to, and `Interruption.dfy` what
a run does first and what ends it at once. The files named `Moves` do it for the state machines: a table of
turns, position by position, that names no step function, and the proof that every step takes its turn; and
`FsmTronItinerary.dfy` lists the steps a Tron transfer makes, all of them and in order. `ScannerPass.dfy` and
`WebhookPass.dfy` do it for one pass of the scanner and of the webhook sender.

The scanner and the webhook sender follow the same shape: functions that say what a pass means, a class
that does it, and invariants over any sequence of events. Admission is a state machine whose steps are
the stretches of code under the mutex and the calls to the database. Decimals are `real`, because the
program's decimals are exact; `Decimals.dfy` writes out the three roundings it uses.

## What the proofs turned up

* `activateWalletBurnTRX` sets the jump of a free activation on the step instead of the workflow, so the
  transfer waits for an activation transaction for ever: unless an activation was broadcast before, the
  wait is left exactly if the fee was not zero and its transaction is confirmed
  (`FsmTronActivation.ActivationLeftIff`; a transfer that gets there is in
  `FsmTronActivation.FreeActivationNeverSends`).
* The sending step of the UTXO chains does not look for a transaction it sent before: after the process
  died right after a broadcast the transfer is broadcast again, or stored as failed, depending on whether
  the next answer builds a transaction (`FsmUtxoDeaths.SecondBroadcastIff`, `FsmUtxoDeaths.LostBroadcast`).
* The sending step of the EVM chains looks for a recorded row, which protects from a second broadcast
  exactly when the row was committed (`FsmEvmDeaths.RecordedIsLast`, `FsmEvmDeaths.SecondBroadcastIff`,
  `FsmEvmDeaths.LostBroadcast`).
* On Tron no step looks: an activation, a funding and a transfer are broadcast again after such a death,
  and a transfer recorded twice waits for ever, because the waits ask for exactly one row
  (`FsmTronDeaths.SecondBroadcastIff`, `FsmTronDeaths.TwiceRecordedSticks`, `FsmTronDeaths.LostBroadcast`).
* A Tron transfer that a failure redirects is not compensated any further once the process dies in the
  compensation, or it errs: the next run goes back to the step that had failed, and takes the compensation step
  for the current one, so that what it broadcasts is recorded as a reclaim or refused
  (`FsmTronInterrupted.InterruptedGoesBack`, `FsmTronInterrupted.SendsAgain`). A transfer that could not be sent
  then stays in processing for ever (`FsmTronInterrupted.FailedSendSticks`, `FsmTronInterrupted.StuckIsReached`).
* A suspended step does not pause the workflow but completes it (`Interruption.SuspendedCompletes`).
* A snapshot identifies a step by its two names, and the check before a run is only for steps of one
  stage: the round trip holds exactly for tables without such pairs (`SnapshotRoundTrip.RoundTripIff`,
  `SnapshotRoundTrip.TwinsAreMixedUp`).
* Webhooks of one request leave their order when more than 100 of them are read, or when one is read past
  an older one that waits for its next attempt (`WebhookOrder.OrderKeptIff`, `WebhookOrder.OrderBreaks`);
  and when a payload is created again that was delivered before a later one
  (`WebhookOrder.CreationKeepsIff`, `WebhookOrder.RecreationBreaks`). Those of a request named `none` go in
  parallel (`WebhookPass.SameGroupIff`).
* The wallet tables are unique per owner only, so the cache and the database may answer differently for an
  address of two owners (`WalletCache.CacheAgreesIff`, `WalletCache.TwoOwnersDisagree`).
* The balance taken from the node is divided to 16 decimal places, so a transfer of the whole balance may
  ask for up to 50 wei more than there is: exactly if the balance was rounded up by more than the fee
  leaves over the cost of the gas (`EvmFee.NodeOverspendsIff`, `EvmFee.NodeOverspends`).
* A rollback incident that starts past the highest height ever committed leaves heights uncommitted, and
  no other does (`ScannerSafety.CoverageIff`, `ScannerSafety.ForwardRollbackSkips`).

## Model

| member | source | states |
|---|---|---|
| WorkflowRun.Workflow.SetSnapshot | internal/workflow/workflow_methods.go:123-138 | restoring writes to each step the status of the last record that names it, and takes over the stored state |
| WorkflowRun.Workflow.StepStates | internal/workflow/workflow_methods.go:85-95 | the nested loops collect the records of exactly the steps with a status, in table order |
| WorkflowRun.Workflow.GetSnapshot | internal/workflow/workflow_methods.go:98-103 | the snapshot is those records with the workflow state |
| WorkflowRun.Workflow.FindCurrentStage | internal/workflow/workflow_methods.go:165-180 | the backward scan finds the last stage with a touched step, else the first stage, else none |
| WorkflowRun.Workflow.FindCurrentStep | internal/workflow/workflow_methods.go:183-198 | the backward scan finds the last touched step of the current stage, else its first step, else none |
| WorkflowRun.Workflow.RunWithLinear | internal/workflow/step_retry_policies.go:12-32 | the retry loop calls the function until it succeeds or its attempts run out, and keeps the effects of every call |
| WorkflowRun.Workflow.RunStep | internal/workflow/workflow.go:252-367 | the guards, the status writes, the two snapshots and the deferred status of one step, as the specification of a step says |
| WorkflowRun.Workflow.RunSteps | internal/workflow/workflow.go:214-246 | the loop over the steps of a stage goes on after a success or a skip and stops at any other error |
| WorkflowRun.Workflow.RunStage | internal/workflow/workflow.go:188-249 | a stage that is not the target of a pending jump is skipped with its statuses untouched |
| WorkflowRun.Workflow.RunStages | internal/workflow/workflow.go:93-149 | the pass over the stages with its sentinel errors, the completed flag and the snapshot at the end |
| WorkflowRun.Workflow.OnFailure | internal/workflow/workflow.go:53-91 | the failure callback's ignore, absorb and redirect, and the snapshot it stores |
| WorkflowRun.Workflow.Run | internal/workflow/workflow.go:53-91 | one run of the object is one run of the specification, with its outcome |
| WorkflowRun.Work | internal/fsm/fsmevm/fsm.go:158-171 | a job restores the stored snapshot into a new object and runs it once |
| WorkflowRun.WorkTimes | internal/fsm/fsmevm/fsm.go:158-171 | a job that comes back any number of times is the chain of runs the theorems speak of |
| SnapshotRoundTrip.RoundTrip | internal/workflow/workflow_methods.go:85-138 | restoring a snapshot gives the same status for every step and the same state, and taking it again the same records |
| SnapshotRoundTrip.RoundTripIff | internal/workflow/workflow.go:151-179 | every status of every step survives if and only if no two steps of the table share both names |
| SnapshotRoundTrip.TwinsAreMixedUp | internal/workflow/workflow.go:151-179 | a table that passes the check before a run and whose second step is restored as completed because the first was |
| Resumption.CurrentIs | internal/workflow/workflow_methods.go:165-198 | a step with a status after which none was reached is the current one, by stage and by step |
| Resumption.PlainStep | internal/workflow/workflow.go:252-367 | without retries a step of the driver is one call, and moves, stays, or leaves as its outcome and the callback say |
| Simulation.StepSucceeds | internal/workflow/workflow.go:252-367 | handling a step that succeeds leaves it completed and the driver's jump pending, with the call logged under true witnesses |
| Simulation.StepHalts | internal/workflow/workflow.go:252-367 | a step that errs or dies stops the run and stays the step the stored snapshot names |
| Simulation.RunSimulates | internal/workflow/workflow.go:93-149 | one run from a stored snapshot makes a stretch of the driver's steps and stores a snapshot that resumes there |
| History.PathClimbs | internal/workflow/workflow.go:201-212 | along the calls of a transfer the position never goes back, and a success moves it forward |
| History.RunsRefineDriver | internal/workflow/workflow.go:93-367 | any number of runs chained by snapshots make the calls of one driver: one path of the routing graph, no function called again after it succeeded, and at each call all earlier steps settled, later ones untouched, and the step itself the current one |
| History.StoppedStays | internal/workflow/workflow.go:93-149 | a completed or failed workflow calls no step and changes nothing |
| LastStage.PassesStages | internal/workflow/workflow.go:201-207 | a jump to the last stage passes all stages before it, whatever their statuses |
| LastStage.Executes | internal/workflow/workflow.go:252-317 | a step of the last stage is called once, as the current step, though earlier steps are in any state |
| LastStage.RunsLast | internal/workflow/workflow.go:93-149 | a run sent to the last stage is the handling of that stage's steps, followed by the end of a run |
| StatusLog.CompletedIff | internal/workflow/workflow.go:252-367 | over any number of runs of a table in which only the last step may stop the workflow, whatever the functions and the failure callback do: a step is stored as completed if and only if a call of it succeeded and it does not end the workflow; one that was never called has no status or is skipped; each status tells how the last call of its step ended; and no function is called again after it succeeded |
| StatusLog.SkippedIff | internal/workflow/workflow.go:281-286 | until a redirect, of the steps before one that was called those that succeeded are stored as completed, and the others, which a jump passed over, as skipped |
| Retries.AttemptsAre | internal/workflow/step_retry_policies.go:12-32 | a function is called until it does not err and at most as often as it may; each call finds the world the one before left; the last jump that was set stays, and so does any failure |
| Retries.EffectsAre | internal/workflow/workflow.go:300-367 | a step that is run leaves on the workflow the last jumps its calls set, or those from before, a failure or a wish for silence if any call asked for it, and the world of the last call |
| Interruption.GoesBack | internal/workflow/workflow.go:93-246 | without a pending jump a run calls the first step of the table that is not settled, before anything else, and that step sees the step touched last as the current one, whatever stage that is in |
| Interruption.EndsThere | internal/workflow/workflow.go:93-149 | if that step errs or the process dies in it the run ends there: no other status changes, no flag, and nothing else is called |
| Interruption.SuspendedCompletes | internal/workflow/workflow.go:275-279 | a suspended step ends the run with nothing called and the workflow stored as completed |
| Interruption.StoppedEnds | internal/workflow/workflow.go:260-263 | once a step stopped the workflow whatever follows in the run calls nothing and ends it without an error |
| Interruption.TwinsAreRefused | internal/workflow/workflow.go:151-179 | a table in which two steps of one stage share a name is refused: nothing is called, and the failure callback hears of an ordinary error |
| Interruption.RunReturns | internal/workflow/workflow.go:53-91 | the error a run ends with is returned unless the failure callback absorbs it or a step asked to keep it quiet; a death is returned, and nothing else |
| FsmUtxoSafety.CallBeforeSent | internal/fsm/fsmbtc/fsm.go:153-367 | validating and sending either succeed into the next promise, or fail without a broadcast known to be accepted, or die with the broadcast lost |
| FsmUtxoSafety.CallAfterSent | internal/fsm/fsmbtc/fsm.go:370-433 | the waiting steps store the next status only when the transaction was listed, confirmed, or confirmed enough |
| FsmUtxoSafety.UtxoSafety | internal/fsm/fsmbtc/fsm.go:90-142 | over any number of runs and deaths: broadcasts only of a validated request at an allowed rate, and again only after the process died right after each one before; statuses only forward; failed only if none was accepted that the process lived to know of; completed only after enough confirmations of the sent transaction were seen; failed and completed are final |
| FsmUtxoSafety.UtxoSendsOnce | internal/fsm/fsmbtc/fsm.go:186-367 | without a death right after a broadcast there is at most one, and a failed transfer was not accepted |
| FsmUtxoMoves.UtxoTurns | internal/fsm/fsmbtc/fsm.go:90-433 | every step takes the turn its answer says, position by position and with the fee rate and its limit written out: where the transfer goes, when it is tried again, when it fails for good, and what it then stores and broadcasts |
| FsmUtxoMoves.OverIff | internal/fsm/fsmbtc/fsm.go:90-142 | over any number of runs: failed is stored if and only if the last call ended with an error while the transfer was validated or sent, and completed if and only if it is the success event |
| FsmUtxoDeaths.SecondBroadcastIff | internal/fsm/fsmbtc/fsm.go:186-367 | after such a death the transaction is broadcast again if and only if the first answer with which the step gets to work builds one |
| FsmUtxoDeaths.LostBroadcast | internal/fsm/fsmbtc/fsm.go:186-367 | from the start a transfer gets there, and is broadcast twice, or is stored as failed although it was accepted |
| FsmEvmSafety.CallValidate | internal/fsm/fsmevm/stage_before.go:19-88 | validation stores the first status only for a well-formed request to a wallet of the same owner at an allowed price, or fails with nothing sent |
| FsmEvmSafety.CallTopUp | internal/fsm/fsmevm/stage_before.go:91-245 | a top-up is sent only if the processing wallet covers it, and never again once it is recorded; sending is entered without one only if the balance covered the fee or no fee had to be paid in advance |
| FsmEvmSafety.CallWaitingTopUp | internal/fsm/fsmevm/stage_before.go:248-265 | sending is entered only after the top-up was seen successful with a confirmation |
| FsmEvmSafety.SendingAgainIs | internal/fsm/fsmevm/stage_sending.go:16-34 | with a recorded transfer the sending step sends nothing and takes over its hash |
| FsmEvmSafety.CallSendingFirst | internal/fsm/fsmevm/fsm_helpers.go:349-361 | a broadcast and its row come together, also when the process dies right after the commit, unless it dies before the commit and the broadcast is lost |
| FsmEvmSafety.CallFirstConfirmation | internal/fsm/fsmevm/stage_after.go:18-45 | the first confirmation moves the status and nothing else |
| FsmEvmSafety.CallConfirmations | internal/fsm/fsmevm/fsm_helpers.go:156-186 | the step succeeds only when the sent transaction was seen successful with enough confirmations |
| FsmEvmSafety.EvmSafety | internal/fsm/fsmevm/fsm.go:80-156 | over any number of runs and deaths: nothing is sent for a request that was not validated; but for broadcasts right after which the process died, each with another answer, at most one top-up and one transfer, and rows are these broadcasts; every top-up covered by the processing wallet, every transfer funded; statuses only forward; completed only when confirmed; failed and completed are final |
| FsmEvmMoves.EvmTurns | internal/fsm/fsmevm/fsm.go:80-156 | every step takes the turn its answer says, position by position: where the transfer goes, when it is tried again, when it fails for good, and what it then stores, broadcasts and records |
| FsmEvmMoves.OverIff | internal/fsm/fsmevm/constants.go:19-22 | over any number of runs: failed is stored if and only if the last call ended with the error of a transfer that cannot succeed, or with any error at validation, top-up or sending; completed if and only if it is the success event; so an error of a wait that may pass leaves the transfer where it is |
| FsmEvmDeaths.RecordedIsLast | internal/fsm/fsmevm/stage_sending.go:16-34 | once the transfer is recorded nothing is broadcast any more, whatever is answered and wherever the process dies |
| FsmEvmDeaths.EvmSendsOnce | internal/fsm/fsmevm/fsm_helpers.go:349-361 | without a death between a broadcast and the commit of its row none is lost |
| FsmEvmDeaths.SecondBroadcastIff | internal/fsm/fsmevm/stage_sending.go:16-109 | after such a death the transfer is broadcast again if and only if the first answer with which the step gets to work sends a transaction |
| FsmEvmDeaths.LostBroadcast | internal/fsm/fsmevm/stage_sending.go:16-109 | from the start a transfer gets there, and is broadcast twice, or is stored as failed although it was broadcast |
| FsmEvmSteps.Fsm.SendBaseAsset | internal/fsm/fsmevm/fsm_helpers.go:285-364 | the row is written before the broadcast, and undone if the node refuses or the process dies before the commit |
| FsmTronCalls.DoValidate | internal/fsm/fsmtron/stage_before.go:27-61 | validation lets only transfers with a kind through |
| FsmTronCalls.DoCheckActivateWallet | internal/fsm/fsmtron/stage_before.go:64-118 | the jump is to the kind check, or for a token of a wallet that is not active to the activation |
| FsmTronCalls.DoBeforeActivation | internal/fsm/fsmtron/stage_before.go:120-153 | kind, wallet and configuration fix the one activation branch |
| FsmTronCalls.DoActivateWithResources | internal/fsm/fsmtron/stage_before.go:155-228 | a success records exactly one activation |
| FsmTronCalls.DoWaitingResourcesActivation | internal/fsm/fsmtron/stage_before.go:230-249 | the branch is left only with the activation seen and three confirmations |
| FsmTronCalls.DoWaitingExternalActivation | internal/fsm/fsmtron/stage_before.go:251-272 | the order decides between success, retry and failure; nothing is recorded |
| FsmTronCalls.DoActivateByBurning | internal/fsm/fsmtron/stage_before.go:274-313 | one activation is recorded, or none if it is free; the next step is always the wait |
| FsmTronCalls.DoWaitingActivation | internal/fsm/fsmtron/stage_before.go:316-331 | the wait is left only with exactly one recorded activation, seen with three confirmations |
| FsmTronCalls.DoBeforeSending | internal/fsm/fsmtron/stage_before.go:334-353 | the kind fixes the one funding branch |
| FsmTronCalls.DoSendTRXForBurn | internal/fsm/fsmtron/stage_before.go:356-437 | one funding transaction, or straight to sending for processing wallets and the native asset |
| FsmTronCalls.DoWaitingSendTRX | internal/fsm/fsmtron/stage_before.go:440-457 | sending is entered only with the funding seen and three confirmations |
| FsmTronCalls.DoDelegate | internal/fsm/fsmtron/stage_before.go:460-617 | at most two delegations are recorded, and a failed one ends in the fatal error |
| FsmTronCalls.DoWaitingDelegate | internal/fsm/fsmtron/stage_before.go:620-641 | sending is entered only when every delegation was seen with three confirmations |
| FsmTronCalls.DoWaitingExternalDelegate | internal/fsm/fsmtron/stage_before.go:643-681 | all stored orders must be fulfilled; the stage ends without a jump |
| FsmTronCalls.DoSending | internal/fsm/fsmtron/stage_sending.go:16-109 | a success records exactly one transfer and its hash |
| FsmTronCalls.DoFirstConfirmation | internal/fsm/fsmtron/stage_after.go:25-74 | the status moves only when the transfer has a confirmation |
| FsmTronCalls.DoConfirmations | internal/fsm/fsmtron/stage_after.go:77-91 | the step succeeds only with enough confirmations of the transfer |
| FsmTronMoves.AfterReplies | internal/fsm/fsmtron/stage_after.go:94-118 | a transfer of the resources kind that does not leave a processing wallet goes to the reclaim, and every other to the success event |
| FsmTronCalls.ReclaimsEach | internal/fsm/fsmtron/stage_after.go:180-235 | the loops broadcast at most one transaction for each staked entry to reclaim, and exactly one for each if and only if none of them fails |
| FsmTronCalls.DoReclaim | internal/fsm/fsmtron/stage_after.go:121-255 | what is reclaimed is what the loops did over one list of staked resources, or nothing without a delegation |
| FsmTronCalls.DoWaitingReclaim | internal/fsm/fsmtron/stage_after.go:258-276 | success is entered only when every reclaim was seen with three confirmations |
| FsmTronCalls.DoSuccess | internal/fsm/fsmtron/stage_after.go:279-285 | the completed status is stored and the exit error keeps the step where it is |
| FsmTronCalls.CheckAllIsSeen | internal/fsm/fsmtron/fsm_helpers.go:105-140 | parallel checks succeed only if every transaction was seen successful with its confirmations |
| FsmTronRouting.FatalSteps | internal/fsm/fsmtron/constants.go:47-51 | exactly these steps turn an ordinary error into a redirect |
| FsmTronRouting.Targets | internal/fsm/fsmtron/fsm.go:127-255 | every jump of the table goes forward in its stage or to the sending step, and leads where its name says |
| FsmTronMoves.ActivationCalls | internal/fsm/fsmtron/stage_before.go:27-332 | what each answer makes of a transfer at the steps that validate, check and activate: where it goes, when it is tried again, when it is sent to the compensation and with which details, what is broadcast, recorded and stored |
| FsmTronMoves.FundingCalls | internal/fsm/fsmtron/stage_before.go:334-681 | the same at the steps that fund it |
| FsmTronMoves.SendingCalls | internal/fsm/fsmtron/stage_sending.go:16-109 | the same at the step that sends it |
| FsmTronMoves.LaterCalls | internal/fsm/fsmtron/stage_after.go:25-285 | the same at the steps after it was sent |
| FsmTronMoves.LoopsReclaim | internal/fsm/fsmtron/stage_after.go:163-247 | an entry is reclaimed if and only if it was delegated for the transfer, its transaction can be built, and so could that of every such entry of its resource before it; a loop fails exactly at an entry for which none can be built, or if what is stored of the delegation is unusable |
| FsmTronMoves.TronTurns | internal/fsm/fsmtron/fsm.go:66-115 | every step until a redirect takes the turn its answer says |
| FsmTronSafety.TronRouting | internal/fsm/fsmtron/fsm.go:127-255 | over any number of runs and deaths, up to the first redirect: nothing is sent for a request that was not validated; one activation branch at most, only the funding branch of the kind, completed before sending, no compensation step; each transaction once, and again only as often as the process died right after it; rows only of broadcasts, and of all of them without such a death; what is recorded of activation and funding seen with three confirmations before the transfer is sent; reclaims of one list of staked resources only; completed only after the one recorded transfer and the reclaims were seen confirmed |
| FsmTronSafety.TronSendsOnce | internal/fsm/fsmtron/fsm.go:127-255 | without a death right after a broadcast, rows are broadcasts: one transaction of a type at most, two delegations, and the reclaims of one list |
| FsmTronItinerary.TronItinerary | internal/fsm/fsmtron/fsm.go:127-255 | over any number of runs and deaths, up to the first redirect: every call is to the step of the itinerary that follows those that succeeded before, where the itinerary is fixed by kind, wallet, asset and configuration, whether the wallet was found inactive, and whether something was delegated; so only a wallet found inactive is activated, before the transfer is sent, and what was delegated for a hot wallet is reclaimed and seen before the success event, which is when completed is stored; and the next run compensates if and only if the last call ended with the error of a transfer that cannot succeed, or with any error at a step that is not tried again |
| FsmTronItinerary.KeepsGivesBack | internal/fsm/fsmtron/stage_after.go:110-112 | for a hot wallet of the resources kind to which something was delegated the reclaim and its wait each succeeded before the success event is called |
| FsmTronDeaths.SecondBroadcastIff | internal/fsm/fsmtron/fsm_helpers.go:190-353 | after such a death an activation, a funding or a transfer is broadcast again if and only if the first answer with which its step gets to work builds one that is affordable, accepted and not free |
| FsmTronDeaths.TwiceRecordedSticks | internal/fsm/fsmtron/stage_after.go:25-34 | a wait for exactly one recorded transaction, of which none or several are recorded, never ends, in a success or in a failure |
| FsmTronDeaths.LostBroadcast | internal/fsm/fsmtron/stage_sending.go:16-109 | from the start a transfer gets there: it is broadcast twice, and waits for ever if both are recorded, or it is sent to the compensation although it was broadcast |
| FsmTronActivation.WaitEndsIff | internal/fsm/fsmtron/stage_before.go:316-331 | the wait for an activation is left for the rest of the transfer if and only if one activation is recorded and the first answer that decides about it confirms it |
| FsmTronActivation.ActivationLeftIff | internal/fsm/fsmtron/stage_before.go:274-313 | after a successful activation by burning the wait is left if and only if one activation is recorded and the first answer that decides about it shows it successful with three confirmations; unless the process died right after an activation before, that is if and only if the fee was not zero and its transaction is so confirmed |
| FsmTronActivation.FreeActivationSticks | internal/fsm/fsmtron/stage_before.go:289-295 | a free activation, with none recorded before, leads to a wait that is never left, not even by a failure |
| FsmTronActivation.FreeActivationIsReached | internal/fsm/fsmtron/stage_before.go:64-153 | a valid token transfer of a hot wallet gets from its start to such an activation |
| FsmTronActivation.FreeActivationNeverSends | internal/fsm/fsmtron/stage_before.go:289-295 | after any number of runs that transfer has sent nothing and is neither completed nor failed |
| FsmTronCompensation.ReclaimReplies | internal/fsm/fsmtron/stage_compensate.go:50-178 | the step broadcasts at most one transaction for each staked entry and records them, but for rows the process did not live to commit, also when it fails on the way; it succeeds only if nothing was delegated or every entry was reclaimed; it has no jump and stores no status |
| FsmTronCompensation.WaitingReplies | internal/fsm/fsmtron/stage_compensate.go:180-198 | the wait has no jump, stores no status and does not fail the workflow |
| FsmTronCompensation.TronCompensation | internal/fsm/fsmtron/fsm.go:66-115 | from any statuses the redirected run calls compensation steps only, in the order of its plan up to the first that does not succeed; if all succeed it ends failed and no later run does anything; if the process dies in one, or it errs, no jump to the compensation is stored, unless the error is that of a transfer that cannot succeed |
| FsmTronInterrupted.InterruptedGoesBack | internal/fsm/fsmtron/fsm.go:66-115 | over any number of runs: if the process dies in the compensation, or it errs, the run after it calls the step that had failed again, before anything else, and that step takes the compensation step that stopped for the current one |
| FsmTronInterrupted.SendsAgain | internal/fsm/fsmtron/fsm_helpers.go:615-629 | sending then broadcasts nothing, or, while the compensation stopped at the reclaim, broadcasts the transfer and records it as a reclaim |
| FsmTronInterrupted.FailedSendSticks | internal/fsm/fsmtron/fsm.go:66-115 | a transfer that could not be sent, and in whose compensation the process died, is neither sent nor failed nor completed by any number of later runs, whatever is answered |
| FsmTronInterrupted.StuckIsReached | internal/fsm/fsmtron/fsm.go:66-115 | a transfer gets there from its start, whatever is answered after its sixth call |
| FsmTronSteps.Fsm.Broadcast | internal/fsm/fsmtron/fsm_helpers.go:190-353 | the row is written before the broadcast, and undone if the node refuses or the process dies before the commit |
| FsmTronSteps.Fsm.CheckAll | internal/fsm/fsmtron/stage_before.go:620-641 | the loop over the transactions looks each of them up, and one of the errors is returned if there is any |
| FsmTronSteps.Fsm.ReclaimFrozen | internal/fsm/fsmtron/stage_after.go:163-247 | the loop over the staked resources broadcasts each entry to reclaim, for each resource up to the first that fails, and records those whose rows were committed before a death |
| TransferJobs.RunUtxo | internal/fsm/fsmbtc/fsm.go:436-440 | the workflow object of a UTXO transfer, run any number of times, leaves a world that keeps the promises of UtxoSafety and OverIff, and statuses that say which steps succeeded |
| TransferJobs.RunEvm | internal/fsm/fsmevm/fsm.go:167-171 | the same for an EVM transfer, EvmSafety and OverIff |
| TransferJobs.RunTron | internal/fsm/fsmtron/fsm.go:266-270 | the same for a Tron transfer, TronRouting and TronItinerary, until a failure redirects it |
| TransferJobs.Compensate | internal/fsm/fsmtron/fsm.go:66-115 | a redirected Tron transfer run once follows the plan of its compensation, and if that succeeds later runs change nothing |
| BlockScanning.BlockScanner.Start | internal/escanner/scanner.go:76-86 | memory takes over the stored height, or the mark of a chain never processed |
| BlockScanning.BlockScanner.LoadBlocks | internal/escanner/scanner.go:233-255 | the slots hold the blocks of the range in order, or one failed |
| BlockScanning.BlockScanner.ValidateChain | internal/escanner/scanner.go:259-270 | accepts if and only if for every block the parent it names equals the hash of the block before, or for the first the known hash, unless one of the two is empty |
| BlockScanning.BlockScanner.CommitBlockResult | internal/escanner/scanner.go:394-513 | webhooks, row and memory move together or not at all |
| BlockScanning.BlockScanner.HandleRollback | internal/escanner/scanner.go:591-629 | memory moves before the row, and alone if the write fails |
| BlockScanning.BlockScanner.HandleBlocks | internal/escanner/scanner.go:133-222 | the loop over batches does what the specification of a pass says |
| ScannerSafety.ScannerSafety | internal/escanner/scanner.go:76-222 | after any starts and passes: linked commits, one height at a time, the row created once and equal to the last event, webhooks exactly of committed blocks, memory equal to the row unless a rollback write failed, and no gap unless a rollback went past the highest height committed |
| ScannerSafety.RollbackCoversIff | internal/escanner/scanner.go:591-629 | with no gap so far, all heights stay covered by a rollback if and only if the height before the incident is not past the highest ever committed |
| ScannerSafety.CoverageIff | internal/escanner/scanner.go:76-222 | throughout any starts and passes all heights from the first committed on are covered, if and only if no rollback went past the highest height committed by then |
| ScannerSafety.BrokenBatchCommitsNothing | internal/escanner/scanner.go:153-199 | every block a pass commits is of a batch that was fetched whole and is linked from end to end |
| ScannerPass.PassExactly | internal/escanner/scanner.go:133-222 | a pass of a scanner that has parsed blocks commits a height if and only if all blocks up to the end of its batch can be fetched and name the block before for their parent, as far as the hashes are known, and the transactions of all heights up to it go through; it rolls back if and only if the incident is answered and a block names another parent, in a batch that can be fetched, after batches that were committed whole |
| ScannerPass.FirstPassExactly | internal/escanner/scanner.go:133-222 | a scanner that never parsed a block takes the last block of the node only, and changes nothing unless that block can be fetched and committed |
| ScannerPass.RollbackIs | internal/escanner/scanner.go:591-629 | if the incident is answered memory moves to the height before it, and the row with its hash if that write goes through and the height is above zero; else nothing moves; nothing is committed |
| ScannerSafety.ForwardRollbackSkips | internal/escanner/scanner.go:591-616 | a run of the scanner from its start that leaves heights uncommitted after a rollback past the highest |
| Admission.HandleTransfers | internal/tscanner/scanner.go:31-38 | the loop of the transaction gives each found transfer a job and the next status |
| AdmissionSafety.DispatchEach | internal/tscanner/scanner.go:46-66 | of distinct new transfers exactly the found ones change, by one job each |
| AdmissionSafety.AdmissionSafety | internal/services/transfers/create.go:59-71 | in every interleaving: one holder of the lock, no lost wakeup, at most one active transfer per account address, and one job exactly when the status has left new |
| AdmissionSafety.InsertKeeps | internal/services/transfers/eth.go:59-74 | the insert after the lookup keeps the address exclusive, because nothing becomes active in between |
| AdmissionSafety.AdmittedIff | internal/services/transfers/eth.go:59-74 | on an account chain the lookup lets a request pass if and only if every row of its chain and from-address is completed or failed; on a UTXO chain if and only if no processing row of its chain shares an address |
| AdmissionSafety.RowIsBorn | internal/services/transfers/create.go:59-71 | the only event that adds a transfer is the insert of a caller its lookup let pass: it adds just what the caller asked for, as new and without a job |
| AdmissionSafety.RowsAreInserted | internal/services/transfers/create.go:59-71 | in every interleaving a stored transfer is the request of a caller that found its way free and inserted it then, and it keeps its place and its request |
| AdmissionSafety.RowLives | internal/tscanner/scanner.go:31-66 | a dispatch gives a stored transfer its job and sets it processing, a change of its status sets just that, and no other event touches it |
| AdmissionSafety.OldestNewIff | internal/tscanner/scanner.go:46-66 | the query of a tick finds the hundred oldest new transfers, in order, and nothing else |
| AdmissionSafety.WaitersAreServed | internal/services/transfers/create.go:59-71 | while a caller waits, another's next step changes something |
| AdmissionSafety.ArrivesIff | internal/services/transfers/validate.go:32-63 | a caller gets as far as the lock if and only if no address is named twice, and on a UTXO chain one is, on a chain with accounts exactly one |
| AdmissionSafety.CallerGetsThrough | internal/services/transfers/create.go:59-71 | from every state in which the lock and its way are free a caller can take the lock, store just its transfer, free the lock and wake a waiter; before that any check may send it away with nothing stored |
| AdmissionSafety.WakesIff | internal/services/transfers/create.go:66-71 | freeing the lock wakes one caller that waits, or nobody if and only if nobody does |
| AdmissionSafety.TickDispatches | internal/tscanner/scanner.go:31-66 | a tick that finds none other at work gives exactly the hundred oldest new transfers a job each and sets them processing, and frees the dispatcher, also when it fails |
| WebhookSender.Sender.GroupByRequestID | internal/services/webhooks/sender.go:265-289 | the loop builds each group with its members in the order of reading, and no empty group |
| WebhookSender.GroupingPartitions | internal/services/webhooks/sender.go:265-289 | a webhook is in the group of its name as often as it was read, and in no other |
| WebhookSender.GroupingKeepsOrder | internal/services/webhooks/sender.go:265-289 | within a group the order is the order of reading |
| WebhookSender.Sender.HandleChunk | internal/services/webhooks/sender.go:144-208 | a sequential chunk is tried up to its first failure, a parallel one whole; what was tried is marked |
| WebhookSender.Sender.ProcessAllUnsentWebhooks | internal/services/webhooks/sender.go:104-141 | a pass over the groups in any order marks what the specification of a pass says |
| WebhookSender.Sender.ProcessWebhooks | internal/services/webhooks/sender.go:85-102 | a tick that finds another at work does nothing |
| WebhookPass.DueIff | sql/postgres/queries/webhooks/webhooks.sql:16-36 | a webhook that was not sent is due if it was never tried or last tried within a day of its creation; if within a week, once more than 3601 seconds passed since the start of the hour of that attempt; and else on any later day |
| WebhookPass.DueAgain | sql/postgres/queries/webhooks/webhooks.sql:16-36 | so a webhook that failed is due again at the latest after 3602 seconds in its first week and after a day later, and after its first day never twice in one hour, after its first week never twice on one day |
| WebhookPass.SelectedIff | sql/postgres/queries/webhooks/webhooks.sql:37-38 | a pass reads the first due webhooks in the order of creation, up to the limit, and nothing else |
| WebhookPass.SameGroupIff | internal/services/webhooks/sender.go:265-289 | two webhooks are sent together if and only if both are of one named request, or neither is; those that are not, or whose request is named like the group without a name, go in parallel |
| WebhookPass.GroupTriedIff | internal/services/webhooks/sender.go:124-130 | a webhook of a group that goes in order is tried if and only if all before it in its hundred were delivered |
| WebhookPass.PassTries | internal/services/webhooks/sender.go:104-141 | a webhook that a pass reads is tried unless an earlier one of its request failed in the same hundred, and then marked with the time and as sent exactly if it was delivered |
| WebhookPass.PassLeaves | internal/services/webhooks/sender.go:104-141 | a pass leaves alone what it does not read, and everything if it cannot decode one that it reads |
| WebhookOrder.OrderKeptIff | internal/services/webhooks/sender.go:124-130 | a pass keeps the order of a request whatever succeeds, if and only if it reads at most one chunk of it and nothing past an older one, or stops at an undecodable payload |
| WebhookOrder.OrderBreaks | internal/services/webhooks/sender.go:104-141 | two webhooks created and two passes after which the newer one is delivered and the older is not |
| WebhookOrder.DeliveredInOrder | internal/services/webhooks/sender.go:85-130 | over any number of such passes, and of creations that send no webhook again of which a later one was delivered, the deliveries of a request are a prefix of what was created |
| WebhookOrder.DeliveredInOrderIff | internal/services/webhooks/sender.go:85-130 | the order survives every outcome of every event of a history if and only if all its events are of that kind |
| WebhookOrder.CreationKeepsIff | sql/postgres/queries/webhooks/webhooks.sql:1-10 | a creation, which sets a stored row with the same payload back to new, keeps the order if and only if no later webhook was delivered than the delivered one it sets back |
| WebhookOrder.OneRowStays | sql/postgres/queries/webhooks/webhooks.sql:1-10 | there is one row for a client and a payload, however often it is created |
| WebhookOrder.RecreationBreaks | sql/postgres/queries/webhooks/webhooks.sql:1-10 | two webhooks created and delivered, and the older created again: it waits behind the newer |
| WalletCache.Cache.Refresh | internal/services/wallets/cacher.go:59-77 | storing the rows and deleting stale keys leaves exactly the last row of each key, whatever was cached |
| WalletCache.Cache.CacherHandler | internal/services/wallets/cacher.go:45-131 | each table that could be read is refreshed, and nothing while another refresh is at work |
| WalletCache.Cache.CheckAfterRefresh | internal/services/wallets/check_wallet.go:52-90 | a lookup in the cache object after a refresh answers as the database may, and as it must if and only if all rows of the deciding table agree |
| WalletCache.KeysAreDistinct | internal/services/wallets/cacher.go:41-43 | no two addresses share a key, because no chain name holds a dash |
| WalletCache.CacheHolds | internal/services/wallets/cacher.go:59-77 | the cache holds an address exactly if the table does |
| WalletCache.CacheAnswers | internal/services/wallets/check_wallet.go:52-90 | after a refresh the cache answers with the fields of the last row for the address, of a hot wallet with its external name and whether it is activated, else of a processing, else of a cold wallet; and finds nothing exactly if no table lists it |
| WalletCache.DatabaseAnswersIff | internal/services/wallets/check_wallet.go:92-141 | the answers of the database are those of any row for the address, with the same fields and the same precedence |
| WalletCache.CacheAgreesIff | internal/services/wallets/check_wallet.go:52-141 | for every chain and address the cache answers as the database may, and as it must if and only if all rows of the deciding table agree |
| WalletCache.TwoOwnersDisagree | sql/postgres/migrations/20240604122024_init_ddl.up.sql:38 | one cold address of two owners, which the tables allow: the database may answer with the first, the cache answers with the second |
| WalletCache.UniqueAgrees | internal/services/wallets/check_wallet.go:92-141 | with unique addresses both lookups give the same answer, with the same precedence and not-found |
| EvmFee.UnitRoundTrip | pkg/walletsdk/evm/unit.go:38-84 | to any unit and back rounds to whole wei, and changes nothing if the wei are whole |
| EvmFee.GetBaseFeeMultiplier | pkg/walletsdk/evm/estimate.go:188-248 | the scan applies the tier with the greatest threshold the price reaches, else 1.30 |
| EvmFee.MultiplierFalls | pkg/walletsdk/evm/estimate.go:189-236 | one multiplier per price, between 1.14 and 1.30, never greater for a higher price |
| EvmFee.MarginIs | pkg/walletsdk/evm/estimate.go:188-248 | the multiplier of a whole price, by thresholds in wei |
| EvmFee.TipIs | pkg/walletsdk/evm/estimate.go:162-181 | the least tip is one gwei, a tenth of it on Binance Smart Chain, a hundredth on the roll-ups and thirty on Polygon |
| EvmFee.EstimateFee | pkg/walletsdk/evm/estimate.go:139-157 | the tip is the greater of the suggested one and the least of the chain; the fee is the greater of the price with its margin and the price with the tip; the tip is within the fee when both are cut to whole wei |
| EvmFee.SendNative | internal/fsm/fsmevm/stage_sending.go:90-96 | a transaction of a whole balance of whole wei carries the balance less the rounded fee, and its value with its fee cap times its gas is within the balance; else it carries what was requested; its gas is the limit of the chain, and there is none exactly if nothing is left |
| EvmFee.NoOverspend | internal/fsm/fsmevm/stage_sending.go:90-96 | of a whole balance the value and the rounded fee are the balance exactly, and the value with the most the gas can cost is within it |
| EvmFee.NodeOverspendsIff | internal/fsm/fsmevm/fsm_helpers.go:203-215 | with the balance from the node the value and the fee cap times the gas limit are within the balance if and only if its last two digits are below 50, or what is missing to the next hundred is within what the fee has over that cost |
| EvmFee.NodeOverspendsExact | internal/fsm/fsmevm/fsm_helpers.go:203-215 | for a fee of whole wei and no more gas than the limit the last two digits decide alone |
| EvmFee.NodeOverspends | internal/fsm/fsmevm/fsm_helpers.go:203-215 | one ether and 50 wei at one gwei per gas ask for 50 wei more than there is |
| UtxoTx.FeeIsByVirtualSize | pkg/walletsdk/btc/tx_builder.go:218-235 | for a whole rate the fee is above the rate times the virtual size less one byte, and at most the rate times the virtual size, a quarter rounded up of three times the stripped size and the full one |
| UtxoTx.TxBuilder.AddInput | pkg/walletsdk/btc/tx_builder.go:57-79 | an outpoint is added once, and refused if its hash cannot be parsed; inputs and entries stay parallel |
| UtxoTx.TxBuilder.AddOutput | pkg/walletsdk/btc/tx_builder.go:81-102 | an address is paid once, in whole satoshi |
| UtxoTx.GetAddressUTXO | internal/fsm/fsmbtc/fsm_helpers.go:27-60 | one output per transaction is kept, the last that is worth spending |
| UtxoTx.KeptIs | internal/fsm/fsmbtc/fsm_helpers.go:27-60 | an output that has an amount, no less than the least amount if there is one, is kept if no later one of its transaction is such |
| UtxoTx.ProcessAddressesUTXOs | internal/fsm/fsmbtc/fsm_helpers.go:63-117 | the inputs are exactly the outputs that are kept of every address, unless one cannot be parsed or two are the same, when there are none; with amounts of whole satoshi the total is what the inputs bring |
| UtxoTx.ValuesSum | internal/fsm/fsmbtc/fsm.go:241-266 | whole amounts lose nothing as output values |
| UtxoTx.Prepare | internal/fsm/fsmbtc/fsm.go:241-312 | the outputs are those of the request with the fee taken out of the first, if and only if there is something to send, no more than there is, the addresses can be paid to, and the fee is within what is sent |
| UtxoTx.BuildTransfer | internal/fsm/fsmbtc/fsm.go:223-312 | a transaction is built exactly under those conditions; it spends all that is kept, inputs equal outputs plus the fee, with and without change, and the recipient bears the fee |

## Left out

- The step functions of the state machines are functions from the world to a reply, because the engine takes them as function values; the transfer object they update in place, and aliasing of it, are not modelled.
- Step arguments, durations, error texts and the exponential retry policy are absent. The argument that remembers where resources were delegated from is a flag of the world.
- WorkflowRun.Workflow.RunWithLinear: a negative number of retries, which retries without end, is not modelled.
- WorkflowRun.Workflow.RunStep: hooks and store writes succeed; a failing `BeforeFn` or snapshot write is not modelled, nor is a table with a missing step function or retry policy.
- WorkflowRun.Workflow.RunStage: the hooks of a stage succeed, and a cancelled context is not modelled.
- Store writes of the state machines succeed, also in a parallel part whose context is cancelled because another part failed.
- Cancellation of a run, and two windows of a crash: between a jump and its target, where the stored snapshot may name a step behind the current one; and after the snapshot of `AfterAllStepsFn`, before the first snapshot of the next step, where a step that succeeded is run again though no jump was made.
- A process that dies inside a step right after it stored a status or an expense: the step is run again and stores it again. Deaths are at the start of a step, right after a broadcast, and on the EVM chains right after its row.
- What a Tron transfer whose compensation was interrupted does after the step it goes back to, but for one whose sending failed.
- The LTC, BCH and DOGE state machines, which repeat the one for Bitcoin.
- Exclusive use of addresses on UTXO chains: a lookup there only finds transfers that are processing.
- The checks of `Create` other than the lookup of active transfers are one event that may refuse; `Valid` covers the rules for addresses.
- The mutex of the condition variable is not a step of its own: a stretch of code under it is one step.
- `BlockScanner.LoadBlocks`: fetches the slots one after the other; since each writes a slot of its own, any order gives the same.
- Which events become webhooks, and the jobs that wait for their confirmations: a block carries its webhooks.
- The height of the node is read once per pass, as the code does, and is a parameter of the pass.
- Webhooks created at the same instant: the query does not order them, and the model takes them in the order of creation.
- `Sender.HandleChunk`: store updates succeed, and webhooks of a parallel chunk are sent one after the other.
- The cache right after a hot wallet was created, before the next refresh.
- Keys, signatures, scripts and address codecs: the sizes of a signed transaction, and which hashes and addresses can be parsed, are parameters.
- Estimates of gas and of Tron resources, token transfers with decimals, and the requests to nodes and explorers: their answers are parameters.
- RPC handlers, configuration, migrations, logging and JSON.
