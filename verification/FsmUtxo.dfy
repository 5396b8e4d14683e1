/** The workflow of transfers on Bitcoin and the chains like it.

    The outside world answers every question of the step functions from a tape, so that a theorem
    about all tapes is one about all answers of the node and the explorer. */
module FsmUtxo {
  import opened Wrappers
  import opened Names
  import opened Engine
  import opened Transfers

  datatype Broadcast = Accepted | Rejected | TimedOut

  datatype Listing = ListingFails | NotListed | Listed(confirmations: nat)

  /** Whether the process dies in a call: before it does anything, or right after a broadcast. */
  datatype Death = Lives | DiesFirst | DiesSent

  /** The answers to the questions one call may ask. */
  datatype Answer = Answer(
    death: Death,
    wallet: WalletCheck,
    hash: Option<nat>,      // of the transaction that was built and signed; none if that failed
    broadcast: Broadcast,
    listed: Option<nat>,    // how many transactions with the hash the explorer lists
    lookup: Listing)

  datatype Request = Request(
    fromAddresses: nat,
    toAddresses: nat,
    wholeAmount: bool,
    fromHotWallet: bool,
    fee: Option<int>,
    feeMax: Option<int>)

  datatype Config = Config(feePerByte: int, testnet: bool, minConfirmations: nat)

  /** A broadcast; `lost` says that the process died before it knew the result. */
  datatype Send = Send(hash: nat, result: Broadcast, lost: bool)

  datatype Seen = Seen(hash: Option<nat>, confirmations: nat)

  datatype World = World(
    config: Config,
    request: Request,
    tape: nat -> Answer,
    read: nat,                       // how much of the tape was used
    txHash: Option<nat>,             // stored with the transfer
    history: seq<TransferStatus>,    // every status the workflow stored
    sends: seq<Send>,                // every call that broadcasts a raw transaction
    sights: seq<Seen>)              // every successful lookup of the transaction

  const STAGES := [
    Stage(StageBeforeSending, [Step(StepValidateRequest, 0, false)]),
    Stage(StageSending, [Step(StepSending, 0, false)]),
    Stage(StageAfterSending, [
      Step(StepWaitingInMempool, 0, false),
      Step(StepWaitingForTheFirstConfirmation, 0, false),
      Step(StepWaitingConfirmations, 0, false),
      Step(StepSendSuccessEvent, 0, false)])]

  function StoreStatus(w: World, s: TransferStatus): World {
    w.(history := w.history + [s])
  }

  function ValidateRequest(w: World, a: Answer): Reply<World> {
    if w.request.fromAddresses < 1 || w.request.toAddresses != 1 || !w.request.wholeAmount then Refuse(w)
    else if w.request.fromHotWallet && a.wallet != ColdOrProcessing(true) then Refuse(w)
    else Succeed(StoreStatus(w, StatusProcessing))
  }

  /** The fee rate: that of the request if it is set, else that of the network. */
  function FeePerByte(w: World): int {
    var base := if w.config.testnet then 5 else w.config.feePerByte;
    if w.request.fee.Some? && w.request.fee.value > 0 then w.request.fee.value else base
  }

  function SendTransfer(w: World, a: Answer): Reply<World> {
    if w.request.fromAddresses < 1 || w.request.toAddresses != 1 then Refuse(w)
    else if w.request.feeMax.Some? && w.request.feeMax.value > 0 && FeePerByte(w) > w.request.feeMax.value
      then Refuse(w)
    else if a.hash.None? then Refuse(w)
    else
      var sent := w.(txHash := a.hash, sends := w.sends + [Send(a.hash.value, a.broadcast, a.death.DiesSent?)]);
      if a.death.DiesSent? then Die(sent) else if a.broadcast == Accepted then Succeed(sent) else Refuse(sent)
  }

  function WaitingInMempool(w: World, a: Answer): Reply<World> {
    if a.listed.None? || a.listed.value == 0 then Refuse(w)
    else Succeed(StoreStatus(w, StatusInMempool))
  }

  function LookedUp(w: World, a: Answer): World {
    if a.lookup.Listed? then w.(sights := w.sights + [Seen(w.txHash, a.lookup.confirmations)]) else w
  }

  function WaitingForTheFirstConfirmation(w: World, a: Answer): Reply<World> {
    var seen := LookedUp(w, a);
    if !a.lookup.Listed? || a.lookup.confirmations == 0 then Refuse(seen)
    else Succeed(StoreStatus(seen, StatusUnconfirmed))
  }

  function WaitingConfirmations(w: World, a: Answer): Reply<World> {
    var seen := LookedUp(w, a);
    if !a.lookup.Listed? || a.lookup.confirmations < w.config.minConfirmations then Refuse(seen) else Succeed(seen)
  }

  /** The step function of the table with the given name. */
  function CallStep(w0: World, c: Context): Reply<World> {
    var a := w0.tape(w0.read);
    var w := w0.(read := w0.read + 1);
    if a.death.DiesFirst? then Die(w)
    else
      match c.step
      case StepValidateRequest => ValidateRequest(w, a)
      case StepSending => SendTransfer(w, a)
      case StepWaitingInMempool => WaitingInMempool(w, a)
      case StepWaitingForTheFirstConfirmation => WaitingForTheFirstConfirmation(w, a)
      case StepWaitingConfirmations => WaitingConfirmations(w, a)
      case StepSendSuccessEvent => Succeed(StoreStatus(w, StatusCompleted))
      case _ => Refuse(w)
  }

  /** Any error before the last stage fails the transfer; later ones are retried. */
  function OnFailure(w: World, stage: Option<StageName>, step: Option<StepName>, e: Error): Reaction<World> {
    if stage.Some? && stage.value != StageAfterSending
    then Reaction(StoreStatus(w, StatusFailed), Absorb)
    else Reaction(w, Ignore)
  }

  const MACHINE: Machine<World> := Machine(STAGES, (w, c) => CallStep(w, c), (w, g, s, e) => OnFailure(w, g, s, e))

  function Begin(config: Config, request: Request, tape: nat -> Answer): World {
    World(config, request, tape, 0, None, [], [], [])
  }
}
