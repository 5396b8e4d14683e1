/** The workflow of transfers on the EVM chains. Answers come from a tape, as in FsmUtxo.dfy.

    The process may die at the start of any step, right after a broadcast, when no row of it is
    committed yet, or right after the row was committed. */
module FsmEvm {
  import opened Wrappers
  import opened Names
  import opened Engine
  import opened Transfers

  datatype Death = Survives | DiesFirst | DiesSent | DiesRecorded

  /** A broadcast right after which the process died, and which answer it was made with. */
  datatype Lost = Lost(at: int, tx: Tx)

  /** What the balances and the estimates say about the fee of the transfer, in wei. */
  datatype Quote = Quote(hotBalance: int, processingBalance: int, fee: int, topUpCost: int)

  datatype NodeLookup = NodeFails(notFound: bool) | InMempool | Mined

  datatype Answer = Answer(
    death: Death,
    wallet: WalletCheck,
    affordable: bool,         // the price check of the validation; false also if it fails
    quote: Option<Quote>,     // none if a balance or an estimate is not available
    prepared: bool,           // amounts, fees and keys of the transfer are at hand and in order
    hash: Option<nat>,        // of the signed transaction; none if signing it failed
    accepted: bool,           // the node takes the transaction
    node: NodeLookup,
    lookup: Lookup,
    expensesStored: bool,     // the expenses of a looked-up transaction can be stored
    hourOld: bool,
    fiveMinutesOld: bool)

  datatype Request = Request(
    fromAddresses: nat,
    toAddresses: nat,
    assetGiven: bool,
    nativeAsset: bool,
    fromWallet: WalletType,
    priceLimited: bool)       // the request or the configuration limits the gas price

  datatype World = World(
    minConfirmations: nat,
    request: Request,
    tape: nat -> Answer,
    read: nat,
    txHash: Option<nat>,
    history: seq<TransferStatus>,
    sends: seq<Tx>,       // every transaction the node took, but for the lost ones
    lost: seq<Lost>,
    rows: seq<Tx>,        // the recorded transactions of the transfer
    quotes: seq<Quote>,   // every quote the top-up step worked with
    sights: seq<Sight>)   // every successful lookup of a transaction

  const STAGES := [
    Stage(StageBeforeSending, [
      Step(StepValidateRequest, 0, false),
      Step(StepSendBaseAssetForBurn, 0, false),
      Step(StepWaitingSendBaseAssetForBurnConfirmations, 0, false)]),
    Stage(StageSending, [Step(StepSending, 0, false)]),
    Stage(StageAfterSending, [
      Step(StepWaitingForTheFirstConfirmation, 0, false),
      Step(StepWaitingConfirmations, 0, false),
      Step(StepSendSuccessEvent, 0, false)])]

  /** No step touches what the transfer was asked to do. */
  ghost predicate SameSetup(w: World, v: World) {
    v.minConfirmations == w.minConfirmations && v.request == w.request && v.tape == w.tape && v.read == w.read
  }

  function StoreStatus(w: World, s: TransferStatus): World {
    w.(history := w.history + [s])
  }

  /** The type under which a transaction of a step is recorded. */
  function TxTypeOf(step: Option<StepName>): Option<TxType> {
    if step == Some(StepSendBaseAssetForBurn) then Some(SendBurnBaseAsset)
    else if step == Some(StepSending) then Some(Transfer)
    else None
  }

  function ValidateRequest(w: World, a: Answer): Reply<World> {
    if w.request.fromAddresses != 1 || w.request.toAddresses != 1 || !w.request.assetGiven then Refuse(w)
    else if w.request.fromWallet == HotWallet && a.wallet != ColdOrProcessing(true) then Refuse(w)
    else if w.request.fromWallet == HotWallet && w.request.priceLimited && !a.affordable then Refuse(w)
    else Succeed(StoreStatus(w, StatusProcessing))
  }

  /** The process dies when the node took the transaction: no row of it stays. */
  function Lose(w: World, tx: Tx): World {
    w.(lost := w.lost + [Lost(w.read - 1, tx)])
  }

  /** Sends base asset: the row is written first, and undone if the node refuses. */
  function SendBaseAsset(w: World, a: Answer, c: Context): (r: Reply<World>)
    ensures SameSetup(w, r.world)
  {
    if a.hash.None? || TxTypeOf(c.currentStep).None? || !a.accepted then Refuse(w)
    else
      var tx := Tx(if c.step == StepSending then Transfer else SendBurnBaseAsset, a.hash.value);
      var sent := w.(sends := w.sends + [tx], rows := w.rows + [Tx(TxTypeOf(c.currentStep).value, a.hash.value)]);
      if a.death == DiesSent then Die(Lose(w, tx)) else if a.death == DiesRecorded then Die(sent) else Succeed(sent)
  }

  /** Sends a token: the node takes the transaction before the row is written. */
  function SendToken(w: World, a: Answer, c: Context): (r: Reply<World>)
    ensures SameSetup(w, r.world)
  {
    if a.hash.None? || !a.accepted then Refuse(w)
    else if a.death == DiesSent then Die(Lose(w, Tx(Transfer, a.hash.value)))
    else
      var sent := w.(sends := w.sends + [Tx(Transfer, a.hash.value)]);
      if TxTypeOf(c.currentStep).None? then Refuse(sent)
      else
        var stored := sent.(rows := w.rows + [Tx(TxTypeOf(c.currentStep).value, a.hash.value)]);
        if a.death == DiesRecorded then Die(stored) else Succeed(stored)
  }

  /** Tops up the hot wallet if its base asset does not cover the fee of the transfer. */
  function SendBaseAssetForBurn(w: World, a: Answer, c: Context): (r: Reply<World>)
    ensures SameSetup(w, r.world)
  {
    if w.request.fromWallet == ProcessingWallet then GoSending(w)
    else if w.request.fromWallet != HotWallet then Refuse(w)
    else if w.request.nativeAsset then GoSending(w)
    else if Recorded(w.rows, SendBurnBaseAsset) != [] then Succeed(w)
    else if a.quote.None? then Refuse(w)
    else
      var q := a.quote.value;
      var quoted := w.(quotes := w.quotes + [q]);
      if q.hotBalance - q.fee > 0 then GoSending(quoted)
      else
        var need := q.fee - q.hotBalance;
        if need <= 0 then GoSending(quoted)
        else if q.processingBalance < need then Refuse(quoted)
        else if q.processingBalance - q.topUpCost < need then Refuse(quoted)
        else SendBaseAsset(quoted, a, c)
  }

  function LookedUp(w: World, a: Answer, hash: nat): World {
    if a.lookup.Found? then w.(sights := w.sights + [Sight(hash, a.lookup.success, a.lookup.confirmations)]) else w
  }

  /** Waits until a transaction is in the chain; `then` is the reply when it is. */
  function EnsureTxInBlockchain(w: World, a: Answer, hash: nat): Reply<World> {
    var seen := LookedUp(w, a, hash);
    if a.lookup.LookupFails? then (if a.hourOld then GiveUp(w) else Refuse(w))
    else if !a.lookup.success then GiveUp(seen)
    else if a.lookup.confirmations < 1 then Refuse(seen)
    else if !a.expensesStored then GiveUp(seen)
    else Succeed(seen)
  }

  function WaitingTopUp(w: World, a: Answer): Reply<World> {
    var txs := Recorded(w.rows, SendBurnBaseAsset);
    if |txs| != 1 then Refuse(w)
    else
      var r := EnsureTxInBlockchain(w, a, txs[0].hash);
      if r.outcome.Done? then GoSending(r.world) else r
  }

  function Sending(w: World, a: Answer, c: Context): (r: Reply<World>)
    ensures SameSetup(w, r.world)
  {
    var txs := Recorded(w.rows, Transfer);
    if txs != [] then Succeed(w.(txHash := Some(txs[0].hash)))
    else if !a.prepared then Refuse(w)
    else
      var r := if w.request.nativeAsset then SendBaseAsset(w, a, c) else SendToken(w, a, c);
      if r.outcome.Done? then r.(world := r.world.(txHash := a.hash)) else r
  }

  function WaitingForTheFirstConfirmation(w: World, a: Answer): Reply<World> {
    match a.node
    case NodeFails(notFound) => if notFound && a.fiveMinutesOld then GiveUp(w) else Refuse(w)
    case InMempool => Refuse(w)
    case Mined =>
      var r := EnsureTxInBlockchain(w, a, if w.txHash.Some? then w.txHash.value else 0);
      if r.outcome.Done? then Succeed(StoreStatus(r.world, StatusUnconfirmed)) else r
  }

  function WaitingConfirmations(w: World, a: Answer): Reply<World> {
    var seen := LookedUp(w, a, if w.txHash.Some? then w.txHash.value else 0);
    if a.lookup.LookupFails? then Refuse(w)
    else if !a.lookup.success then (if a.expensesStored then GiveUp(seen) else Refuse(seen))
    else if a.lookup.confirmations < w.minConfirmations then Refuse(seen)
    else if a.expensesStored then Succeed(seen)
    else Refuse(seen)
  }

  function CallStep(w0: World, c: Context): Reply<World> {
    var a := w0.tape(w0.read);
    var w := w0.(read := w0.read + 1);
    if a.death == DiesFirst then Die(w)
    else
      match c.step
      case StepValidateRequest => ValidateRequest(w, a)
      case StepSendBaseAssetForBurn => SendBaseAssetForBurn(w, a, c)
      case StepWaitingSendBaseAssetForBurnConfirmations => WaitingTopUp(w, a)
      case StepSending => Sending(w, a, c)
      case StepWaitingForTheFirstConfirmation => WaitingForTheFirstConfirmation(w, a)
      case StepWaitingConfirmations => WaitingConfirmations(w, a)
      case StepSendSuccessEvent => Succeed(StoreStatus(w, StatusCompleted))
      case _ => Refuse(w)
  }

  /** The steps whose errors fail the transfer. */
  predicate ExitOnFailed(stage: Option<StageName>, step: Option<StepName>) {
    || (stage == Some(StageBeforeSending) && step in {Some(StepValidateRequest), Some(StepSendBaseAssetForBurn)})
    || (stage == Some(StageSending) && step == Some(StepSending))
  }

  function OnFailure(w: World, stage: Option<StageName>, step: Option<StepName>, e: Error): Reaction<World> {
    if e == FailedTransfer || ExitOnFailed(stage, step)
    then Reaction(StoreStatus(w, StatusFailed), Absorb)
    else Reaction(w, Ignore)
  }

  const MACHINE: Machine<World> := Machine(STAGES, (w, c) => CallStep(w, c), (w, g, s, e) => OnFailure(w, g, s, e))

  function Begin(minConfirmations: nat, request: Request, tape: nat -> Answer): World {
    World(minConfirmations, request, tape, 0, None, [], [], [], [], [], [])
  }
}
