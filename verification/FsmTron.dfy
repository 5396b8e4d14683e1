/** The workflow of transfers on Tron: activation and funding branches before the transfer is sent,
    reclaiming after it, and a compensation stage that a failure jumps to. Answers come from a
    tape, as in FsmUtxo.dfy. */
module FsmTron {
  import opened Wrappers
  import opened Names
  import opened Engine
  import opened Transfers

  datatype Kind = BurnTRX | Resources | CloudDelegate

  /** Whether the process dies in a call: before it does anything, or right after broadcasting. Of
      what it broadcast the rows of the transactions in `lost` were not committed yet. */
  datatype Death = Lives | DiesFirst | DiesSent(lost: set<nat>)

  /** One of the parallel parts of the step that delegates resources. */
  datatype Part = NotNeeded | PartFails | Broadcast(hash: nat)

  datatype Resource = Energy | Bandwidth

  /** What is stored with the transfer about the delegation of a resource. */
  datatype Delegation = NotDelegated | Unusable | Usable

  /** An entry of the list of staked resources: whether it is delegated to the wallet of the
      transfer, its amount, and the hash of the transaction that reclaims it, none if every attempt
      fails. */
  datatype Frozen = Frozen(resource: Resource, ours: bool, amount: nat, hash: Option<nat>)

  datatype Order =
    OrderMissing | OrderUnreachable | OrderPending | OrderCompleted(delegation: bool) | OrderFulfilled | OrderFailed

  datatype Answer = Answer(
    death: Death,
    wallet: WalletCheck,
    activated: Option<bool>,    // none if the wallet or its state cannot be looked up
    prepared: bool,             // what the step asks for before it decides and signs is at hand
    feeIsZero: bool,            // the activation costs nothing
    affordable: bool,           // the balance or the resources cover what the step needs
    hash: Option<nat>,          // of the signed transaction; none if it cannot be built
    accepted: bool,             // the node takes it
    energy: Part,
    bandwidth: Part,
    bandwidthFirst: bool,       // of two parallel parts the one for bandwidth comes first
    energyKept: Delegation,
    bandwidthKept: Delegation,
    frozen: seq<Frozen>,        // in the order in which two parallel loops get to them
    lookup: nat -> Lookup,      // of the transaction with a hash
    expensesStored: bool,
    giveUpFirst: bool,          // of several errors of parallel checks a fatal one comes first
    activationOrder: Order,
    energyOrder: Order,
    bandwidthOrder: Order)

  datatype Request = Request(
    fromAddresses: nat,
    toAddresses: nat,
    assetGiven: bool,
    nativeAsset: bool,
    fromWallet: WalletType,
    kind: Option<Kind>,         // none if it is empty or not a kind
    useBurnActivation: bool,
    energyOrdered: bool,        // the orders stored with the transfer
    bandwidthOrdered: bool,
    minConfirmations: nat)

  datatype World = World(
    request: Request,
    tape: nat -> Answer,
    read: nat,
    txHash: Option<nat>,
    history: seq<TransferStatus>,
    sends: seq<Tx>,             // every transaction the node took
    rows: seq<Tx>,              // the recorded transactions of the transfer
    deaths: multiset<TxType>,   // the deaths right after broadcasting, by what was broadcast
    delegatedFrom: bool,        // the delegation step kept the address it delegated from
    sights: seq<Sight>)

  /** How many confirmations the transactions of the steps around the transfer need. */
  const SYSTEM_CONFIRMATIONS := 3

  const BEFORE := [
    Step(StepValidateRequest, 0, false),
    Step(StepCheckActivateWallet, 0, false),
    Step(StepBeforeActivationCheckTransferKind, 0, false),
    Step(StepActiveWalletResources, 0, false),
    Step(StepWaitingResourcesActivateWalletConfirmations, 0, false),
    Step(StepWaitingExternalActivateWalletConfirmations, 0, false),
    Step(StepActivateWalletBurnTRX, 0, false),
    Step(StepWaitingActivateWalletConfirmations, 0, false),
    Step(StepBeforeSendingCheckTransferKind, 0, false),
    Step(StepSendTRXForBurn, 0, false),
    Step(StepWaitingSendTRXForBurnConfirmations, 0, false),
    Step(StepDelegateResources, 0, false),
    Step(StepWaitingDelegateConfirmations, 0, false),
    Step(StepWaitingExternalDelegateConfirmations, 0, false)]

  const AFTER := [
    Step(StepWaitingForTheFirstConfirmation, 0, false),
    Step(StepWaitingConfirmations, 0, false),
    Step(StepAfterSendingCheckTransferKind, 0, false),
    Step(StepReclaimResources, 0, false),
    Step(StepWaitingReclaimResourcesConfirmations, 0, false),
    Step(StepSendSuccessEvent, 0, false)]

  const COMPENSATE := [
    Step(StepDetermineCompensationFlow, 0, false),
    Step(StepReclaimOnError, 0, false),
    Step(StepWaitingReclaimOnErrorConfirmation, 0, false),
    Step(StepSendFailureEvent, 0, false)]

  const STAGES := [
    Stage(StageBeforeSending, BEFORE),
    Stage(StageSending, [Step(StepSending, 0, false)]),
    Stage(StageAfterSending, AFTER),
    Stage(StageCompensateOnFail, COMPENSATE)]

  /** The type under which a transaction of a step is recorded. */
  function TxTypeOf(step: Option<StepName>): Option<TxType> {
    match step
    case Some(StepActivateWallet) | Some(StepActiveWalletResources)
      | Some(StepActivateWalletBurnTRX) => Some(AccountActivation)
    case Some(StepSendTRXForBurn) => Some(SendBurnBaseAsset)
    case Some(StepDelegateResources) => Some(DelegateResources)
    case Some(StepReclaimResources) | Some(StepReclaimOnError) => Some(ReclaimResources)
    case Some(StepWaitingReclaimResourcesConfirmations)
      | Some(StepWaitingForTheFirstConfirmation) => Some(ReclaimResources)
    case Some(StepSending) => Some(Transfer)
    case _ => None
  }

  function StoreStatus(w: World, s: TransferStatus): World {
    w.(history := w.history + [s])
  }

  // ------------------------------------------------------------------ broadcasting

  function Txs(kind: TxType, hashes: seq<nat>): (txs: seq<Tx>)
    ensures |txs| == |hashes|
  {
    seq(|hashes|, i requires 0 <= i < |hashes| => Tx(kind, hashes[i]))
  }

  /** The hashes that are not in a set, in order. */
  function Without(hashes: seq<nat>, lost: set<nat>): seq<nat> {
    if hashes == [] then []
    else
      var n := |hashes| - 1;
      Without(hashes[..n], lost) + if hashes[n] in lost then [] else [hashes[n]]
  }

  /** What is recorded of what a call broadcast: all of it, unless the process dies too early. */
  function Committed(a: Answer, hashes: seq<nat>): seq<nat> {
    if a.death.DiesSent? then Without(hashes, a.death.lost) else hashes
  }

  /** The process dies, after the call broadcast something. */
  predicate Interrupted(a: Answer, hashes: seq<nat>) {
    a.death.DiesSent? && hashes != []
  }

  /** Transactions were broadcast and recorded under a type. */
  function Broadcasted(w: World, a: Answer, kind: TxType, recorded: TxType, hashes: seq<nat>): World {
    w.(sends := w.sends + Txs(kind, hashes),
       rows := w.rows + Txs(recorded, Committed(a, hashes)),
       deaths := if Interrupted(a, hashes) then w.deaths + multiset{kind} else w.deaths)
  }

  /** Records a transaction and broadcasts it; the row is undone if the node refuses, or if the
      process dies before it is committed. */
  function Send(w: World, a: Answer, c: Context, kind: TxType): Reply<World> {
    if a.hash.None? || TxTypeOf(c.currentStep).None? || !a.accepted then Refuse(w)
    else
      var v := Broadcasted(w, a, kind, TxTypeOf(c.currentStep).value, [a.hash.value]);
      if a.death.DiesSent? then Die(v) else Succeed(v)
  }

  /** What the two parts of a delegation broadcast, in order. */
  function PartHashes(a: Answer): seq<nat> {
    var e := if a.energy.Broadcast? then [a.energy.hash] else [];
    var b := if a.bandwidth.Broadcast? then [a.bandwidth.hash] else [];
    if a.bandwidthFirst then b + e else e + b
  }

  // ---------------------------------------------------------------- reclaiming resources

  function Kept(a: Answer, resource: Resource): Delegation {
    if resource == Energy then a.energyKept else a.bandwidthKept
  }

  /** The loop for a resource takes the entries of it that were delegated for the transfer. */
  predicate Takes(a: Answer, e: Frozen) {
    Kept(a, e.resource).Usable? && e.ours && e.amount != 0
  }

  /** What two parallel loops over the staked resources did: the hashes of what they broadcast, and
      the resources whose loop failed. */
  datatype Loops = Loops(hashes: seq<nat>, failed: set<Resource>)

  /** One of the loops gets to an entry. */
  function ReclaimOne(a: Answer, typed: bool, l: Loops, e: Frozen): Loops {
    if !Takes(a, e) || e.resource in l.failed then l
    else if e.hash.None? || !typed then l.(failed := l.failed + {e.resource})
    else l.(hashes := l.hashes + [e.hash.value])
  }

  /** One loop a resource, each until the first entry it cannot reclaim or record. */
  function ReclaimLoops(a: Answer, typed: bool, entries: seq<Frozen>): Loops {
    if entries == [] then Loops([], set r: Resource | Kept(a, r).Unusable?)
    else
      ReclaimOne(a, typed, ReclaimLoops(a, typed, entries[..|entries| - 1]), entries[|entries| - 1])
  }

  /** Before any entry a loop has failed only if what is stored about the delegation is unusable. */
  lemma NothingReclaimed(a: Answer, typed: bool)
    ensures ReclaimLoops(a, typed, []) ==
            Loops([], (if a.energyKept.Unusable? then {Energy} else {}) +
                      if a.bandwidthKept.Unusable? then {Bandwidth} else {})
  {
    assert ReclaimLoops(a, typed, []).failed ==
           (if a.energyKept.Unusable? then {Energy} else {}) + if a.bandwidthKept.Unusable? then {Bandwidth} else {};
  }

  lemma TxsGrow(kind: TxType, hashes: seq<nat>, hash: nat)
    ensures Txs(kind, hashes + [hash]) == Txs(kind, hashes) + [Tx(kind, hash)]
  {
  }

  /** Reclaims what was delegated; each transaction is recorded under the type of the current step. */
  function ReclaimFrozen(w: World, a: Answer, c: Context): Reply<World> {
    var kind := TxTypeOf(c.currentStep);
    var l := ReclaimLoops(a, kind.Some?, a.frozen);
    var v := if kind.Some? then Broadcasted(w, a, ReclaimResources, kind.value, l.hashes) else w;
    if Interrupted(a, l.hashes) then Die(v) else if l.failed != {} then Refuse(v) else Succeed(v)
  }

  // ------------------------------------------------------------ looking up transactions

  function LookedUp(w: World, a: Answer, hash: nat): World {
    var l := a.lookup(hash);
    if l.Found? then w.(sights := w.sights + [Sight(hash, l.success, l.confirmations)]) else w
  }

  /** The outcome of checking that a transaction succeeded and has enough confirmations. */
  function Confirmed(a: Answer, hash: nat, needed: nat): Outcome {
    var l := a.lookup(hash);
    if l.LookupFails? then Err(Plain)
    else if !l.success then (if a.expensesStored then Err(FailedTransfer) else Err(Plain))
    else if l.confirmations < needed then Err(Plain)
    else if a.expensesStored then Done
    else Err(Plain)
  }

  function CheckConfirmations(w: World, a: Answer, tx: Tx, needed: nat): Reply<World> {
    Reply(LookedUp(w, a, tx.hash), Confirmed(a, tx.hash, needed), None, None, false, false)
  }

  function AllLookedUp(w: World, a: Answer, txs: seq<Tx>): World {
    if txs == [] then w
    else LookedUp(AllLookedUp(w, a, txs[..|txs| - 1]), a, txs[|txs| - 1].hash)
  }

  /** One of the checks ends with an error. */
  predicate AnyEnds(a: Answer, txs: seq<Tx>, e: Error) {
    exists k :: 0 <= k < |txs| && Confirmed(a, txs[k].hash, SYSTEM_CONFIRMATIONS) == Err(e)
  }

  /** Checks transactions in parallel; one of the errors is returned if there are any. */
  function CheckAll(w: World, a: Answer, txs: seq<Tx>): Reply<World> {
    var seen := AllLookedUp(w, a, txs);
    var fatal, plain := AnyEnds(a, txs, FailedTransfer), AnyEnds(a, txs, Plain);
    if fatal && (!plain || a.giveUpFirst) then GiveUp(seen)
    else if plain then Refuse(seen)
    else Succeed(seen)
  }

  function CheckOrder(w: World, o: Order): Reply<World> {
    match o
    case OrderMissing => Refuse(w)
    case OrderUnreachable => GiveUp(w)
    case OrderPending => Refuse(w)
    case OrderCompleted(delegation) => if delegation then Refuse(w) else Succeed(w)
    case OrderFulfilled => Succeed(w)
    case OrderFailed => GiveUp(w)
  }

  // ------------------------------------------------------------------ before sending

  function ValidateRequest(w: World, a: Answer): Reply<World> {
    if w.request.fromAddresses != 1 || w.request.toAddresses != 1 || !w.request.assetGiven then Refuse(w)
    else if w.request.kind.None? then Refuse(w)
    else if w.request.fromWallet == HotWallet && a.wallet != ColdOrProcessing(true) then Refuse(w)
    else Succeed(StoreStatus(w, StatusProcessing))
  }

  function CheckActivateWallet(w: World, a: Answer): Reply<World> {
    if w.request.nativeAsset then GoTo(w, StepBeforeSendingCheckTransferKind)
    else if w.request.fromWallet == ColdWallet || a.activated.None? then Refuse(w)
    else if a.activated.value then GoTo(w, StepBeforeSendingCheckTransferKind)
    else GoTo(w, StepBeforeActivationCheckTransferKind)
  }

  function BeforeActivationCheckTransferKind(w: World): Reply<World> {
    match w.request.kind
    case None => Refuse(w)
    case Some(CloudDelegate) => GoTo(w, StepWaitingExternalActivateWalletConfirmations)
    case Some(_) =>
      if w.request.fromWallet != HotWallet then Refuse(w)
      else if w.request.useBurnActivation then GoTo(w, StepActivateWalletBurnTRX)
      else GoTo(w, StepActiveWalletResources)
  }

  function ActivateWalletResources(w: World, a: Answer, c: Context): Reply<World> {
    if !a.prepared || !a.affordable then Refuse(w) else Send(w, a, c, AccountActivation)
  }

  function WaitingResourcesActivateWallet(w: World, a: Answer): Reply<World> {
    var txs := Recorded(w.rows, AccountActivation);
    if |txs| != 1 then Refuse(w)
    else
      var r := CheckConfirmations(w, a, txs[0], SYSTEM_CONFIRMATIONS);
      if r.outcome.Done? then GoTo(r.world, StepBeforeSendingCheckTransferKind) else r
  }

  function WaitingExternalActivateWallet(w: World, a: Answer): Reply<World> {
    var r := CheckOrder(w, a.activationOrder);
    if r.outcome.Done? then GoTo(r.world, StepBeforeSendingCheckTransferKind) else r
  }

  /** An activation that costs nothing sends nothing; the jump it asks for is set on the step and
      not on the workflow, so the next step in the table follows. */
  function ActivateWalletBurnTRX(w: World, a: Answer, c: Context): Reply<World> {
    if !a.prepared then Refuse(w)
    else if a.feeIsZero then Succeed(w)
    else if !a.affordable then Refuse(w)
    else Send(w, a, c, AccountActivation)
  }

  function WaitingActivateWallet(w: World, a: Answer): Reply<World> {
    var txs := Recorded(w.rows, AccountActivation);
    if |txs| != 1 then Refuse(w) else CheckConfirmations(w, a, txs[0], SYSTEM_CONFIRMATIONS)
  }

  function BeforeSendingCheckTransferKind(w: World): Reply<World> {
    match w.request.kind
    case None => Refuse(w)
    case Some(BurnTRX) => GoTo(w, StepSendTRXForBurn)
    case Some(Resources) => GoTo(w, StepDelegateResources)
    case Some(CloudDelegate) => GoTo(w, StepWaitingExternalDelegateConfirmations)
  }

  function SendTRXForBurn(w: World, a: Answer, c: Context): Reply<World> {
    if w.request.fromWallet == ProcessingWallet then GoSending(w)
    else if w.request.fromWallet != HotWallet then Refuse(w)
    else if w.request.nativeAsset then GoSending(w)
    else if !a.prepared || !a.affordable then Refuse(w)
    else Send(w, a, c, SendBurnBaseAsset)
  }

  function WaitingSendTRXForBurn(w: World, a: Answer): Reply<World> {
    var txs := Recorded(w.rows, SendBurnBaseAsset);
    if |txs| != 1 then Refuse(w)
    else
      var r := CheckConfirmations(w, a, txs[0], SYSTEM_CONFIRMATIONS);
      if r.outcome.Done? then GoSending(r.world) else r
  }

  function Delegate(w: World, a: Answer, c: Context): Reply<World> {
    if !a.prepared || !a.affordable then Refuse(w)
    else if w.request.fromWallet == ProcessingWallet then GoSending(w)
    else
      var kind, hashes := TxTypeOf(c.currentStep), PartHashes(a);
      if kind.None? then
        (if hashes != [] || a.energy.PartFails? || a.bandwidth.PartFails? then GiveUp(w) else Succeed(w))
      else
        var v := Broadcasted(w, a, DelegateResources, kind.value, hashes);
        var kept := v.(delegatedFrom := w.delegatedFrom || hashes != []);
        if Interrupted(a, hashes) then Die(v)
        else if a.energy.PartFails? || a.bandwidth.PartFails? then GiveUp(kept)
        else Succeed(kept)
  }

  function WaitingDelegate(w: World, a: Answer): Reply<World> {
    var r := CheckAll(w, a, Recorded(w.rows, DelegateResources));
    if r.outcome.Done? then GoSending(r.world) else r
  }

  function WaitingExternalDelegate(w: World, a: Answer): Reply<World> {
    var e := if w.request.energyOrdered then CheckOrder(w, a.energyOrder) else Succeed(w);
    var b := if w.request.bandwidthOrdered then CheckOrder(w, a.bandwidthOrder) else Succeed(w);
    if e.outcome.Done? then b
    else if b.outcome.Done? then e
    else if a.giveUpFirst == (e.outcome == Err(FailedTransfer)) then e
    else b
  }

  // --------------------------------------------------------------- sending and after

  function Sending(w: World, a: Answer, c: Context): Reply<World> {
    if !a.prepared || !a.affordable then Refuse(w)
    else
      var r := Send(w, a, c, Transfer);
      if r.outcome.Done? then Succeed(r.world.(txHash := a.hash)) else r
  }

  function WaitingForTheFirstConfirmation(w: World, a: Answer): Reply<World> {
    var txs := Recorded(w.rows, Transfer);
    if |txs| != 1 then Refuse(w)
    else
      var l := a.lookup(txs[0].hash);
      var seen := LookedUp(w, a, txs[0].hash);
      if l.LookupFails? then Refuse(seen)
      else if !l.success then GiveUp(seen)
      else if l.confirmations < 1 then Refuse(seen)
      else if !a.expensesStored then GiveUp(seen)
      else Succeed(StoreStatus(seen, StatusUnconfirmed))
  }

  /** Indexing an empty list of transactions panics. */
  function WaitingConfirmations(w: World, a: Answer): Reply<World> {
    var txs := Recorded(w.rows, Transfer);
    if |txs| > 1 then Refuse(w)
    else if txs == [] then Die(w)
    else CheckConfirmations(w, a, txs[0], w.request.minConfirmations)
  }

  function AfterSendingCheckTransferKind(w: World): Reply<World> {
    if w.request.fromWallet == ProcessingWallet then GoTo(w, StepSendSuccessEvent)
    else
      match w.request.kind
      case None => Refuse(w)
      case Some(BurnTRX) => GoTo(w, StepSendSuccessEvent)
      case Some(Resources) => GoTo(w, StepReclaimResources)
      case Some(CloudDelegate) => GoTo(w, StepSendSuccessEvent)
  }

  function Reclaim(w: World, a: Answer, c: Context): Reply<World> {
    if w.request.fromWallet != HotWallet || !w.delegatedFrom then GoTo(w, StepSendSuccessEvent)
    else if !a.prepared then Refuse(w)
    else ReclaimFrozen(w, a, c)
  }

  function WaitingReclaim(w: World, a: Answer): Reply<World> {
    CheckAll(w, a, Recorded(w.rows, ReclaimResources))
  }

  function SendSuccessEvent(w: World): Reply<World> {
    Reply(StoreStatus(w, StatusCompleted), Err(ExitWorkflow), None, None, false, false)
  }

  // -------------------------------------------------------------------- compensation

  function DetermineCompensationFlow(w: World, c: Context): Reply<World> {
    if c.customError == Decodable && w.request.kind == Some(Resources)
    then GoTo(w, StepReclaimOnError)
    else GoTo(w, StepSendFailureEvent)
  }

  function ReclaimOnError(w: World, a: Answer, c: Context): Reply<World> {
    if !w.delegatedFrom then Succeed(w)
    else if !a.prepared then Refuse(w)
    else ReclaimFrozen(w, a, c)
  }

  function SendFailureEvent(w: World): Reply<World> {
    Reply(StoreStatus(w, StatusFailed), Done, None, None, true, true)
  }

  // ------------------------------------------------------------------------ the table

  function CallStep(w0: World, c: Context): Reply<World> {
    var a := w0.tape(w0.read);
    var w := w0.(read := w0.read + 1);
    if a.death.DiesFirst? then Die(w)
    else
      match c.step
      case StepValidateRequest => ValidateRequest(w, a)
      case StepCheckActivateWallet => CheckActivateWallet(w, a)
      case StepBeforeActivationCheckTransferKind => BeforeActivationCheckTransferKind(w)
      case StepActiveWalletResources => ActivateWalletResources(w, a, c)
      case StepWaitingResourcesActivateWalletConfirmations => WaitingResourcesActivateWallet(w, a)
      case StepWaitingExternalActivateWalletConfirmations => WaitingExternalActivateWallet(w, a)
      case StepActivateWalletBurnTRX => ActivateWalletBurnTRX(w, a, c)
      case StepWaitingActivateWalletConfirmations => WaitingActivateWallet(w, a)
      case StepBeforeSendingCheckTransferKind => BeforeSendingCheckTransferKind(w)
      case StepSendTRXForBurn => SendTRXForBurn(w, a, c)
      case StepWaitingSendTRXForBurnConfirmations => WaitingSendTRXForBurn(w, a)
      case StepDelegateResources => Delegate(w, a, c)
      case StepWaitingDelegateConfirmations => WaitingDelegate(w, a)
      case StepWaitingExternalDelegateConfirmations => WaitingExternalDelegate(w, a)
      case StepSending => Sending(w, a, c)
      case StepWaitingForTheFirstConfirmation => WaitingForTheFirstConfirmation(w, a)
      case StepWaitingConfirmations => WaitingConfirmations(w, a)
      case StepAfterSendingCheckTransferKind => AfterSendingCheckTransferKind(w)
      case StepReclaimResources => Reclaim(w, a, c)
      case StepWaitingReclaimResourcesConfirmations => WaitingReclaim(w, a)
      case StepSendSuccessEvent => SendSuccessEvent(w)
      case StepDetermineCompensationFlow => DetermineCompensationFlow(w, c)
      case StepReclaimOnError => ReclaimOnError(w, a, c)
      case StepWaitingReclaimOnErrorConfirmation => WaitingReclaim(w, a)
      case StepSendFailureEvent => SendFailureEvent(w)
      case _ => Refuse(w)
  }

  /** The steps whose ordinary errors are not retried but compensated. */
  predicate ExitOnFailed(stage: Option<StageName>, step: Option<StepName>) {
    match (stage, step)
    case (Some(StageBeforeSending), Some(s)) =>
      s == StepValidateRequest || s == StepCheckActivateWallet || s == StepActivateWallet ||
      s == StepActiveWalletResources || s == StepActivateWalletBurnTRX || s == StepBeforeSendingCheckTransferKind ||
      s == StepSendTRXForBurn || s == StepDelegateResources
    case (Some(StageSending), Some(s)) => s == StepSending
    case (Some(StageAfterSending), Some(s)) => s == StepAfterSendingCheckTransferKind || s == StepReclaimResources
    case _ => false
  }

  function OnFailure(w: World, stage: Option<StageName>, step: Option<StepName>, e: Error): Reaction<World> {
    if e == FailedTransfer || ExitOnFailed(stage, step)
    then Reaction(w, Redirect(StageCompensateOnFail, StepDetermineCompensationFlow))
    else Reaction(w, Ignore)
  }

  const MACHINE: Machine<World> := Machine(STAGES, (w, c) => CallStep(w, c), (w, g, s, e) => OnFailure(w, g, s, e))

  function Begin(request: Request, tape: nat -> Answer): World {
    World(request, tape, 0, None, [], [], [], multiset{}, false, [])
  }
}
