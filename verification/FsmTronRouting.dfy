/** The path of a Tron transfer until a failure redirects it: one activation branch at most, the one
    funding branch of its kind, then the transfer. */
module FsmTronRouting {
  import opened Wrappers
  import opened Names
  import opened Engine
  import opened Resumption
  import opened Simulation
  import opened Transfers
  import opened FsmTron

  /** A hot wallet that holds a token may have to be activated by the processing wallet. */
  predicate Activates(q: Request) {
    !q.nativeAsset && q.fromWallet == HotWallet && (q.kind == Some(BurnTRX) || q.kind == Some(Resources))
  }

  /** The steps a transfer may ever execute, by its kind, its wallet and its asset. */
  predicate Reaches(q: Request, p: Pos) {
    if p.stage == 0 then
      if p.step == 3 || p.step == 4 then Activates(q) && !q.useBurnActivation
      else if p.step == 5 then !q.nativeAsset && q.kind == Some(CloudDelegate)
      else if p.step == 6 || p.step == 7 then Activates(q) && q.useBurnActivation
      else if p.step == 9 then q.kind == Some(BurnTRX)
      else if p.step == 10 then q.kind == Some(BurnTRX) && q.fromWallet == HotWallet && !q.nativeAsset
      else if p.step == 11 then q.kind == Some(Resources)
      else if p.step == 12 then q.kind == Some(Resources) && q.fromWallet != ProcessingWallet
      else if p.step == 13 then q.kind == Some(CloudDelegate)
      else p.step == 2 ==> !q.nativeAsset
    else if p.stage == 2 then
      p.step == 3 || p.step == 4 ==> q.kind == Some(Resources) && q.fromWallet != ProcessingWallet
    else p.stage == 1
  }

  /** The steps whose success completes the funding of the transfer. */
  predicate Funds(q: Request, p: Pos) {
    match q.kind
    case None => false
    case Some(BurnTRX) => p == if q.fromWallet == ProcessingWallet || q.nativeAsset then Pos(0, 9) else Pos(0, 10)
    case Some(Resources) => p == if q.fromWallet == ProcessingWallet then Pos(0, 11) else Pos(0, 12)
    case Some(CloudDelegate) => p == Pos(0, 13)
  }

  // ------------------------------------------------------------ the world at a step

  /** The transaction was seen successful with a number of confirmations. */
  ghost predicate SeenWith(sights: seq<Sight>, hash: nat, confirmations: nat) {
    exists k :: 0 <= k < |sights| && sights[k].hash == hash && sights[k].success &&
      sights[k].confirmations >= confirmations
  }

  /** The confirmations a recorded transaction of some type has when the step at `p` is next. */
  function Needed(q: Request, kind: TxType, p: Pos): Option<nat> {
    match kind
    case AccountActivation => if p.stage >= 1 || p.step >= 8 then Some(SYSTEM_CONFIRMATIONS) else None
    case SendBurnBaseAsset => if p.stage >= 1 then Some(SYSTEM_CONFIRMATIONS) else None
    case DelegateResources => if p.stage >= 1 then Some(SYSTEM_CONFIRMATIONS) else None
    case Transfer => if p.stage >= 2 && p.step >= 2 then Some(q.minConfirmations) else None
    case ReclaimResources => if p.stage >= 2 && p.step >= 5 then Some(SYSTEM_CONFIRMATIONS) else None
  }

  ghost predicate RowSeen(w: World, tx: Tx, p: Pos) {
    var n := Needed(w.request, tx.kind, p);
    n.Some? ==> SeenWith(w.sights, tx.hash, n.value)
  }

  ghost predicate AllSeen(w: World, p: Pos) {
    forall k :: 0 <= k < |w.rows| ==> RowSeen(w, w.rows[k], p)
  }

  /** How many transactions of a type are recorded. */
  function Count(w: World, kind: TxType): nat {
    |Recorded(w.rows, kind)|
  }

  /** How many transactions of a type were broadcast. */
  function Sent(w: World, kind: TxType): nat {
    |Recorded(w.sends, kind)|
  }

  /** What was reclaimed is what the loops over one list of staked resources did. */
  ghost predicate ReclaimedAt(w: World, k: nat) {
    k < w.read && Recorded(w.rows, ReclaimResources)
      == Txs(ReclaimResources, ReclaimLoops(w.tape(k), true, w.tape(k).frozen).hashes)
  }

  ghost predicate ReclaimedOnce(w: World) {
    Count(w, ReclaimResources) == 0 || exists k: nat :: ReclaimedAt(w, k)
  }

  /** What is recorded was broadcast, and the other way around unless the process died in between. */
  ghost predicate RowsSent(w: World) {
    && multiset(w.rows) <= multiset(w.sends)
    && (w.deaths == multiset{} ==> w.rows == w.sends)
    && forall kind: TxType :: Count(w, kind) <= Sent(w, kind)
  }

  /** A process that died right after broadcasting did so in a call whose answer says it. */
  ghost predicate DiedByAnswer(w: World) {
    w.deaths != multiset{} ==> exists k :: 0 <= k < w.read && w.tape(k).death.DiesSent?
  }

  /** One activation is broadcast, and one more each time the process died right after it. */
  ghost predicate ActivationSpent(w: World, p: Pos) {
    var n, d := Sent(w, AccountActivation), w.deaths[AccountActivation];
    if p.stage == 0 && (p.step < 3 || p.step == 5) then n == d == 0
    else if p == Pos(0, 3) || p == Pos(0, 6) then n == d
    else if p == Pos(0, 4) then n == d + 1
    else n <= d + 1
  }

  ghost predicate BurnSpent(w: World, p: Pos) {
    var n, d := Sent(w, SendBurnBaseAsset), w.deaths[SendBurnBaseAsset];
    if p == Pos(0, 9) then n == d && (w.request.fromWallet != HotWallet || w.request.nativeAsset ==> n == 0)
    else if p == Pos(0, 10) then n == d + 1
    else if p.stage == 0 || w.request.kind != Some(BurnTRX) then n == d == 0
    else n <= d + 1
  }

  /** Of delegations there are two at most, and two more for each such death. */
  ghost predicate DelegationSpent(w: World, p: Pos) {
    var n, d := Sent(w, DelegateResources), w.deaths[DelegateResources];
    if p == Pos(0, 11) then n <= 2 * d && (w.request.fromWallet == ProcessingWallet ==> n == d == 0)
    else if (p.stage == 0 && p.step < 11) || w.request.kind != Some(Resources) then n == d == 0
    else n <= 2 * d + 2
  }

  /** The transfer was recorded when it was broadcast last. */
  ghost predicate TransferRecorded(w: World) {
    var txs := Recorded(w.rows, Transfer);
    w.txHash.Some? && txs != [] && txs[|txs| - 1] == Tx(Transfer, w.txHash.value)
  }

  ghost predicate TransferSpent(w: World, p: Pos) {
    var n, d := Sent(w, Transfer), w.deaths[Transfer];
    if p.stage == 0 then n == d == 0
    else if p.stage == 1 then n == d
    else n == d + 1 && TransferRecorded(w) && (p.step >= 1 ==> Count(w, Transfer) == 1)
  }

  ghost predicate ReclaimSpent(w: World, p: Pos) {
    var n, d := Sent(w, ReclaimResources), w.deaths[ReclaimResources];
    if p.stage < 2 || p.step < 3 then n == d == 0
    else if p == Pos(2, 3) then (if d == 0 then n == 0 else w.request.fromWallet == HotWallet && w.delegatedFrom)
    else d == 0 ==> ReclaimedOnce(w)
  }

  /** How many transactions of each type were broadcast when the step at `p` is next. */
  ghost predicate Spent(w: World, p: Pos) {
    && RowsSent(w) && ActivationSpent(w, p) && BurnSpent(w, p) && DelegationSpent(w, p) && TransferSpent(w, p) &&
       ReclaimSpent(w, p)
  }

  /** The statuses of a transfer that succeeds; the last step may run, and store its status, again. */
  predicate HistoryAt(h: seq<TransferStatus>, p: Pos) {
    if p == Pos(0, 0) then h == []
    else if p.stage < 2 || p == Pos(2, 0) then h == [StatusProcessing]
    else if p == Pos(2, 5) then
      [StatusProcessing, StatusUnconfirmed] <= h && forall k :: 2 <= k < |h| ==> h[k] == StatusCompleted
    else h == [StatusProcessing, StatusUnconfirmed]
  }

  /** The request passed the validation: one address each way, an asset and a kind; and from a hot
      wallet it goes to a cold or processing wallet of the same owner. */
  ghost predicate Checked(w: World) {
    && w.request.fromAddresses == 1 && w.request.toAddresses == 1 && w.request.assetGiven && w.request.kind.Some?
    && (w.request.fromWallet == HotWallet ==> exists k :: 0 <= k < w.read && w.tape(k).wallet == ColdOrProcessing(true))
  }

  /** What holds of the world when the step at `p` is next. */
  ghost predicate At(w: World, p: Pos) {
    && Reaches(w.request, p)
    && (if p == Pos(0, 0) then w.sends == [] else Checked(w))
    && HistoryAt(w.history, p)
    && Spent(w, p) && DiedByAnswer(w)
    && AllSeen(w, p)
  }

  // ------------------------------------------------------------------- the promises

  /** The statuses go forward; a completed transfer stays completed. */
  predicate ForwardOnly(h: seq<TransferStatus>) {
    || h <= [StatusProcessing, StatusUnconfirmed]
    || ([StatusProcessing, StatusUnconfirmed] <= h && forall k :: 2 <= k < |h| ==> h[k] == StatusCompleted)
  }

  ghost predicate KindSeen(w: World, kind: TxType, confirmations: nat) {
    forall k :: 0 <= k < |w.rows| && w.rows[k].kind == kind ==> SeenWith(w.sights, w.rows[k].hash, confirmations)
  }

  /** Each transaction is broadcast once, a delegation twice, and as often again as the process died
      right after it; nothing is broadcast for the funding of another kind. */
  ghost predicate Bounded(w: World) {
    && Sent(w, AccountActivation) <= w.deaths[AccountActivation] + 1
    && Sent(w, SendBurnBaseAsset) <= (if w.request.kind == Some(BurnTRX) then w.deaths[SendBurnBaseAsset] + 1 else 0)
    && Sent(w, DelegateResources) <=
       (if w.request.kind == Some(Resources) then 2 * w.deaths[DelegateResources] + 2 else 0)
    && Sent(w, Transfer) <= w.deaths[Transfer] + 1
    && (w.deaths[ReclaimResources] == 0 ==> ReclaimedOnce(w))
  }

  /** The transfer is broadcast only once the activation and the funding were seen, as recorded. */
  ghost predicate SentFunded(w: World) {
    Sent(w, Transfer) >= 1 ==>
      && KindSeen(w, AccountActivation, SYSTEM_CONFIRMATIONS)
      && KindSeen(w, SendBurnBaseAsset, SYSTEM_CONFIRMATIONS)
      && KindSeen(w, DelegateResources, SYSTEM_CONFIRMATIONS)
  }

  /** A completed transfer was recorded once and seen, and so was whatever was reclaimed. */
  ghost predicate CompletedSeen(w: World) {
    StatusCompleted in w.history ==>
      && Count(w, Transfer) == 1 && KindSeen(w, Transfer, w.request.minConfirmations)
      && KindSeen(w, ReclaimResources, SYSTEM_CONFIRMATIONS)
  }

  /** The promises about the transactions of a transfer. */
  ghost predicate Safe(w: World) {
    && RowsSent(w) && DiedByAnswer(w) && Bounded(w) && (w.sends != [] ==> Checked(w))
    && SentFunded(w) && ForwardOnly(w.history) && CompletedSeen(w)
  }

  lemma SpentIsBounded(w: World, p: Pos)
    requires Reaches(w.request, p) && Spent(w, p)
    ensures Bounded(w)
  {
  }

  lemma SeenIsFunded(w: World, p: Pos)
    requires TransferSpent(w, p) && AllSeen(w, p)
    ensures SentFunded(w)
  {
    if p.stage > 0 {
      KindIsSeen(w, p, AccountActivation);
      KindIsSeen(w, p, SendBurnBaseAsset);
      KindIsSeen(w, p, DelegateResources);
    }
  }

  lemma KindIsSeen(w: World, p: Pos, kind: TxType)
    requires AllSeen(w, p) && Needed(w.request, kind, p).Some?
    ensures KindSeen(w, kind, Needed(w.request, kind, p).value)
  {
    forall k | 0 <= k < |w.rows| && w.rows[k].kind == kind
      ensures SeenWith(w.sights, w.rows[k].hash, Needed(w.request, kind, p).value)
    {
      assert RowSeen(w, w.rows[k], p);
    }
  }

  lemma SeenIsCompleted(w: World, p: Pos)
    requires p.stage < 3 && TransferSpent(w, p) && AllSeen(w, p) && HistoryAt(w.history, p)
    ensures CompletedSeen(w)
  {
    if p == Pos(2, 5) {
      KindIsSeen(w, p, Transfer);
      KindIsSeen(w, p, ReclaimResources);
    }
  }

  lemma AtIsSafe(w: World, p: Pos)
    requires At(w, p) && p.stage < 3
    ensures Safe(w)
  {
    SpentIsBounded(w, p);
    SeenIsFunded(w, p);
    SeenIsCompleted(w, p);
  }

  // --------------------------------------------------------------------- the table

  lemma Table()
    ensures |STAGES| == 4 && |STAGES[0].steps| == 14 && |STAGES[1].steps| == 1 && |STAGES[2].steps| == 6 &&
            |STAGES[3].steps| == 4
    ensures Plainly(STAGES)
  {
  }

  /** Where in the table a step is. */
  function Home(name: StepName): Pos {
    match name
    case StepValidateRequest => Pos(0, 0)
    case StepCheckActivateWallet => Pos(0, 1)
    case StepBeforeActivationCheckTransferKind => Pos(0, 2)
    case StepActiveWalletResources => Pos(0, 3)
    case StepWaitingResourcesActivateWalletConfirmations => Pos(0, 4)
    case StepWaitingExternalActivateWalletConfirmations => Pos(0, 5)
    case StepActivateWalletBurnTRX => Pos(0, 6)
    case StepWaitingActivateWalletConfirmations => Pos(0, 7)
    case StepBeforeSendingCheckTransferKind => Pos(0, 8)
    case StepSendTRXForBurn => Pos(0, 9)
    case StepWaitingSendTRXForBurnConfirmations => Pos(0, 10)
    case StepDelegateResources => Pos(0, 11)
    case StepWaitingDelegateConfirmations => Pos(0, 12)
    case StepWaitingExternalDelegateConfirmations => Pos(0, 13)
    case StepSending => Pos(1, 0)
    case StepWaitingForTheFirstConfirmation => Pos(2, 0)
    case StepWaitingConfirmations => Pos(2, 1)
    case StepAfterSendingCheckTransferKind => Pos(2, 2)
    case StepReclaimResources => Pos(2, 3)
    case StepWaitingReclaimResourcesConfirmations => Pos(2, 4)
    case StepSendSuccessEvent => Pos(2, 5)
    case StepDetermineCompensationFlow => Pos(3, 0)
    case StepReclaimOnError => Pos(3, 1)
    case StepWaitingReclaimOnErrorConfirmation => Pos(3, 2)
    case StepSendFailureEvent => Pos(3, 3)
    case _ => Pos(4, 0)
  }

  lemma HomeIs(i: nat, j: nat)
    requires i < |STAGES| && j < |STAGES[i].steps|
    ensures Home(STAGES[i].steps[j].name) == Pos(i, j)
  {
    assert STAGES[0].steps == BEFORE && STAGES[2].steps == AFTER && STAGES[3].steps == COMPENSATE;
    if i == 0 {
      HomeBefore(j);
    } else if i == 2 {
      HomeAfter(j);
    }
  }

  lemma HomeBefore(j: nat)
    requires j < |BEFORE|
    ensures Home(BEFORE[j].name) == Pos(0, j)
  {
  }

  lemma HomeAfter(j: nat)
    requires j < |AFTER|
    ensures Home(AFTER[j].name) == Pos(2, j)
  {
  }

  lemma TableIsDistinct()
    ensures Distinct(STAGES)
  {
    Table();
    forall i, j | 0 <= i < |STAGES| && 0 <= j < |STAGES[i].steps| ensures Home(STAGES[i].steps[j].name) == Pos(i, j) {
      HomeIs(i, j);
    }
  }

  lemma NameIndex(steps: seq<Step>, j: nat)
    requires UniqueSteps(steps) && j < |steps|
    ensures IndexOf(steps, steps[j].name) == j
  {
  }

  function Next(p: Pos): Pos {
    if p == Pos(0, 13) then Pos(1, 0) else if p == Pos(1, 0) then Pos(2, 0) else Pos(p.stage, p.step + 1)
  }

  /** Where a success at `p` leads. */
  function Goal(p: Pos, r: Reply<World>): Pos {
    if r.nextStep.None? then Next(p) else Home(r.nextStep.value)
  }

  /** A jump a step of the table may ask for. */
  predicate JumpOk(p: Pos, r: Reply<World>) {
    if r.nextStep.None? then r.nextStage.None?
    else
      var q := Home(r.nextStep.value);
      && Before(p, q)
      && if q == Pos(1, 0) then r.nextStage == Some(StageSending) else r.nextStage.None? && p.stage == q.stage
  }

  lemma HomeNames(name: StepName)
    ensures var q := Home(name);
            q.stage < 4 ==> InTable(STAGES, q) && STAGES[q.stage].steps[q.step].name == name
    ensures STAGES[1].name == StageSending
  {
    Table();
  }

  lemma Targets(p: Pos, r: Reply<World>)
    requires InTable(STAGES, p) && p.stage < 3 && p != Pos(2, 5) && JumpOk(p, r)
    ensures ForwardJump(STAGES, p, r.nextStage, r.nextStep)
    ensures Target(STAGES, p, r.nextStage, r.nextStep) == Goal(p, r)
  {
    Table();
    TableIsDistinct();
    if r.nextStep.Some? {
      var q := Home(r.nextStep.value);
      HomeNames(r.nextStep.value);
      NameIndex(STAGES[q.stage].steps, q.step);
      if q == Pos(1, 0) {
        forall b | p.step < b < |STAGES[p.stage].steps| ensures STAGES[p.stage].steps[b].name != StepSending {
          HomeIs(p.stage, b);
        }
      }
    }
  }

  // ------------------------------------------------------------------ one step each

  ghost predicate SameSetup(w: World, v: World) {
    v.request == w.request && v.tape == w.tape
  }

  /** The steps whose ordinary errors are not retried. */
  predicate Fatal(p: Pos) {
    || (p.stage == 0 &&
       (p.step == 0 || p.step == 1 || p.step == 3 || p.step == 6 || p.step == 8 || p.step == 9 || p.step == 11))
    || p.stage == 1
    || (p.stage == 2 && (p.step == 2 || p.step == 3))
  }

  lemma FatalSteps(p: Pos)
    requires InTable(STAGES, p) && p.stage < 3
    ensures Fatal(p) == ExitOnFailed(Some(STAGES[p.stage].name), Some(STAGES[p.stage].steps[p.step].name))
  {
    hide Home;
    match p.stage
    case 0 => FatalBeforeSending(p.step);
    case 1 =>
    case _ => FatalAfterSending(p.step);
  }

  lemma FatalBeforeSending(j: nat)
    requires InTable(STAGES, Pos(0, j))
    ensures Fatal(Pos(0, j)) == ExitOnFailed(Some(STAGES[0].name), Some(STAGES[0].steps[j].name))
  {
    hide Home;
  }

  lemma FatalAfterSending(j: nat)
    requires InTable(STAGES, Pos(2, j))
    ensures Fatal(Pos(2, j)) == ExitOnFailed(Some(STAGES[2].name), Some(STAGES[2].steps[j].name))
  {
    hide Home;
  }

  /** The errors after which the failure callback leaves the step to be retried. */
  predicate Retried(p: Pos, e: Error) {
    e == ExitWorkflow || (e == Plain && !Fatal(p))
  }

  /** The only replies of a step: it succeeds, and what is promised of the step it leads to holds;
      or it fails to be retried or dies, and what was promised of the step still holds; or it fails
      for good, with the promises kept. */
  ghost predicate Advances(w: World, p: Pos, r: Reply<World>) {
    && !r.fail && !r.skipError && SameSetup(w, r.world)
    && match r.outcome
       case Done =>
         && p != Pos(2, 5) && JumpOk(p, r) && At(r.world, Goal(p, r))
         && (p.stage == 0 && Goal(p, r).stage >= 1 ==> Funds(w.request, p))
       case Err(e) =>
         && Quiet(r) && (e == Plain || e == FailedTransfer || e == ExitWorkflow)
         && if Retried(p, e) then At(r.world, p) else Safe(r.world)
       case Died => Quiet(r) && At(r.world, p)
  }

  /** Nothing a promise rests on changed. */
  ghost predicate Unmoved(w: World, v: World) {
    && v.tape == w.tape && w.read <= v.read && v.request == w.request && v.delegatedFrom == w.delegatedFrom
    && v.rows == w.rows && v.sends == w.sends && v.deaths == w.deaths && v.txHash == w.txHash
    && v.history == w.history && w.sights <= v.sights
  }

  lemma SeenStays(sights: seq<Sight>, more: seq<Sight>, hash: nat, n: nat)
    requires SeenWith(sights, hash, n) && sights <= more
    ensures SeenWith(more, hash, n)
  {
    var k :| 0 <= k < |sights| && sights[k].hash == hash && sights[k].success && sights[k].confirmations >= n;
    assert more[k] == sights[k];
  }

  lemma ReclaimedStays(w: World, v: World)
    requires ReclaimedOnce(w) && v.rows == w.rows && v.tape == w.tape && w.read <= v.read
    ensures ReclaimedOnce(v)
  {
    if Count(w, ReclaimResources) != 0 {
      var k: nat :| ReclaimedAt(w, k);
      assert ReclaimedAt(v, k);
    }
  }

  lemma SpentStays(w: World, v: World, p: Pos)
    requires Spent(w, p) && Unmoved(w, v.(history := w.history))
    ensures Spent(v, p)
  {
    forall kind: TxType ensures Count(v, kind) <= Sent(v, kind) {
      assert Count(w, kind) <= Sent(w, kind);
    }
    if ReclaimedOnce(w) {
      ReclaimedStays(w, v);
    }
  }

  lemma AllSeenStays(w: World, v: World, p: Pos)
    requires AllSeen(w, p) && v.rows == w.rows && v.request == w.request && w.sights <= v.sights
    ensures AllSeen(v, p)
  {
    forall k | 0 <= k < |v.rows| ensures RowSeen(v, v.rows[k], p) {
      assert RowSeen(w, w.rows[k], p);
      var n := Needed(w.request, w.rows[k].kind, p);
      if n.Some? {
        SeenStays(w.sights, v.sights, w.rows[k].hash, n.value);
      }
    }
  }

  lemma CheckedStays(w: World, v: World)
    requires Checked(w) && v.request == w.request && v.tape == w.tape && w.read <= v.read
    ensures Checked(v)
  {
  }

  lemma DeathsStay(w: World, v: World)
    requires DiedByAnswer(w) && v.deaths == w.deaths && v.tape == w.tape && w.read <= v.read
    ensures DiedByAnswer(v)
  {
  }

  /** A step that only looks at things keeps its promises. */
  lemma UnmovedStays(w: World, v: World, p: Pos)
    requires At(w, p) && Unmoved(w, v)
    ensures At(v, p)
  {
    SpentStays(w, v, p);
    AllSeenStays(w, v, p);
    DeathsStay(w, v);
    if p != Pos(0, 0) {
      CheckedStays(w, v);
    }
  }

  lemma {:induction false} InRecorded(rows: seq<Tx>, k: nat)
    requires k < |rows|
    ensures rows[k] in Recorded(rows, rows[k].kind)
  {
    var n := |rows| - 1;
    if k < n {
      InRecorded(rows[..n], k);
    }
  }

  /** A type needs no new confirmations on the way from `p` to `q`, or none of it is recorded, or
      all of it was seen. */
  ghost predicate KindReady(v: World, kind: TxType, p: Pos, q: Pos) {
    || Needed(v.request, kind, p) == Needed(v.request, kind, q)
    || Count(v, kind) == 0
    || (Needed(v.request, kind, q).Some? &&
        forall k :: 0 <= k < Count(v, kind) ==>
          SeenWith(v.sights, Recorded(v.rows, kind)[k].hash, Needed(v.request, kind, q).value))
  }

  ghost predicate Ready(v: World, p: Pos, q: Pos) {
    && KindReady(v, AccountActivation, p, q) && KindReady(v, SendBurnBaseAsset, p, q) &&
       KindReady(v, DelegateResources, p, q)
    && KindReady(v, Transfer, p, q) && KindReady(v, ReclaimResources, p, q)
  }

  /** A step that sends nothing leads to where the confirmations it waited for are in. */
  lemma SeenMoves(v: World, p: Pos, q: Pos)
    requires AllSeen(v, p) && Ready(v, p, q)
    ensures AllSeen(v, q)
  {
    forall k | 0 <= k < |v.rows| ensures RowSeen(v, v.rows[k], q) {
      assert RowSeen(v, v.rows[k], p);
      InRecorded(v.rows, k);
    }
  }

  /** A step that sends nothing keeps its promises where it leads. */
  lemma Moves(w: World, v: World, p: Pos, q: Pos)
    requires At(w, p) && Unmoved(w, v.(history := w.history)) && Ready(v, p, q)
    requires Reaches(v.request, q) && Checked(v) && HistoryAt(v.history, q) && Spent(v, q)
    ensures At(v, q)
  {
    AllSeenStays(w, v, p);
    SeenMoves(v, p, q);
    DeathsStay(w, v);
  }

  /** A reply that leaves the world as it is, but for what was seen. */
  lemma Stays(w: World, p: Pos, v: World)
    requires At(w, p) && p.stage < 3 && Unmoved(w, v)
    ensures At(v, p) && Safe(v)
  {
    UnmovedStays(w, v, p);
    AtIsSafe(v, p);
  }

  // -------------------------------------------------------------------- the ways out

  /** `Advances`, of a reply that is not looked into. */
  ghost predicate AdvancesBy(w: World, p: Pos, r: Reply<World>) {
    exists u :: u == r && Advances(w, p, u)
  }

  /** A refusal, a fatal error or a death that leaves the world as it was. */
  lemma FailsAt(w: World, p: Pos, v: World)
    requires At(w, p) && p.stage < 3 && Unmoved(w, v)
    ensures AdvancesBy(w, p, Refuse(v)) && AdvancesBy(w, p, GiveUp(v)) && AdvancesBy(w, p, Die(v))
  {
    Stays(w, p, v);
    assert Advances(w, p, Refuse(v));
    assert Advances(w, p, GiveUp(v));
    assert Advances(w, p, Die(v));
  }

  /** A death after which the promises still hold. */
  lemma DiesIn(w: World, p: Pos, v: World)
    requires At(v, p) && SameSetup(w, v)
    ensures AdvancesBy(w, p, Die(v))
  {
    assert Advances(w, p, Die(v));
  }

  /** An error that is not retried. */
  lemma EndsIn(w: World, p: Pos, v: World)
    requires Safe(v) && SameSetup(w, v)
    ensures AdvancesBy(w, p, GiveUp(v)) && (Fatal(p) ==> AdvancesBy(w, p, Refuse(v)))
  {
    assert Advances(w, p, GiveUp(v));
    if Fatal(p) {
      assert Advances(w, p, Refuse(v));
    }
  }

  /** A success that leads to the next step of the table. */
  lemma SucceedsIn(w: World, p: Pos, v: World)
    requires p != Pos(2, 5) && At(v, Next(p)) && SameSetup(w, v)
    requires p.stage == 0 && Next(p).stage >= 1 ==> Funds(w.request, p)
    ensures AdvancesBy(w, p, Succeed(v))
  {
    assert Advances(w, p, Succeed(v));
  }

  /** A success that jumps within the stage. */
  lemma GoesTo(w: World, p: Pos, v: World, name: StepName)
    requires p != Pos(2, 5) && Before(p, Home(name)) && Home(name).stage == p.stage != 1 && At(v, Home(name)) &&
             SameSetup(w, v)
    ensures AdvancesBy(w, p, GoTo(v, name))
  {
    assert Advances(w, p, GoTo(v, name));
  }

  /** A success that jumps to the sending stage. */
  lemma GoesSending(w: World, p: Pos, v: World)
    requires p.stage == 0 && At(v, Pos(1, 0)) && Funds(w.request, p) && SameSetup(w, v)
    ensures AdvancesBy(w, p, GoSending(v))
  {
    assert Advances(w, p, GoSending(v));
  }
}
