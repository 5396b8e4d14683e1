/** What each answer makes of a Tron transfer, exactly: where it goes, when it is tried again, and when
    it is sent to the compensation. */
module FsmTronMoves {
  import opened Wrappers
  import opened Names
  import opened Engine
  import opened Resumption
  import opened Transfers
  import opened FsmTron
  import opened FsmTronRouting
  import opened FsmTronCalls
  import opened FsmTronSafety

  /** What becomes of a transfer at a step: the step is tried again, the transfer is compensated, with
      the details of a failed transfer or without, or it goes on to a step. */
  datatype Turn = TriesAgain | Compensates(failed: bool) | GoesOn(to: Pos)

  // ------------------------------------------------------------------ what is broadcast

  /** The answers a step that broadcasts one transaction needs. */
  predicate CanSend(a: Answer) {
    a.prepared && a.affordable && a.hash.Some? && a.accepted
  }

  /** The turn of a step that broadcasts one transaction. */
  function SendTurn(a: Answer, to: Pos): Turn {
    if !CanSend(a) then Compensates(false) else if a.death.DiesSent? then TriesAgain else GoesOn(to)
  }

  /** An entry was delegated for the transfer. */
  predicate Ours(a: Answer, e: Frozen) {
    (if e.resource == Energy then a.energyKept else a.bandwidthKept) == Usable && e.ours && e.amount != 0
  }

  /** The entry is reclaimed: it is to be, can be, and no entry before it stopped its loop. */
  predicate IsReclaimed(a: Answer, k: nat)
    requires k < |a.frozen|
  {
    && Ours(a, a.frozen[k]) && a.frozen[k].hash.Some?
    && forall i :: 0 <= i < k && a.frozen[i].resource == a.frozen[k].resource && Ours(a, a.frozen[i]) ==>
         a.frozen[i].hash.Some?
  }

  /** The hashes of the first `n` entries that are reclaimed. */
  function Reclaims(a: Answer, n: nat): seq<nat>
    requires n <= |a.frozen|
  {
    if n == 0 then [] else Reclaims(a, n - 1) + if IsReclaimed(a, n - 1) then [a.frozen[n - 1].hash.value] else []
  }

  /** Not all could be reclaimed. */
  predicate ReclaimFails(a: Answer) {
    || a.energyKept == Unusable || a.bandwidthKept == Unusable
    || exists k :: 0 <= k < |a.frozen| && Ours(a, a.frozen[k]) && a.frozen[k].hash.None?
  }

  /** The type of what a step broadcasts. */
  function KindAt(p: Pos): TxType {
    if p == Pos(0, 9) then SendBurnBaseAsset
    else if p == Pos(0, 11) then DelegateResources
    else if p == Pos(1, 0) then Transfer
    else if p == Pos(2, 3) then ReclaimResources
    else AccountActivation
  }

  /** What a call broadcasts. */
  function Out(w: World, p: Pos, a: Answer): seq<nat> {
    var one := if CanSend(a) then [a.hash.value] else [];
    if p == Pos(0, 3) || p == Pos(1, 0) then one
    else if p == Pos(0, 6) then if a.feeIsZero then [] else one
    else if p == Pos(0, 9) then if w.request.fromWallet == HotWallet && !w.request.nativeAsset then one else []
    else if p == Pos(0, 11) then
      if !a.prepared || !a.affordable || w.request.fromWallet == ProcessingWallet then []
      else match (a.energy, a.bandwidth)
           case (Broadcast(e), Broadcast(b)) => if a.bandwidthFirst then [b, e] else [e, b]
           case (Broadcast(e), _) => [e]
           case (_, Broadcast(b)) => [b]
           case _ => []
    else if p == Pos(2, 3) then
      if a.prepared && w.request.fromWallet == HotWallet && w.delegatedFrom then Reclaims(a, |a.frozen|) else []
    else []
  }

  // --------------------------------------------------------------------- what is waited for

  predicate InChain(a: Answer, hash: nat, confirmations: nat) {
    var l := a.lookup(hash);
    l.Found? && l.success && l.confirmations >= confirmations && a.expensesStored
  }

  predicate Reverted(a: Answer, hash: nat) {
    a.lookup(hash).Found? && !a.lookup(hash).success && a.expensesStored
  }

  /** The turn of a step that waits for the only transaction of a type. */
  function WaitTurn(a: Answer, txs: seq<Tx>, confirmations: nat, to: Pos): Turn {
    if |txs| != 1 then TriesAgain
    else if InChain(a, txs[0].hash, confirmations) then GoesOn(to)
    else if Reverted(a, txs[0].hash) then Compensates(true)
    else TriesAgain
  }

  /** The turn of a step that waits for all transactions of a type: of a failed one and one that is
      not there yet, the answer says which is noticed. */
  function WaitAllTurn(a: Answer, txs: seq<Tx>, to: Pos): Turn {
    if forall k :: 0 <= k < |txs| ==> InChain(a, txs[k].hash, 3) then GoesOn(to)
    else if (exists k :: 0 <= k < |txs| && Reverted(a, txs[k].hash)) &&
            (a.giveUpFirst ||
             forall k :: 0 <= k < |txs| ==> InChain(a, txs[k].hash, 3) || Reverted(a, txs[k].hash))
    then Compensates(true)
    else TriesAgain
  }

  predicate Filled(o: Order) {
    o == OrderFulfilled || o == OrderCompleted(false)
  }

  predicate Broken(o: Order) {
    o == OrderUnreachable || o == OrderFailed
  }

  /** The turn of a step that waits for the orders of energy and bandwidth. */
  function OrdersTurn(q: Request, a: Answer, to: Pos): Turn {
    var e, b := q.energyOrdered && !Filled(a.energyOrder), q.bandwidthOrdered && !Filled(a.bandwidthOrder);
    if !e && !b then GoesOn(to)
    else if e && b && Broken(a.energyOrder) != Broken(a.bandwidthOrder) then
      if a.giveUpFirst then Compensates(true) else TriesAgain
    else if (e && Broken(a.energyOrder)) || (!e && Broken(a.bandwidthOrder)) then Compensates(true)
    else TriesAgain
  }

  // ---------------------------------------------------------------------------- the table

  /** The turn a transfer takes at the steps that decide about and make the activation. */
  function ActivationTurn(w: World, step: nat, a: Answer): Turn {
    var q, activations := w.request, Recorded(w.rows, AccountActivation);
    match step
    case 0 =>
      if q.fromAddresses == 1 && q.toAddresses == 1 && q.assetGiven && q.kind.Some?
         && (q.fromWallet == HotWallet ==> a.wallet == ColdOrProcessing(true))
      then GoesOn(Pos(0, 1)) else Compensates(false)
    case 1 =>
      if q.nativeAsset then GoesOn(Pos(0, 8))
      else if q.fromWallet == ColdWallet || a.activated.None? then Compensates(false)
      else if a.activated.value then GoesOn(Pos(0, 8)) else GoesOn(Pos(0, 2))
    case 2 =>
      if q.kind == Some(CloudDelegate) then GoesOn(Pos(0, 5))
      else if q.fromWallet != HotWallet then TriesAgain
      else if q.useBurnActivation then GoesOn(Pos(0, 6)) else GoesOn(Pos(0, 3))
    case 3 => SendTurn(a, Pos(0, 4))
    case 4 => WaitTurn(a, activations, 3, Pos(0, 8))
    case 5 =>
      if Filled(a.activationOrder) then GoesOn(Pos(0, 8))
      else if Broken(a.activationOrder) then Compensates(true) else TriesAgain
    case 6 => if a.prepared && a.feeIsZero then GoesOn(Pos(0, 7)) else SendTurn(a, Pos(0, 7))
    case _ => WaitTurn(a, activations, 3, Pos(0, 8))
  }

  /** The turn at the steps that fund the transfer. */
  function FundingTurn(w: World, step: nat, a: Answer): Turn {
    var q := w.request;
    match step
    case 8 =>
      if q.kind == Some(BurnTRX) then GoesOn(Pos(0, 9))
      else if q.kind == Some(Resources) then GoesOn(Pos(0, 11)) else GoesOn(Pos(0, 13))
    case 9 =>
      if q.fromWallet == ProcessingWallet then GoesOn(Pos(1, 0))
      else if q.fromWallet == ColdWallet then Compensates(false)
      else if q.nativeAsset then GoesOn(Pos(1, 0))
      else SendTurn(a, Pos(0, 10))
    case 10 => WaitTurn(a, Recorded(w.rows, SendBurnBaseAsset), 3, Pos(1, 0))
    case 11 =>
      if !a.prepared || !a.affordable then Compensates(false)
      else if q.fromWallet == ProcessingWallet then GoesOn(Pos(1, 0))
      else if a.death.DiesSent? && (a.energy.Broadcast? || a.bandwidth.Broadcast?) then TriesAgain
      else if a.energy == PartFails || a.bandwidth == PartFails then Compensates(true)
      else GoesOn(Pos(0, 12))
    case 12 => WaitAllTurn(a, Recorded(w.rows, DelegateResources), Pos(1, 0))
    case _ => OrdersTurn(q, a, Pos(1, 0))
  }

  /** The turn at the steps after the transfer was sent. */
  function AfterTurn(w: World, step: nat, a: Answer): Turn {
    var q, transfers := w.request, Recorded(w.rows, Transfer);
    match step
    case 0 =>
      if |transfers| != 1 then TriesAgain
      else
        (match a.lookup(transfers[0].hash)
         case LookupFails => TriesAgain
         case Found(success, confirmations) =>
           if !success then Compensates(true)
           else if confirmations == 0 then TriesAgain
           else if a.expensesStored then GoesOn(Pos(2, 1)) else Compensates(true))
    case 1 => WaitTurn(a, transfers, q.minConfirmations, Pos(2, 2))
    case 2 =>
      if q.kind == Some(Resources) && q.fromWallet != ProcessingWallet then GoesOn(Pos(2, 3)) else GoesOn(Pos(2, 5))
    case 3 =>
      if q.fromWallet != HotWallet || !w.delegatedFrom then GoesOn(Pos(2, 5))
      else if !a.prepared then Compensates(false)
      else if a.death.DiesSent? && Reclaims(a, |a.frozen|) != [] then TriesAgain
      else if ReclaimFails(a) then Compensates(false)
      else GoesOn(Pos(2, 4))
    case 4 => WaitAllTurn(a, Recorded(w.rows, ReclaimResources), Pos(2, 5))
    case _ => TriesAgain
  }

  /** The turn a transfer takes at each step, unless the process dies at once. */
  function TurnOf(w: World, p: Pos, a: Answer): Turn {
    if p.stage == 0 then if p.step < 8 then ActivationTurn(w, p.step, a) else FundingTurn(w, p.step, a)
    else if p.stage == 1 then SendTurn(a, Pos(2, 0))
    else AfterTurn(w, p.step, a)
  }

  /** The status a turn stores, if it stores one: the completed one again each time the last step runs. */
  function Stored(p: Pos, t: Turn): seq<TransferStatus> {
    if p == Pos(0, 0) && t.GoesOn? then [StatusProcessing]
    else if p == Pos(2, 0) && t.GoesOn? then [StatusUnconfirmed]
    else if p == Pos(2, 5) then [StatusCompleted]
    else []
  }

  /** Only what the answer says was looked up. */
  predicate Honest(w: World, a: Answer, v: World) {
    && w.sights <= v.sights
    && forall k :: |w.sights| <= k < |v.sights| ==>
         a.lookup(v.sights[k].hash) == Found(v.sights[k].success, v.sights[k].confirmations)
  }

  /** What the turn leaves: the status it stores, what it broadcasts and records, and the address that
      was delegated from. */
  ghost predicate Leaves(w: World, p: Pos, a: Answer, v: World) {
    var out := Out(w, p, a);
    var died := a.death.DiesSent? && out != [];
    && v.request == w.request && v.tape == w.tape && v.read == w.read + 1
    && v.history == w.history + Stored(p, TurnOf(w, p, a))
    && v.sends == w.sends + Txs(KindAt(p), out)
    && v.rows == w.rows + Txs(KindAt(p), Committed(a, out))
    && v.deaths == (if died then w.deaths + multiset{KindAt(p)} else w.deaths)
    && v.delegatedFrom == (w.delegatedFrom || (p == Pos(0, 11) && out != [] && !died))
    && v.txHash == (if p == Pos(1, 0) && out != [] && !died then a.hash else w.txHash)
    && Honest(w, a, v)
  }

  /** The transfer is where its turn puts it. */
  ghost predicate TakesTurn(a: Driver<World>, b: Driver<World>) {
    var w, x := a.world, a.world.tape(a.world.read);
    if x.death.DiesFirst? then
      b.phase == Live && b.pos == a.pos && b.world == Taken(w)
    else
      && Leaves(w, a.pos, x, b.world)
      && match TurnOf(w, a.pos, x)
         case TriesAgain => b.phase == Live && b.pos == a.pos
         case Compensates(failed) =>
           && b.pos == a.pos
           && b.phase ==
              Redirected(StageCompensateOnFail, StepDetermineCompensationFlow, if failed then Decodable else Absent)
         case GoesOn(to) => b.phase == Live && b.pos == to
  }

  // ----------------------------------------------------------------- the parts of the replies

  /** The reply that a turn comes with. */
  ghost predicate Replies(w: World, p: Pos, a: Answer, r: Reply<World>) {
    && Leaves(w, p, a, r.world)
    && match TurnOf(w, p, a)
       case TriesAgain =>
         if p == Pos(2, 5) then r.outcome == Err(ExitWorkflow)
         else r.outcome == Died || (r.outcome == Err(Plain) && !Fatal(p))
       case Compensates(failed) =>
         if failed then r.outcome == Err(FailedTransfer) else r.outcome == Err(Plain) && Fatal(p)
       case GoesOn(to) => r.outcome == Done && to == Goal(p, r)
  }

  /** The replies of a world that only took its answer. */
  lemma NothingLeft(w: World, p: Pos, a: Answer)
    requires Out(w, p, a) == [] && Stored(p, TurnOf(w, p, a)) == []
    ensures Leaves(w, p, a, Taken(w))
  {
    hide TurnOf;
    assert Txs(KindAt(p), Committed(a, [])) == [] && Txs(KindAt(p), []) == [];
  }

  /** What is reclaimed is what the loops reclaim. */
  lemma {:induction false} LoopsReclaim(a: Answer, n: nat)
    requires n <= |a.frozen|
    ensures var l := ReclaimLoops(a, true, a.frozen[..n]);
            && l.hashes == Reclaims(a, n)
            && forall r: Resource :: r in l.failed <==>
                 Kept(a, r).Unusable? ||
                 exists k :: 0 <= k < n && a.frozen[k].resource == r && Ours(a, a.frozen[k]) && a.frozen[k].hash.None?
  {
    if n > 0 {
      LoopsReclaim(a, n - 1);
      assert a.frozen[..n][..n - 1] == a.frozen[..n - 1];
      LoopGoesOn(a, n);
    }
  }

  lemma LoopGoesOn(a: Answer, n: nat)
    requires 0 < n <= |a.frozen| && a.frozen[..n][..n - 1] == a.frozen[..n - 1]
    requires var l := ReclaimLoops(a, true, a.frozen[..n - 1]);
             && l.hashes == Reclaims(a, n - 1)
             && forall r: Resource :: r in l.failed <==>
                  Kept(a, r).Unusable? ||
                  exists k :: 0 <= k < n - 1 && a.frozen[k].resource == r && Ours(a, a.frozen[k]) &&
                    a.frozen[k].hash.None?
    ensures var l := ReclaimLoops(a, true, a.frozen[..n]);
            && l.hashes == Reclaims(a, n)
            && forall r: Resource :: r in l.failed <==>
                 Kept(a, r).Unusable? ||
                 exists k :: 0 <= k < n && a.frozen[k].resource == r && Ours(a, a.frozen[k]) && a.frozen[k].hash.None?
  {
    hide ReclaimLoops;
    var l, e := ReclaimLoops(a, true, a.frozen[..n - 1]), a.frozen[n - 1];
    assert ReclaimLoops(a, true, a.frozen[..n]) == ReclaimOne(a, true, l, e) by {
      LoopsOnce(a, n);
    }
    assert Takes(a, e) == Ours(a, e);
    forall r: Resource
      ensures r in ReclaimOne(a, true, l, e).failed <==>
              Kept(a, r).Unusable? ||
              exists k :: 0 <= k < n && a.frozen[k].resource == r && Ours(a, a.frozen[k]) && a.frozen[k].hash.None?
    {
      if r in ReclaimOne(a, true, l, e).failed && r !in l.failed {
        assert a.frozen[n - 1].resource == r && Ours(a, a.frozen[n - 1]) && a.frozen[n - 1].hash.None?;
      }
    }
  }

  lemma LoopsOnce(a: Answer, n: nat)
    requires 0 < n <= |a.frozen| && a.frozen[..n][..n - 1] == a.frozen[..n - 1]
    ensures ReclaimLoops(a, true, a.frozen[..n]) ==
            ReclaimOne(a, true, ReclaimLoops(a, true, a.frozen[..n - 1]), a.frozen[n - 1])
  {
  }

  lemma LoopsFail(a: Answer)
    ensures var l := ReclaimLoops(a, true, a.frozen);
            l.hashes == Reclaims(a, |a.frozen|) && (l.failed != {} <==> ReclaimFails(a))
  {
    hide ReclaimLoops;
    LoopsReclaim(a, |a.frozen|);
    assert a.frozen[..|a.frozen|] == a.frozen;
    var l := ReclaimLoops(a, true, a.frozen);
    if l.failed != {} {
      var r :| r in l.failed;
    } else {
      assert Energy !in l.failed && Bandwidth !in l.failed;
      forall k | 0 <= k < |a.frozen| && Ours(a, a.frozen[k]) ensures a.frozen[k].hash.Some? {
        assert a.frozen[k].resource !in l.failed;
      }
    }
  }

  lemma ConfirmedIs(a: Answer, hash: nat, needed: nat)
    ensures Confirmed(a, hash, needed) ==
            if InChain(a, hash, needed) then Done else if Reverted(a, hash) then Err(FailedTransfer) else Err(Plain)
  {
  }

  lemma {:induction false} LooksHonestly(w: World, a: Answer, txs: seq<Tx>)
    ensures Honest(w, a, AllLookedUp(w, a, txs)) &&
            AllLookedUp(w, a, txs) == w.(sights := AllLookedUp(w, a, txs).sights)
  {
    if txs != [] {
      LooksHonestly(w, a, txs[..|txs| - 1]);
    }
  }

  /** Parallel checks take the turn of a step that waits for all. */
  lemma ChecksAll(w: World, a: Answer, txs: seq<Tx>, to: Pos)
    ensures var r, t := CheckAll(w, a, txs), WaitAllTurn(a, txs, to);
            && r == Reply(AllLookedUp(w, a, txs), r.outcome, None, None, false, false)
            && r.outcome == if t.GoesOn? then Done else if t.TriesAgain? then Err(Plain) else Err(FailedTransfer)
  {
    hide AllLookedUp, Confirmed;
    forall k | 0 <= k < |txs|
      ensures Confirmed(a, txs[k].hash, SYSTEM_CONFIRMATIONS) ==
              if InChain(a, txs[k].hash, 3) then Done else if Reverted(a, txs[k].hash) then Err(FailedTransfer)
                else Err(Plain)
    {
      ConfirmedIs(a, txs[k].hash, SYSTEM_CONFIRMATIONS);
    }
  }

  /** Transactions of a step are looked up, and nothing else. */
  lemma LooksOnly(w: World, p: Pos, a: Answer, v: World)
    requires Out(w, p, a) == [] && Honest(Taken(w), a, v) && v == Taken(w).(sights := v.sights, history := v.history)
    requires v.history == w.history + Stored(p, TurnOf(w, p, a))
    ensures Leaves(w, p, a, v)
  {
    hide TurnOf;
    assert Txs(KindAt(p), Committed(a, [])) == [] && Txs(KindAt(p), []) == [];
  }

  // --------------------------------------------------------------------- the replies themselves

  lemma ValidateReplies(w: World, a: Answer)
    requires a == w.tape(w.read)
    ensures Replies(w, Pos(0, 0), a, ValidateRequest(Taken(w), a))
  {
    hide Recorded;
    var p := Pos(0, 0);
    assert Txs(KindAt(p), Committed(a, [])) == [] && Txs(KindAt(p), []) == [];
  }

  /** A step that only decides leaves the world as it is. */
  lemma DecidesOnly(w: World, p: Pos, a: Answer)
    requires (p.stage == 0 && p.step in {1, 2, 4, 5, 7, 8, 10, 12, 13}) || (p.stage == 2 && p.step in {1, 2, 4})
    ensures Leaves(w, p, a, Taken(w))
  {
    hide TurnOf, Leaves;
    NothingLeft(w, p, a);
  }

  lemma CheckReplies(w: World, a: Answer)
    ensures Replies(w, Pos(0, 1), a, CheckActivateWallet(Taken(w), a))
  {
    hide Recorded, Leaves, Out, Stored;
    DecidesOnly(w, Pos(0, 1), a);
  }

  lemma BranchReplies(w: World, a: Answer)
    requires Checked(w)
    ensures Replies(w, Pos(0, 2), a, BeforeActivationCheckTransferKind(Taken(w)))
  {
    hide Recorded, Leaves, Out, Stored;
    DecidesOnly(w, Pos(0, 2), a);
  }

  lemma KindReplies(w: World, a: Answer)
    requires Checked(w)
    ensures Replies(w, Pos(0, 8), a, BeforeSendingCheckTransferKind(Taken(w)))
  {
    hide Recorded, Leaves, Out, Stored;
    DecidesOnly(w, Pos(0, 8), a);
  }

  lemma AfterReplies(w: World, a: Answer)
    requires Checked(w)
    ensures Replies(w, Pos(2, 2), a, AfterSendingCheckTransferKind(Taken(w)))
  {
    hide Recorded, Leaves, Out, Stored;
    DecidesOnly(w, Pos(2, 2), a);
  }

  /** One transaction is broadcast, or nothing. */
  lemma SendIs(w: World, a: Answer, c: Context, kind: TxType)
    requires TxTypeOf(c.currentStep) == Some(kind) && a.prepared && a.affordable
    ensures Send(w, a, c, kind) ==
            if !CanSend(a) then Refuse(w)
            else
              var v := Broadcasted(w, a, kind, kind, [a.hash.value]);
              if a.death.DiesSent? then Die(v) else Succeed(v)
  {
    hide Broadcasted;
  }

  lemma OutLeaves(w: World, p: Pos, a: Answer, v: World, out: seq<nat>)
    requires a == w.tape(w.read) && out == Out(w, p, a) && Stored(p, TurnOf(w, p, a)) == []
    requires v == Broadcasted(Taken(w), a, KindAt(p), KindAt(p), out).(txHash := v.txHash,
             delegatedFrom := v.delegatedFrom)
    requires v.delegatedFrom == (w.delegatedFrom || (p == Pos(0, 11) && out != [] && !(a.death.DiesSent? && out != [])))
    requires v.txHash == (if p == Pos(1, 0) && out != [] && !(a.death.DiesSent? && out != []) then a.hash else w.txHash)
    ensures Leaves(w, p, a, v)
  {
    hide TurnOf, Out, Txs, Committed;
  }

  lemma ActivationReplies(w: World, a: Answer, c: Context)
    requires a == w.tape(w.read) && TxTypeOf(c.currentStep) == Some(AccountActivation)
    ensures Replies(w, Pos(0, 3), a, ActivateWalletResources(Taken(w), a, c))
    ensures Replies(w, Pos(0, 6), a, ActivateWalletBurnTRX(Taken(w), a, c))
  {
    hide Recorded, Leaves, Send, TxTypeOf, Broadcasted;
    if CanSend(a) {
      var v := Broadcasted(Taken(w), a, AccountActivation, AccountActivation, [a.hash.value]);
      BroadcastStores(Taken(w), a, AccountActivation, [a.hash.value]);
      OutLeaves(w, Pos(0, 3), a, v, [a.hash.value]);
      if !a.feeIsZero {
        OutLeaves(w, Pos(0, 6), a, v, [a.hash.value]);
      } else {
        NothingLeft(w, Pos(0, 6), a);
      }
    } else {
      NothingLeft(w, Pos(0, 3), a);
      NothingLeft(w, Pos(0, 6), a);
    }
    if a.prepared && a.affordable {
      SendIs(Taken(w), a, c, AccountActivation);
    }
  }

  /** A broadcast stores neither its hash nor an address. */
  lemma BroadcastStores(w: World, a: Answer, kind: TxType, hashes: seq<nat>)
    ensures var v := Broadcasted(w, a, kind, kind, hashes); v.txHash == w.txHash && v.delegatedFrom == w.delegatedFrom
  {
  }

  lemma BurnReplies(w: World, a: Answer, c: Context)
    requires a == w.tape(w.read) && TxTypeOf(c.currentStep) == Some(SendBurnBaseAsset)
    ensures Replies(w, Pos(0, 9), a, SendTRXForBurn(Taken(w), a, c))
  {
    hide Recorded, Leaves, Send, TxTypeOf, Broadcasted;
    if CanSend(a) && w.request.fromWallet == HotWallet && !w.request.nativeAsset {
      var v := Broadcasted(Taken(w), a, SendBurnBaseAsset, SendBurnBaseAsset, [a.hash.value]);
      BroadcastStores(Taken(w), a, SendBurnBaseAsset, [a.hash.value]);
      OutLeaves(w, Pos(0, 9), a, v, [a.hash.value]);
    } else {
      NothingLeft(w, Pos(0, 9), a);
    }
    if a.prepared && a.affordable {
      SendIs(Taken(w), a, c, SendBurnBaseAsset);
    }
  }

  lemma SendingReplies(w: World, a: Answer, c: Context)
    requires a == w.tape(w.read) && TxTypeOf(c.currentStep) == Some(Transfer)
    ensures Replies(w, Pos(1, 0), a, Sending(Taken(w), a, c))
  {
    hide Recorded, Leaves, Send, TxTypeOf, Broadcasted;
    if CanSend(a) {
      var v := Broadcasted(Taken(w), a, Transfer, Transfer, [a.hash.value]);
      BroadcastStores(Taken(w), a, Transfer, [a.hash.value]);
      if a.death.DiesSent? {
        OutLeaves(w, Pos(1, 0), a, v, [a.hash.value]);
      } else {
        OutLeaves(w, Pos(1, 0), a, v.(txHash := a.hash), [a.hash.value]);
      }
    } else {
      NothingLeft(w, Pos(1, 0), a);
    }
    if a.prepared && a.affordable {
      SendIs(Taken(w), a, c, Transfer);
    }
  }

  lemma DelegateReplies(w: World, a: Answer, c: Context)
    requires a == w.tape(w.read) && TxTypeOf(c.currentStep) == Some(DelegateResources)
    ensures Replies(w, Pos(0, 11), a, Delegate(Taken(w), a, c))
  {
    hide Recorded, Leaves, TxTypeOf, Broadcasted;
    if a.prepared && a.affordable && w.request.fromWallet != ProcessingWallet {
      var hashes := PartHashes(a);
      var v := Broadcasted(Taken(w), a, DelegateResources, DelegateResources, hashes);
      BroadcastStores(Taken(w), a, DelegateResources, hashes);
      if Interrupted(a, hashes) {
        OutLeaves(w, Pos(0, 11), a, v, hashes);
      } else {
        OutLeaves(w, Pos(0, 11), a, v.(delegatedFrom := w.delegatedFrom || hashes != []), hashes);
      }
    } else {
      NothingLeft(w, Pos(0, 11), a);
    }
  }

  lemma ReclaimReplies(w: World, a: Answer, c: Context)
    requires a == w.tape(w.read) && TxTypeOf(c.currentStep) == Some(ReclaimResources)
    ensures Replies(w, Pos(2, 3), a, Reclaim(Taken(w), a, c))
  {
    hide Recorded, Leaves, TxTypeOf, Broadcasted, ReclaimLoops, Reclaims, ReclaimFails;
    LoopsFail(a);
    if a.prepared && w.request.fromWallet == HotWallet && w.delegatedFrom {
      var hashes := Reclaims(a, |a.frozen|);
      var v := Broadcasted(Taken(w), a, ReclaimResources, ReclaimResources, hashes);
      BroadcastStores(Taken(w), a, ReclaimResources, hashes);
      OutLeaves(w, Pos(2, 3), a, v, hashes);
    } else {
      NothingLeft(w, Pos(2, 3), a);
    }
  }

  /** The wait for the only transaction of a type, wherever it leads. */
  lemma WaitReplies(w: World, a: Answer, p: Pos, txs: seq<Tx>, needed: nat)
    requires a == w.tape(w.read) && |txs| == 1 && Out(w, p, a) == [] && Stored(p, TurnOf(w, p, a)) == []
    ensures var r := CheckConfirmations(Taken(w), a, txs[0], needed);
            && Leaves(w, p, a, r.world) && r.nextStage.None? && r.nextStep.None?
            && r.outcome == if InChain(a, txs[0].hash, needed) then Done
               else if Reverted(a, txs[0].hash) then Err(FailedTransfer) else Err(Plain)
  {
    hide Leaves, TurnOf, Out, Confirmed, Stored;
    ConfirmedIs(a, txs[0].hash, needed);
    LooksOnly(w, p, a, LookedUp(Taken(w), a, txs[0].hash));
  }

  lemma WaitingActivationReplies(w: World, a: Answer)
    requires a == w.tape(w.read)
    ensures Replies(w, Pos(0, 4), a, WaitingResourcesActivateWallet(Taken(w), a))
    ensures Replies(w, Pos(0, 7), a, WaitingActivateWallet(Taken(w), a))
  {
    hide Recorded, Leaves, CheckConfirmations, InChain, Reverted;
    var txs := Recorded(w.rows, AccountActivation);
    if |txs| == 1 {
      WaitReplies(w, a, Pos(0, 4), txs, SYSTEM_CONFIRMATIONS);
      WaitReplies(w, a, Pos(0, 7), txs, SYSTEM_CONFIRMATIONS);
    } else {
      NothingLeft(w, Pos(0, 4), a);
      NothingLeft(w, Pos(0, 7), a);
    }
  }

  lemma WaitingBurnReplies(w: World, a: Answer)
    requires a == w.tape(w.read)
    ensures Replies(w, Pos(0, 10), a, WaitingSendTRXForBurn(Taken(w), a))
  {
    hide Recorded, Leaves, CheckConfirmations, InChain, Reverted;
    var txs := Recorded(w.rows, SendBurnBaseAsset);
    if |txs| == 1 {
      WaitReplies(w, a, Pos(0, 10), txs, SYSTEM_CONFIRMATIONS);
    } else {
      NothingLeft(w, Pos(0, 10), a);
    }
  }

  lemma OrderReplies(w: World, a: Answer)
    ensures Replies(w, Pos(0, 5), a, WaitingExternalActivateWallet(Taken(w), a))
  {
    hide Recorded, Leaves, Out, Stored;
    DecidesOnly(w, Pos(0, 5), a);
  }

  lemma OrdersReply(w: World, a: Answer)
    ensures Replies(w, Pos(0, 13), a, WaitingExternalDelegate(Taken(w), a))
  {
    hide Recorded, Leaves, Out, Stored;
    DecidesOnly(w, Pos(0, 13), a);
  }

  /** The wait for all transactions of a type, wherever it leads. */
  lemma WaitAllReplies(w: World, a: Answer, p: Pos, txs: seq<Tx>, to: Pos)
    requires a == w.tape(w.read) && Out(w, p, a) == [] && Stored(p, TurnOf(w, p, a)) == []
    ensures var r, t := CheckAll(Taken(w), a, txs), WaitAllTurn(a, txs, to);
            && Leaves(w, p, a, r.world) && r == Reply(r.world, r.outcome, None, None, false, false)
            && r.outcome == if t.GoesOn? then Done else if t.TriesAgain? then Err(Plain) else Err(FailedTransfer)
  {
    hide Leaves, TurnOf, Out, CheckAll, Stored, WaitAllTurn;
    ChecksAll(Taken(w), a, txs, to);
    LooksHonestly(Taken(w), a, txs);
    LooksOnly(w, p, a, AllLookedUp(Taken(w), a, txs));
  }

  lemma WaitingAllReplies(w: World, a: Answer)
    requires a == w.tape(w.read)
    ensures Replies(w, Pos(0, 12), a, WaitingDelegate(Taken(w), a))
    ensures Replies(w, Pos(2, 4), a, WaitingReclaim(Taken(w), a))
  {
    hide Recorded, Leaves, CheckAll;
    WaitAllReplies(w, a, Pos(0, 12), Recorded(w.rows, DelegateResources), Pos(1, 0));
    WaitAllReplies(w, a, Pos(2, 4), Recorded(w.rows, ReclaimResources), Pos(2, 5));
  }

  lemma FirstReplies(w: World, a: Answer)
    requires a == w.tape(w.read)
    ensures Replies(w, Pos(2, 0), a, WaitingForTheFirstConfirmation(Taken(w), a))
  {
    hide Recorded, Leaves;
    var p, txs := Pos(2, 0), Recorded(w.rows, Transfer);
    if |txs| != 1 {
      NothingLeft(w, p, a);
    } else if TurnOf(w, p, a).GoesOn? {
      LooksOnly(w, p, a, StoreStatus(LookedUp(Taken(w), a, txs[0].hash), StatusUnconfirmed));
    } else {
      LooksOnly(w, p, a, LookedUp(Taken(w), a, txs[0].hash));
    }
  }

  lemma ConfirmationsReply(w: World, a: Answer)
    requires a == w.tape(w.read) && |Recorded(w.rows, Transfer)| == 1
    ensures Replies(w, Pos(2, 1), a, WaitingConfirmations(Taken(w), a))
  {
    hide Recorded, Leaves, CheckConfirmations, InChain, Reverted;
    WaitReplies(w, a, Pos(2, 1), Recorded(w.rows, Transfer), w.request.minConfirmations);
  }

  lemma SuccessReplies(w: World, a: Answer)
    requires a == w.tape(w.read)
    ensures Replies(w, Pos(2, 5), a, SendSuccessEvent(Taken(w)))
  {
    hide Recorded, Leaves;
    LooksOnly(w, Pos(2, 5), a, StoreStatus(Taken(w), StatusCompleted));
  }

  // ------------------------------------------------------------------------- the driver

  lemma ActivationCalls(w: World, p: Pos)
    requires InTable(STAGES, p) && At(w, p) && p.stage == 0 && p.step < 8 && !w.tape(w.read).death.DiesFirst?
    ensures Replies(w, p, w.tape(w.read), CallStep(w, ContextOf(STAGES, p)))
  {
    hide Replies, Recorded, ContextOf, Spent, AllSeen, DiedByAnswer, Reaches, HistoryAt, ValidateRequest,
      CheckActivateWallet, BeforeActivationCheckTransferKind, ActivateWalletResources, WaitingResourcesActivateWallet,
      WaitingExternalActivateWallet, ActivateWalletBurnTRX, WaitingActivateWallet;
    var a, c := w.tape(w.read), ContextOf(STAGES, p);
    Table();
    match p.step
    case 0 => ContextIs(p, StepValidateRequest); ValidateReplies(w, a);
    case 1 => ContextIs(p, StepCheckActivateWallet); CheckReplies(w, a);
    case 2 => ContextIs(p, StepBeforeActivationCheckTransferKind); BranchReplies(w, a);
    case 3 => ContextIs(p, StepActiveWalletResources); ActivationReplies(w, a, c);
    case 4 => ContextIs(p, StepWaitingResourcesActivateWalletConfirmations); WaitingActivationReplies(w, a);
    case 5 => ContextIs(p, StepWaitingExternalActivateWalletConfirmations); OrderReplies(w, a);
    case 6 => ContextIs(p, StepActivateWalletBurnTRX); ActivationReplies(w, a, c);
    case _ => ContextIs(p, StepWaitingActivateWalletConfirmations); WaitingActivationReplies(w, a);
  }

  lemma FundingCalls(w: World, p: Pos)
    requires InTable(STAGES, p) && At(w, p) && p.stage == 0 && p.step >= 8 && !w.tape(w.read).death.DiesFirst?
    ensures Replies(w, p, w.tape(w.read), CallStep(w, ContextOf(STAGES, p)))
  {
    hide Replies, Recorded, ContextOf, Spent, AllSeen, DiedByAnswer, Reaches, HistoryAt, BeforeSendingCheckTransferKind,
      SendTRXForBurn, WaitingSendTRXForBurn, Delegate, WaitingDelegate, WaitingExternalDelegate;
    var a, c := w.tape(w.read), ContextOf(STAGES, p);
    Table();
    match p.step
    case 8 => ContextIs(p, StepBeforeSendingCheckTransferKind); KindReplies(w, a);
    case 9 => ContextIs(p, StepSendTRXForBurn); BurnReplies(w, a, c);
    case 10 => ContextIs(p, StepWaitingSendTRXForBurnConfirmations); WaitingBurnReplies(w, a);
    case 11 => ContextIs(p, StepDelegateResources); DelegateReplies(w, a, c);
    case 12 => ContextIs(p, StepWaitingDelegateConfirmations); WaitingAllReplies(w, a);
    case _ => ContextIs(p, StepWaitingExternalDelegateConfirmations); OrdersReply(w, a);
  }

  lemma SendingCalls(w: World, p: Pos)
    requires InTable(STAGES, p) && p.stage == 1 && !w.tape(w.read).death.DiesFirst?
    ensures Replies(w, p, w.tape(w.read), CallStep(w, ContextOf(STAGES, p)))
  {
    hide Replies, Recorded, ContextOf, Sending;
    Table();
    ContextIs(p, StepSending);
    SendingReplies(w, w.tape(w.read), ContextOf(STAGES, p));
  }

  lemma LaterCalls(w: World, p: Pos)
    requires InTable(STAGES, p) && At(w, p) && p.stage == 2 && !w.tape(w.read).death.DiesFirst?
    ensures Replies(w, p, w.tape(w.read), CallStep(w, ContextOf(STAGES, p)))
  {
    hide Replies, Recorded, ContextOf, AllSeen, DiedByAnswer, Reaches, HistoryAt, RowsSent, ActivationSpent, BurnSpent,
      DelegationSpent, ReclaimSpent, WaitingForTheFirstConfirmation, WaitingConfirmations, Reclaim, WaitingReclaim,
      SendSuccessEvent, AfterSendingCheckTransferKind;
    var a, c := w.tape(w.read), ContextOf(STAGES, p);
    Table();
    match p.step
    case 0 => ContextIs(p, StepWaitingForTheFirstConfirmation); FirstReplies(w, a);
    case 1 => ContextIs(p, StepWaitingConfirmations); ConfirmationsReply(w, a);
    case 2 => ContextIs(p, StepAfterSendingCheckTransferKind); AfterReplies(w, a);
    case 3 => ContextIs(p, StepReclaimResources); ReclaimReplies(w, a, c);
    case 4 => ContextIs(p, StepWaitingReclaimResourcesConfirmations); WaitingAllReplies(w, a);
    case _ => ContextIs(p, StepSendSuccessEvent); SuccessReplies(w, a);
  }

  /** Every call replies as its turn says. */
  lemma CallReplies(w: World, p: Pos)
    requires InTable(STAGES, p) && At(w, p) && p.stage < 3 && !w.tape(w.read).death.DiesFirst?
    ensures Replies(w, p, w.tape(w.read), CallStep(w, ContextOf(STAGES, p)))
  {
    hide Replies, CallStep, ContextOf, At;
    if p.stage == 1 {
      SendingCalls(w, p);
    } else if p.stage == 2 {
      LaterCalls(w, p);
    } else if p.step < 8 {
      ActivationCalls(w, p);
    } else {
      FundingCalls(w, p);
    }
  }

  lemma DyingReplies(w: World, p: Pos)
    requires InTable(STAGES, p) && w.tape(w.read).death.DiesFirst?
    ensures CallStep(w, ContextOf(STAGES, p)) == Die(Taken(w))
  {
    hide ContextOf;
  }

  lemma CallIsReply(a: Driver<World>)
    requires InTable(STAGES, a.pos)
    ensures ReplyAt(MACHINE, a) == CallStep(a.world, ContextOf(STAGES, a.pos))
  {
  }

  /** Every step of the driver takes the turn its answer says. */
  lemma TronTurns(a: Driver<World>)
    requires Inv(a) && a.phase == Live
    ensures TakesTurn(a, DriveStep(MACHINE, a))
  {
    hide CallStep, ReplyAt, DriveStep, At, TurnOf, Leaves, ContextOf, Advances;
    var w, p := a.world, a.pos;
    CallAdvances(w, p);
    var r :| r == CallStep(w, ContextOf(STAGES, p)) && Advances(Taken(w), p, r);
    CallIsReply(a);
    GoesOnly(a, r);
    if w.tape(w.read).death.DiesFirst? {
      DyingReplies(w, p);
    } else {
      CallReplies(w, p);
    }
  }

  /** Where the driver goes with a reply that advances the world that took the answer. */
  lemma GoesOnly(a: Driver<World>, r: Reply<World>)
    requires a.phase == Live && InTable(STAGES, a.pos) && a.pos.stage < 3
    requires r == ReplyAt(MACHINE, a) && Advances(Taken(a.world), a.pos, r)
    ensures var b := DriveStep(MACHINE, a);
            && b.world == r.world
            && match r.outcome
               case Done => b.phase == Live && b.pos == Goal(a.pos, r)
               case Err(e) =>
                 b.pos == a.pos &&
                 if e == ExitWorkflow || (e == Plain && !Fatal(a.pos)) then b.phase == Live
                 else b.phase == Redirected(StageCompensateOnFail, StepDetermineCompensationFlow, KeptError(e))
               case Died => b.phase == Live && b.pos == a.pos
  {
    hide CallStep, ReplyAt, At, DriveStep;
    assert Advances(a.world, a.pos, r);
    Goes(a, r);
  }
}
