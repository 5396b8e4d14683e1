/** What each step of a Tron transfer replies, until a failure redirects the transfer: the promises of
    FsmTronRouting.dfy hold where the reply leads. */
module FsmTronCalls {
  import opened Wrappers
  import opened Names
  import opened Engine
  import opened Resumption
  import opened Transfers
  import opened FsmTron
  import opened FsmTronRouting

  // ------------------------------------------------------------------ choosing a branch

  /** A success that sends nothing and stores no status. */
  lemma MovesTo(w: World, v: World, p: Pos, q: Pos)
    requires At(w, p) && p != Pos(0, 0) && Unmoved(w, v) && Ready(v, p, q)
    requires Reaches(v.request, q) && HistoryAt(v.history, q) && q != Pos(0, 0) && Spent(w, q)
    ensures At(v, q) && SameSetup(w, v)
  {
    hide Recorded;
    CheckedStays(w, v);
    SpentStays(w, v, q);
    Moves(w, v, p, q);
  }

  lemma DoValidate(w: World, a: Answer, p: Pos)
    requires At(w, p) && p == Pos(0, 0) && w.read > 0 && a == w.tape(w.read - 1)
    ensures AdvancesBy(w, p, ValidateRequest(w, a))
  {
    hide Recorded, AdvancesBy, AllSeen, Checked, DiedByAnswer, ReclaimedOnce, TransferRecorded;
    if ValidateRequest(w, a).outcome.Done? {
      var v := StoreStatus(w, StatusProcessing);
      SpentStays(w, v, Pos(0, 1));
      Moves(w, v, p, Pos(0, 1));
      SucceedsIn(w, p, v);
    } else {
      FailsAt(w, p, w);
    }
  }

  lemma JumpsTo(w: World, p: Pos, name: StepName)
    requires At(w, p) && p.stage != 1 && p != Pos(0, 0) && p != Pos(2, 5)
    requires var q := Home(name); q.stage == p.stage && Before(p, q) && Reaches(w.request, q) && HistoryAt(w.history, q)
    requires Spent(w, Home(name)) && Ready(w, p, Home(name))
    ensures AdvancesBy(w, p, GoTo(w, name))
  {
    hide Recorded, AdvancesBy, Spent;
    MovesTo(w, w, p, Home(name));
    GoesTo(w, p, w, name);
  }

  lemma DoCheckActivateWallet(w: World, a: Answer, p: Pos)
    requires At(w, p) && p == Pos(0, 1)
    ensures AdvancesBy(w, p, CheckActivateWallet(w, a))
  {
    hide Recorded, AdvancesBy, AllSeen, Checked, DiedByAnswer, ReclaimedOnce, TransferRecorded;
    var r := CheckActivateWallet(w, a);
    if r == GoTo(w, StepBeforeSendingCheckTransferKind) {
      JumpsTo(w, p, StepBeforeSendingCheckTransferKind);
    } else if r == GoTo(w, StepBeforeActivationCheckTransferKind) {
      JumpsTo(w, p, StepBeforeActivationCheckTransferKind);
    } else {
      FailsAt(w, p, w);
    }
  }

  lemma DoBeforeActivation(w: World, p: Pos)
    requires At(w, p) && p == Pos(0, 2)
    ensures AdvancesBy(w, p, BeforeActivationCheckTransferKind(w))
  {
    hide Recorded, AdvancesBy, AllSeen, Checked, DiedByAnswer, ReclaimedOnce, TransferRecorded;
    var r := BeforeActivationCheckTransferKind(w);
    if r == GoTo(w, StepWaitingExternalActivateWalletConfirmations) {
      JumpsTo(w, p, StepWaitingExternalActivateWalletConfirmations);
    } else if r == GoTo(w, StepActivateWalletBurnTRX) {
      JumpsTo(w, p, StepActivateWalletBurnTRX);
    } else if r == GoTo(w, StepActiveWalletResources) {
      JumpsTo(w, p, StepActiveWalletResources);
    } else {
      FailsAt(w, p, w);
    }
  }

  lemma DoBeforeSending(w: World, p: Pos)
    requires At(w, p) && p == Pos(0, 8)
    ensures AdvancesBy(w, p, BeforeSendingCheckTransferKind(w))
  {
    hide Recorded, AdvancesBy, AllSeen, Checked, DiedByAnswer, ReclaimedOnce, TransferRecorded;
    match w.request.kind
    case None => FailsAt(w, p, w);
    case Some(BurnTRX) => JumpsTo(w, p, StepSendTRXForBurn);
    case Some(Resources) => JumpsTo(w, p, StepDelegateResources);
    case Some(CloudDelegate) => JumpsTo(w, p, StepWaitingExternalDelegateConfirmations);
  }

  lemma DoAfterSending(w: World, p: Pos)
    requires At(w, p) && p == Pos(2, 2)
    ensures AdvancesBy(w, p, AfterSendingCheckTransferKind(w))
  {
    hide Recorded, AdvancesBy, AllSeen, Checked, DiedByAnswer, TransferRecorded;
    var r := AfterSendingCheckTransferKind(w);
    if r == GoTo(w, StepSendSuccessEvent) {
      JumpsTo(w, p, StepSendSuccessEvent);
    } else if r == GoTo(w, StepReclaimResources) {
      JumpsTo(w, p, StepReclaimResources);
    } else {
      FailsAt(w, p, w);
    }
  }

  // ---------------------------------------------------------------------- broadcasting

  /** Some transactions of one type were broadcast, and all or, in a death, not all of them recorded;
      nothing else is said of the transfer. */
  ghost predicate Grown(w: World, v: World, kind: TxType, n: nat, died: bool) {
    && v.tape == w.tape && v.read == w.read && v.request == w.request && v.history == w.history && v.sights == w.sights
    && w.rows <= v.rows && (forall k :: |w.rows| <= k < |v.rows| ==> v.rows[k].kind == kind)
    && (forall other: TxType :: other != kind ==> Recorded(v.rows, other) == Recorded(w.rows, other))
    && (forall other: TxType :: other != kind ==> Recorded(v.sends, other) == Recorded(w.sends, other))
    && Sent(v, kind) == Sent(w, kind) + n
    && v.deaths == (if died then w.deaths + multiset{kind} else w.deaths)
    && RowsSent(v)
  }

  lemma {:induction false} RecordedAll(rows: seq<Tx>, kind: TxType, hashes: seq<nat>, other: TxType)
    ensures Recorded(rows + Txs(kind, hashes), other) ==
            Recorded(rows, other) + if other == kind then Txs(kind, hashes) else []
  {
    if hashes == [] {
      assert rows + Txs(kind, hashes) == rows;
    } else {
      var n := |hashes| - 1;
      var tx := Tx(kind, hashes[n]);
      assert Txs(kind, hashes) == Txs(kind, hashes[..n]) + [tx];
      assert rows + Txs(kind, hashes) == (rows + Txs(kind, hashes[..n])) + [tx];
      RecordedAll(rows, kind, hashes[..n], other);
      RecordedGrows(rows + Txs(kind, hashes[..n]), tx, other);
    }
  }

  lemma {:induction false} WithoutIsWithin(hashes: seq<nat>, lost: set<nat>, kind: TxType)
    ensures |Without(hashes, lost)| <= |hashes|
    ensures multiset(Txs(kind, Without(hashes, lost))) <= multiset(Txs(kind, hashes))
  {
    if hashes != [] {
      var n := |hashes| - 1;
      WithoutIsWithin(hashes[..n], lost, kind);
      assert hashes == hashes[..n] + [hashes[n]];
      TxsGrow(kind, hashes[..n], hashes[n]);
      if hashes[n] in lost {
        assert Without(hashes, lost) == Without(hashes[..n], lost);
      } else {
        TxsGrow(kind, Without(hashes[..n], lost), hashes[n]);
      }
    }
  }

  lemma CommittedIsWithin(a: Answer, hashes: seq<nat>, kind: TxType)
    ensures |Committed(a, hashes)| <= |hashes| &&
            multiset(Txs(kind, Committed(a, hashes))) <= multiset(Txs(kind, hashes))
  {
    if a.death.DiesSent? {
      WithoutIsWithin(hashes, a.death.lost, kind);
    }
  }

  lemma BroadcastRecords(w: World, a: Answer, kind: TxType, hashes: seq<nat>)
    ensures var v := Broadcasted(w, a, kind, kind, hashes);
            && Recorded(v.rows, kind) == Recorded(w.rows, kind) + Txs(kind, Committed(a, hashes))
            && Recorded(v.sends, kind) == Recorded(w.sends, kind) + Txs(kind, hashes)
            && (forall other: TxType :: other != kind ==> Recorded(v.rows, other) == Recorded(w.rows, other))
            && (forall other: TxType :: other != kind ==> Recorded(v.sends, other) == Recorded(w.sends, other))
  {
    hide Recorded;
    var v := Broadcasted(w, a, kind, kind, hashes);
    RecordedAll(w.rows, kind, Committed(a, hashes), kind);
    RecordedAll(w.sends, kind, hashes, kind);
    forall other: TxType | other != kind
      ensures Recorded(v.rows, other) == Recorded(w.rows, other) && Recorded(v.sends, other) == Recorded(w.sends, other)
    {
      RecordedAll(w.rows, kind, Committed(a, hashes), other);
      RecordedAll(w.sends, kind, hashes, other);
    }
  }

  lemma BroadcastIsSent(w: World, a: Answer, kind: TxType, hashes: seq<nat>)
    requires RowsSent(w)
    ensures RowsSent(Broadcasted(w, a, kind, kind, hashes))
  {
    hide Recorded;
    var v := Broadcasted(w, a, kind, kind, hashes);
    BroadcastRecords(w, a, kind, hashes);
    CommittedIsWithin(a, hashes, kind);
    forall other: TxType ensures Count(v, other) <= Sent(v, other) {
      assert Count(w, other) <= Sent(w, other);
    }
    if v.deaths == multiset{} && a.death.DiesSent? {
      assert hashes == [];
      assert Txs(kind, Committed(a, hashes)) == Txs(kind, hashes) == [];
    }
  }

  /** A broadcast is recorded, unless the process dies. */
  lemma BroadcastGrows(w: World, a: Answer, kind: TxType, hashes: seq<nat>)
    requires RowsSent(w)
    ensures Grown(w, Broadcasted(w, a, kind, kind, hashes), kind, |hashes|, Interrupted(a, hashes))
  {
    hide Recorded;
    BroadcastRecords(w, a, kind, hashes);
    BroadcastIsSent(w, a, kind, hashes);
  }

  lemma BroadcastAt(w: World, p: Pos, a: Answer, kind: TxType, hashes: seq<nat>)
    requires At(w, p)
    ensures Grown(w, Broadcasted(w, a, kind, kind, hashes), kind, |hashes|, Interrupted(a, hashes))
  {
    hide Recorded, RowsSent, Broadcasted;
    BroadcastGrows(w, a, kind, hashes);
  }

  /** What else is stored with the transfer does not matter. */
  lemma GrownStill(w: World, u: World, v: World, kind: TxType, n: nat, died: bool)
    requires Grown(w, u, kind, n, died) && v == u.(txHash := v.txHash, delegatedFrom := v.delegatedFrom)
    ensures Grown(w, v, kind, n, died)
  {
    hide Recorded;
    forall other: TxType ensures Count(v, other) <= Sent(v, other) {
      assert Count(u, other) <= Sent(u, other);
    }
  }

  /** New rows of a type that needs no confirmation yet. */
  lemma AllSeenGrows(w: World, v: World, p: Pos, kind: TxType)
    requires AllSeen(w, p) && Needed(w.request, kind, p).None? && v.request == w.request && v.sights == w.sights
    requires w.rows <= v.rows && forall k :: |w.rows| <= k < |v.rows| ==> v.rows[k].kind == kind
    ensures AllSeen(v, p)
  {
    forall k | 0 <= k < |v.rows| ensures RowSeen(v, v.rows[k], p) {
      if k < |w.rows| {
        assert RowSeen(w, w.rows[k], p);
      }
    }
  }

  /** The last answer says that the process died right after broadcasting. */
  predicate LastDied(w: World) {
    w.read > 0 && w.tape(w.read - 1).death.DiesSent?
  }

  lemma DeathsGrow(w: World, v: World, kind: TxType, n: nat, died: bool)
    requires DiedByAnswer(w) && Grown(w, v, kind, n, died) && (died ==> LastDied(w))
    ensures DiedByAnswer(v)
  {
    hide Recorded;
    if died {
      assert v.tape(v.read - 1).death.DiesSent?;
    }
  }

  /** A world that has grown, at the step itself or at the next one. */
  lemma GrownIsAt(w: World, v: World, p: Pos, q: Pos, kind: TxType, n: nat, died: bool)
    requires At(w, p) && p != Pos(0, 0) && Grown(w, v, kind, n, died) && Needed(w.request, kind, p).None?
    requires forall other: TxType :: Needed(w.request, other, p) == Needed(w.request, other, q)
    requires Reaches(w.request, q) && HistoryAt(w.history, q) && q != Pos(0, 0) && Spent(v, q)
    requires died ==> LastDied(w)
    ensures At(v, q)
  {
    hide Recorded;
    DeathsGrow(w, v, kind, n, died);
    AllSeenGrows(w, v, p, kind);
    CheckedStays(w, v);
    forall k | 0 <= k < |v.rows| ensures RowSeen(v, v.rows[k], q) {
      assert RowSeen(v, v.rows[k], p);
    }
  }

  lemma ActivationSpends(w: World, v: World, p: Pos, died: bool)
    requires Spent(w, p) && (p == Pos(0, 3) || p == Pos(0, 6)) && Grown(w, v, AccountActivation, 1, died)
    requires v.txHash == w.txHash && v.delegatedFrom == w.delegatedFrom
    ensures Spent(v, if died then p else Next(p))
  {
    hide Recorded;
  }

  lemma ActivationSent(w: World, a: Answer, p: Pos, hash: nat)
    requires At(w, p) && (p == Pos(0, 3) || p == Pos(0, 6)) && w.read > 0 && a == w.tape(w.read - 1)
    ensures At(Broadcasted(w, a, AccountActivation, AccountActivation, [hash]),
               if a.death.DiesSent? then p else Next(p))
  {
    hide Recorded, Grown, Spent, Txs, Committed;
    BroadcastAt(w, p, a, AccountActivation, [hash]);
    var v := Broadcasted(w, a, AccountActivation, AccountActivation, [hash]);
    ActivationSpends(w, v, p, a.death.DiesSent?);
    GrownIsAt(w, v, p, if a.death.DiesSent? then p else Next(p), AccountActivation, 1, a.death.DiesSent?);
  }

  lemma ActivationSends(w: World, a: Answer, c: Context, p: Pos)
    requires At(w, p) && (p == Pos(0, 3) || p == Pos(0, 6)) && TxTypeOf(c.currentStep) == Some(AccountActivation) &&
             w.read > 0 && a == w.tape(w.read - 1)
    ensures AdvancesBy(w, p, Send(w, a, c, AccountActivation))
  {
    hide Recorded, AdvancesBy, At;
    if a.hash.None? || !a.accepted {
      FailsAt(w, p, w);
    } else {
      ActivationSent(w, a, p, a.hash.value);
      var v := Broadcasted(w, a, AccountActivation, AccountActivation, [a.hash.value]);
      if a.death.DiesSent? {
        DiesIn(w, p, v);
      } else {
        SucceedsIn(w, p, v);
      }
    }
  }

  lemma DoActivateWithResources(w: World, a: Answer, c: Context, p: Pos)
    requires At(w, p) && p == Pos(0, 3) && c.currentStep == Some(StepActiveWalletResources) && w.read > 0 &&
             a == w.tape(w.read - 1)
    ensures AdvancesBy(w, p, ActivateWalletResources(w, a, c))
  {
    hide Recorded, AdvancesBy, At;
    if !a.prepared || !a.affordable {
      FailsAt(w, p, w);
    } else {
      ActivationSends(w, a, c, p);
    }
  }

  lemma DoActivateByBurning(w: World, a: Answer, c: Context, p: Pos)
    requires At(w, p) && p == Pos(0, 6) && c.currentStep == Some(StepActivateWalletBurnTRX) && w.read > 0 &&
             a == w.tape(w.read - 1)
    ensures AdvancesBy(w, p, ActivateWalletBurnTRX(w, a, c))
  {
    hide Recorded, AdvancesBy, AllSeen, Checked, DiedByAnswer, ReclaimedOnce, TransferRecorded;
    if !a.prepared || (!a.feeIsZero && !a.affordable) {
      FailsAt(w, p, w);
    } else if a.feeIsZero {
      MovesTo(w, w, p, Pos(0, 7));
      SucceedsIn(w, p, w);
    } else {
      ActivationSends(w, a, c, p);
    }
  }

  lemma BurnSpends(w: World, v: World, died: bool)
    requires Spent(w, Pos(0, 9)) && Grown(w, v, SendBurnBaseAsset, 1, died)
    requires w.request.fromWallet == HotWallet && !w.request.nativeAsset
    requires v.txHash == w.txHash && v.delegatedFrom == w.delegatedFrom
    ensures Spent(v, if died then Pos(0, 9) else Pos(0, 10))
  {
    hide Recorded;
  }

  lemma BurnSent(w: World, a: Answer, hash: nat)
    requires At(w, Pos(0, 9)) && w.request.fromWallet == HotWallet && !w.request.nativeAsset && w.read > 0 &&
             a == w.tape(w.read - 1)
    ensures At(Broadcasted(w, a, SendBurnBaseAsset, SendBurnBaseAsset, [hash]),
               if a.death.DiesSent? then Pos(0, 9) else Pos(0, 10))
  {
    hide Recorded, Grown, Spent, Txs, Committed;
    BroadcastAt(w, Pos(0, 9), a, SendBurnBaseAsset, [hash]);
    var v := Broadcasted(w, a, SendBurnBaseAsset, SendBurnBaseAsset, [hash]);
    BurnSpends(w, v, a.death.DiesSent?);
    GrownIsAt(w, v, Pos(0, 9), if a.death.DiesSent? then Pos(0, 9) else Pos(0, 10),
              SendBurnBaseAsset, 1, a.death.DiesSent?);
  }

  lemma BurnSends(w: World, a: Answer, c: Context, p: Pos)
    requires At(w, p) && p == Pos(0, 9) && c.currentStep == Some(StepSendTRXForBurn) && w.read > 0 &&
             a == w.tape(w.read - 1)
    requires w.request.fromWallet == HotWallet && !w.request.nativeAsset
    ensures AdvancesBy(w, p, Send(w, a, c, SendBurnBaseAsset))
  {
    hide Recorded, AdvancesBy, At;
    if a.hash.None? || !a.accepted {
      FailsAt(w, p, w);
    } else {
      BurnSent(w, a, a.hash.value);
      var v := Broadcasted(w, a, SendBurnBaseAsset, SendBurnBaseAsset, [a.hash.value]);
      if a.death.DiesSent? {
        DiesIn(w, p, v);
      } else {
        SucceedsIn(w, p, v);
      }
    }
  }

  lemma LeavesForSending(w: World, p: Pos)
    requires At(w, p) && p.stage == 0 && p != Pos(0, 0) && Funds(w.request, p) && HistoryAt(w.history, Pos(1, 0))
    requires Spent(w, Pos(1, 0)) && Ready(w, p, Pos(1, 0))
    ensures AdvancesBy(w, p, GoSending(w))
  {
    hide Recorded, AdvancesBy, AllSeen, Checked, DiedByAnswer, ReclaimedOnce, TransferRecorded;
    MovesTo(w, w, p, Pos(1, 0));
    GoesSending(w, p, w);
  }

  lemma DoSendTRXForBurn(w: World, a: Answer, c: Context, p: Pos)
    requires At(w, p) && p == Pos(0, 9) && c.currentStep == Some(StepSendTRXForBurn) && w.read > 0 &&
             a == w.tape(w.read - 1)
    ensures AdvancesBy(w, p, SendTRXForBurn(w, a, c))
  {
    hide Recorded, AdvancesBy, AllSeen, Checked, DiedByAnswer, ReclaimedOnce, TransferRecorded;
    var r := SendTRXForBurn(w, a, c);
    if r == GoSending(w) {
      LeavesForSending(w, p);
    } else if w.request.fromWallet != HotWallet || !a.prepared || !a.affordable {
      FailsAt(w, p, w);
    } else {
      BurnSends(w, a, c, p);
    }
  }

  lemma TransferSpends(w: World, v: World, hash: nat, died: bool)
    requires Spent(w, Pos(1, 0)) && Grown(w, v, Transfer, 1, died) && v.delegatedFrom == w.delegatedFrom
    requires !died ==>
             Recorded(v.rows, Transfer) == Recorded(w.rows, Transfer) + [Tx(Transfer, hash)] && v.txHash == Some(hash)
    ensures Spent(v, if died then Pos(1, 0) else Pos(2, 0))
  {
    hide Recorded;
  }

  lemma TransferSent(w: World, a: Answer, hash: nat)
    requires At(w, Pos(1, 0)) && w.read > 0 && a == w.tape(w.read - 1)
    ensures var v := Broadcasted(w, a, Transfer, Transfer, [hash]);
            if a.death.DiesSent? then At(v, Pos(1, 0)) else At(v.(txHash := Some(hash)), Pos(2, 0))
  {
    hide Recorded, Grown, Spent;
    var v := Broadcasted(w, a, Transfer, Transfer, [hash]);
    BroadcastAt(w, Pos(1, 0), a, Transfer, [hash]);
    if a.death.DiesSent? {
      TransferSpends(w, v, hash, true);
      GrownIsAt(w, v, Pos(1, 0), Pos(1, 0), Transfer, 1, true);
    } else {
      TransferLeaves(w, v, a, hash);
    }
  }

  lemma TransferLeaves(w: World, v: World, a: Answer, hash: nat)
    requires At(w, Pos(1, 0)) && v == Broadcasted(w, a, Transfer, Transfer, [hash]) && !a.death.DiesSent?
    requires Grown(w, v, Transfer, 1, false)
    ensures At(v.(txHash := Some(hash)), Pos(2, 0))
  {
    hide Recorded, Spent, Grown;
    var u := v.(txHash := Some(hash));
    BroadcastRecords(w, a, Transfer, [hash]);
    assert Txs(Transfer, [hash]) == [Tx(Transfer, hash)];
    GrownStill(w, v, u, Transfer, 1, false);
    TransferSpends(w, u, hash, false);
    GrownIsAt(w, u, Pos(1, 0), Pos(2, 0), Transfer, 1, false);
  }

  lemma DoSending(w: World, a: Answer, c: Context, p: Pos)
    requires At(w, p) && p == Pos(1, 0) && c.currentStep == Some(StepSending) && w.read > 0 && a == w.tape(w.read - 1)
    ensures AdvancesBy(w, p, Sending(w, a, c))
  {
    hide Recorded, AdvancesBy, At;
    if !a.prepared || !a.affordable || a.hash.None? || !a.accepted {
      FailsAt(w, p, w);
    } else {
      TransferSent(w, a, a.hash.value);
      var v := Broadcasted(w, a, Transfer, Transfer, [a.hash.value]);
      if a.death.DiesSent? {
        DiesIn(w, p, v);
      } else {
        SucceedsIn(w, p, v.(txHash := a.hash));
      }
    }
  }

  // --------------------------------------------------------------- waiting for confirmations

  /** A check that succeeds saw the transaction with enough confirmations. */
  lemma ConfirmedIsSeen(w: World, a: Answer, hash: nat, needed: nat)
    ensures Unmoved(w, LookedUp(w, a, hash))
    ensures Confirmed(a, hash, needed).Done? ==> SeenWith(LookedUp(w, a, hash).sights, hash, needed)
  {
    var v := LookedUp(w, a, hash);
    if Confirmed(a, hash, needed).Done? {
      assert v.sights[|w.sights|].hash == hash;
    }
  }

  /** A check that does not succeed leaves the transfer where it is. */
  lemma CheckFails(w: World, a: Answer, p: Pos, tx: Tx, needed: nat)
    requires At(w, p) && p.stage < 3 && !Confirmed(a, tx.hash, needed).Done?
    ensures AdvancesBy(w, p, CheckConfirmations(w, a, tx, needed))
  {
    hide Recorded, AdvancesBy, AllSeen, Checked, DiedByAnswer, ReclaimedOnce, TransferRecorded;
    var v := LookedUp(w, a, tx.hash);
    ConfirmedIsSeen(w, a, tx.hash, needed);
    FailsAt(w, p, v);
    var r := CheckConfirmations(w, a, tx, needed);
    assert r == Refuse(v) || r == GiveUp(v);
  }

  lemma DoWaitingResourcesActivation(w: World, a: Answer, p: Pos)
    requires At(w, p) && p == Pos(0, 4)
    ensures AdvancesBy(w, p, WaitingResourcesActivateWallet(w, a))
  {
    hide Recorded, AdvancesBy, AllSeen, Checked, DiedByAnswer, ReclaimedOnce, TransferRecorded;
    var txs := Recorded(w.rows, AccountActivation);
    if |txs| != 1 {
      FailsAt(w, p, w);
    } else if Confirmed(a, txs[0].hash, SYSTEM_CONFIRMATIONS).Done? {
      var v := LookedUp(w, a, txs[0].hash);
      ConfirmedIsSeen(w, a, txs[0].hash, SYSTEM_CONFIRMATIONS);
      MovesTo(w, v, p, Pos(0, 8));
      GoesTo(w, p, v, StepBeforeSendingCheckTransferKind);
    } else {
      CheckFails(w, a, p, txs[0], SYSTEM_CONFIRMATIONS);
    }
  }

  lemma DoWaitingActivation(w: World, a: Answer, p: Pos)
    requires At(w, p) && p == Pos(0, 7)
    ensures AdvancesBy(w, p, WaitingActivateWallet(w, a))
  {
    hide Recorded, AdvancesBy, AllSeen, Checked, DiedByAnswer, ReclaimedOnce, TransferRecorded;
    var txs := Recorded(w.rows, AccountActivation);
    if |txs| != 1 {
      FailsAt(w, p, w);
    } else if Confirmed(a, txs[0].hash, SYSTEM_CONFIRMATIONS).Done? {
      var v := LookedUp(w, a, txs[0].hash);
      ConfirmedIsSeen(w, a, txs[0].hash, SYSTEM_CONFIRMATIONS);
      MovesTo(w, v, p, Pos(0, 8));
      SucceedsIn(w, p, v);
    } else {
      CheckFails(w, a, p, txs[0], SYSTEM_CONFIRMATIONS);
    }
  }

  lemma DoWaitingSendTRX(w: World, a: Answer, p: Pos)
    requires At(w, p) && p == Pos(0, 10)
    ensures AdvancesBy(w, p, WaitingSendTRXForBurn(w, a))
  {
    hide Recorded, AdvancesBy, AllSeen, Checked, DiedByAnswer, ReclaimedOnce, TransferRecorded;
    var txs := Recorded(w.rows, SendBurnBaseAsset);
    if |txs| != 1 {
      FailsAt(w, p, w);
    } else if Confirmed(a, txs[0].hash, SYSTEM_CONFIRMATIONS).Done? {
      var v := LookedUp(w, a, txs[0].hash);
      ConfirmedIsSeen(w, a, txs[0].hash, SYSTEM_CONFIRMATIONS);
      MovesTo(w, v, p, Pos(1, 0));
      GoesSending(w, p, v);
    } else {
      CheckFails(w, a, p, txs[0], SYSTEM_CONFIRMATIONS);
    }
  }

  /** Orders are looked at, and nothing else. */
  lemma OrderIsQuiet(w: World, o: Order)
    ensures var r := CheckOrder(w, o); r == Refuse(w) || r == GiveUp(w) || r == Succeed(w)
  {
  }

  lemma DoWaitingExternalActivation(w: World, a: Answer, p: Pos)
    requires At(w, p) && p == Pos(0, 5)
    ensures AdvancesBy(w, p, WaitingExternalActivateWallet(w, a))
  {
    hide Recorded, AdvancesBy, AllSeen, Checked, DiedByAnswer, ReclaimedOnce, TransferRecorded;
    OrderIsQuiet(w, a.activationOrder);
    if CheckOrder(w, a.activationOrder) == Succeed(w) {
      JumpsTo(w, p, StepBeforeSendingCheckTransferKind);
    } else {
      FailsAt(w, p, w);
    }
  }

  lemma DoWaitingExternalDelegate(w: World, a: Answer, p: Pos)
    requires At(w, p) && p == Pos(0, 13)
    ensures AdvancesBy(w, p, WaitingExternalDelegate(w, a))
  {
    hide Recorded, AdvancesBy, AllSeen, Checked, DiedByAnswer, ReclaimedOnce, TransferRecorded;
    OrderIsQuiet(w, a.energyOrder);
    OrderIsQuiet(w, a.bandwidthOrder);
    if WaitingExternalDelegate(w, a) == Succeed(w) {
      MovesTo(w, w, p, Pos(1, 0));
      SucceedsIn(w, p, w);
    } else {
      FailsAt(w, p, w);
    }
  }

  // ------------------------------------------------------------- delegating and reclaiming

  lemma PartsAreTwo(a: Answer)
    ensures |PartHashes(a)| <= 2
  {
  }

  lemma DelegationSpends(w: World, v: World, n: nat, died: bool)
    requires Reaches(w.request, Pos(0, 11)) && Spent(w, Pos(0, 11)) && w.request.fromWallet != ProcessingWallet &&
             n <= 2
    requires Grown(w, v, DelegateResources, n, died) && v.txHash == w.txHash
    ensures Spent(v, if died then Pos(0, 11) else Pos(0, 12))
  {
    hide Recorded;
  }

  lemma Delegated(w: World, a: Answer, v: World)
    requires At(w, Pos(0, 11)) && w.request.fromWallet != ProcessingWallet && w.read > 0 && a == w.tape(w.read - 1)
    requires v ==
             Broadcasted(w, a, DelegateResources, DelegateResources, PartHashes(a)).(delegatedFrom := v.delegatedFrom)
    ensures At(v, if Interrupted(a, PartHashes(a)) then Pos(0, 11) else Pos(0, 12)) && SameSetup(w, v)
  {
    hide Recorded, PartHashes, Spent, Txs, Committed, Grown;
    var n, died := |PartHashes(a)|, Interrupted(a, PartHashes(a));
    PartsAreTwo(a);
    BroadcastAt(w, Pos(0, 11), a, DelegateResources, PartHashes(a));
    GrownStill(w, Broadcasted(w, a, DelegateResources, DelegateResources, PartHashes(a)), v, DelegateResources, n,
      died);
    DelegatedIsAt(w, v, n, died);
  }

  lemma DelegatedIsAt(w: World, v: World, n: nat, died: bool)
    requires At(w, Pos(0, 11)) && w.request.fromWallet != ProcessingWallet && n <= 2 && (died ==> LastDied(w))
    requires Grown(w, v, DelegateResources, n, died) && v.txHash == w.txHash
    ensures At(v, if died then Pos(0, 11) else Pos(0, 12))
  {
    hide Recorded, Spent, Grown;
    DelegationSpends(w, v, n, died);
    GrownIsAt(w, v, Pos(0, 11), if died then Pos(0, 11) else Pos(0, 12), DelegateResources, n, died);
  }

  lemma DelegatesParts(w: World, a: Answer, c: Context, p: Pos)
    requires At(w, p) && p == Pos(0, 11) && c.currentStep == Some(StepDelegateResources) && w.read > 0 &&
             a == w.tape(w.read - 1)
    requires a.prepared && a.affordable && w.request.fromWallet != ProcessingWallet
    ensures AdvancesBy(w, p, Delegate(w, a, c))
  {
    hide Recorded, AdvancesBy, At, PartHashes, Broadcasted, Safe, Interrupted, SameSetup, Spent;
    var hashes := PartHashes(a);
    var v := Broadcasted(w, a, DelegateResources, DelegateResources, hashes);
    var kept := v.(delegatedFrom := w.delegatedFrom || hashes != []);
    if Interrupted(a, hashes) {
      Delegated(w, a, v);
      DiesIn(w, p, v);
    } else {
      Delegated(w, a, kept);
      AtIsSafe(kept, Pos(0, 12));
      EndsIn(w, p, kept);
      SucceedsIn(w, p, kept);
    }
  }

  lemma DoDelegate(w: World, a: Answer, c: Context, p: Pos)
    requires At(w, p) && p == Pos(0, 11) && c.currentStep == Some(StepDelegateResources) && w.read > 0 &&
             a == w.tape(w.read - 1)
    ensures AdvancesBy(w, p, Delegate(w, a, c))
  {
    hide Recorded, AdvancesBy, AllSeen, Checked, DiedByAnswer, ReclaimedOnce, TransferRecorded;
    if !a.prepared || !a.affordable {
      FailsAt(w, p, w);
    } else if w.request.fromWallet == ProcessingWallet {
      LeavesForSending(w, p);
    } else {
      DelegatesParts(w, a, c, p);
    }
  }

  /** The entries that have to be reclaimed. */
  function Wanted(a: Answer, entries: seq<Frozen>): seq<Frozen> {
    if entries == [] then []
    else
      var n := |entries| - 1;
      Wanted(a, entries[..n]) + if Takes(a, entries[n]) then [entries[n]] else []
  }

  /** The loops broadcast no more than there are entries to reclaim, however many these are; and
      they broadcast one for each, in order, exactly if no loop failed. */
  lemma {:induction false} ReclaimsEach(a: Answer, entries: seq<Frozen>)
    ensures var l, wanted := ReclaimLoops(a, true, entries), Wanted(a, entries);
            && |l.hashes| <= |wanted|
            && (l.failed == {} <==> |l.hashes| == |wanted| && forall r: Resource :: !Kept(a, r).Unusable?)
            && (l.failed == {} ==> forall k :: 0 <= k < |wanted| ==> wanted[k].hash == Some(l.hashes[k]))
  {
    if entries == [] {
      var l := ReclaimLoops(a, true, entries);
      assert forall r: Resource :: Kept(a, r).Unusable? <==> r in l.failed;
    } else {
      var n := |entries| - 1;
      ReclaimsEach(a, entries[..n]);
      var l := ReclaimLoops(a, true, entries[..n]);
      if Takes(a, entries[n]) && entries[n].resource !in l.failed && entries[n].hash.None? {
        assert entries[n].resource in ReclaimLoops(a, true, entries).failed;
      }
    }
  }

  lemma ReclaimSpends(w: World, v: World, n: nat, died: bool)
    requires Spent(w, Pos(2, 3)) && w.request.fromWallet == HotWallet && w.delegatedFrom
    requires Grown(w, v, ReclaimResources, n, died) && v.txHash == w.txHash && v.delegatedFrom
    requires v.deaths[ReclaimResources] == 0 ==> ReclaimedOnce(v)
    ensures Spent(v, if died then Pos(2, 3) else Pos(2, 4))
  {
    hide Recorded, ReclaimedOnce;
  }

  /** Without a death all that was reclaimed is of one list. */
  lemma ReclaimedByOneList(w: World, a: Answer, v: World)
    requires Spent(w, Pos(2, 3)) && w.read > 0 && a == w.tape(w.read - 1)
    requires v == Broadcasted(w, a, ReclaimResources, ReclaimResources, ReclaimLoops(a, true, a.frozen).hashes)
    requires v.deaths[ReclaimResources] == 0
    ensures ReclaimedOnce(v)
  {
    hide Recorded, ReclaimLoops, Txs;
    var hashes := ReclaimLoops(a, true, a.frozen).hashes;
    BroadcastRecords(w, a, ReclaimResources, hashes);
    assert Committed(a, hashes) == hashes;
    assert Count(w, ReclaimResources) == 0;
    assert ReclaimedAt(v, w.read - 1);
  }

  lemma ReclaimedIsAt(w: World, v: World, n: nat, died: bool)
    requires At(w, Pos(2, 3)) && w.request.fromWallet == HotWallet && w.delegatedFrom && (died ==> LastDied(w))
    requires Grown(w, v, ReclaimResources, n, died) && v.txHash == w.txHash && v.delegatedFrom
    requires v.deaths[ReclaimResources] == 0 ==> ReclaimedOnce(v)
    ensures At(v, if died then Pos(2, 3) else Pos(2, 4))
  {
    hide Recorded, Spent, Grown, ReclaimedOnce;
    ReclaimSpends(w, v, n, died);
    GrownIsAt(w, v, Pos(2, 3), if died then Pos(2, 3) else Pos(2, 4), ReclaimResources, n, died);
  }

  lemma Reclaimed(w: World, a: Answer, hashes: seq<nat>)
    requires At(w, Pos(2, 3)) && w.request.fromWallet == HotWallet && w.delegatedFrom
    requires w.read > 0 && a == w.tape(w.read - 1) && hashes == ReclaimLoops(a, true, a.frozen).hashes
    ensures var v := Broadcasted(w, a, ReclaimResources, ReclaimResources, hashes);
            At(v, if Interrupted(a, hashes) then Pos(2, 3) else Pos(2, 4)) && SameSetup(w, v)
  {
    hide Recorded, ReclaimLoops, Txs, Committed, Grown, Spent, ReclaimedOnce;
    var v := Broadcasted(w, a, ReclaimResources, ReclaimResources, hashes);
    BroadcastAt(w, Pos(2, 3), a, ReclaimResources, hashes);
    if v.deaths[ReclaimResources] == 0 {
      ReclaimedByOneList(w, a, v);
    }
    ReclaimedIsAt(w, v, |hashes|, Interrupted(a, hashes));
  }

  lemma ReclaimsLoops(w: World, a: Answer, c: Context, p: Pos)
    requires At(w, p) && p == Pos(2, 3) && c.currentStep == Some(StepReclaimResources)
    requires w.read > 0 && a == w.tape(w.read - 1) && w.request.fromWallet == HotWallet && w.delegatedFrom
    ensures AdvancesBy(w, p, ReclaimFrozen(w, a, c))
  {
    hide Recorded, AdvancesBy, At, Broadcasted, Safe, Interrupted, SameSetup, Spent, ReclaimLoops;
    var hashes := ReclaimLoops(a, true, a.frozen).hashes;
    var v := Broadcasted(w, a, ReclaimResources, ReclaimResources, hashes);
    Reclaimed(w, a, hashes);
    if Interrupted(a, hashes) {
      DiesIn(w, p, v);
    } else {
      AtIsSafe(v, Pos(2, 4));
      EndsIn(w, p, v);
      SucceedsIn(w, p, v);
    }
  }

  lemma DoReclaim(w: World, a: Answer, c: Context, p: Pos)
    requires At(w, p) && p == Pos(2, 3) && c.currentStep == Some(StepReclaimResources)
    requires w.read > 0 && a == w.tape(w.read - 1)
    ensures AdvancesBy(w, p, Reclaim(w, a, c))
  {
    hide Recorded, AdvancesBy, AllSeen, Checked, DiedByAnswer, TransferRecorded;
    if w.request.fromWallet != HotWallet || !w.delegatedFrom {
      JumpsTo(w, p, StepSendSuccessEvent);
    } else if !a.prepared {
      FailsAt(w, p, w);
    } else {
      ReclaimsLoops(w, a, c, p);
    }
  }

  lemma {:induction false} AllLookedUpIsSeen(w: World, a: Answer, txs: seq<Tx>)
    ensures Unmoved(w, AllLookedUp(w, a, txs))
    ensures forall k :: 0 <= k < |txs| && Confirmed(a, txs[k].hash, SYSTEM_CONFIRMATIONS).Done? ==>
              SeenWith(AllLookedUp(w, a, txs).sights, txs[k].hash, SYSTEM_CONFIRMATIONS)
  {
    if txs != [] {
      var n := |txs| - 1;
      var u := AllLookedUp(w, a, txs[..n]);
      AllLookedUpIsSeen(w, a, txs[..n]);
      ConfirmedIsSeen(u, a, txs[n].hash, SYSTEM_CONFIRMATIONS);
      forall k | 0 <= k < |txs| && Confirmed(a, txs[k].hash, SYSTEM_CONFIRMATIONS).Done?
        ensures SeenWith(AllLookedUp(w, a, txs).sights, txs[k].hash, SYSTEM_CONFIRMATIONS)
      {
        if k < n {
          assert txs[..n][k] == txs[k];
          SeenStays(u.sights, AllLookedUp(w, a, txs).sights, txs[k].hash, SYSTEM_CONFIRMATIONS);
        }
      }
    }
  }

  /** Parallel checks that all succeed saw every transaction with enough confirmations. */
  lemma CheckAllIsSeen(w: World, a: Answer, txs: seq<Tx>)
    ensures var r := CheckAll(w, a, txs);
            && Unmoved(w, r.world)
            && (r == Refuse(r.world) || r == GiveUp(r.world) || r == Succeed(r.world))
            && (r.outcome.Done? ==> forall k :: 0 <= k < |txs| ==>
               SeenWith(r.world.sights, txs[k].hash, SYSTEM_CONFIRMATIONS))
  {
    AllLookedUpIsSeen(w, a, txs);
    if CheckAll(w, a, txs).outcome.Done? {
      forall k | 0 <= k < |txs| ensures SeenWith(CheckAll(w, a, txs).world.sights, txs[k].hash, SYSTEM_CONFIRMATIONS) {
        assert Confirmed(a, txs[k].hash, SYSTEM_CONFIRMATIONS).Done?;
      }
    }
  }

  lemma DoWaitingDelegate(w: World, a: Answer, p: Pos)
    requires At(w, p) && p == Pos(0, 12)
    ensures AdvancesBy(w, p, WaitingDelegate(w, a))
  {
    hide Recorded, AdvancesBy, AllSeen, Checked, DiedByAnswer, ReclaimedOnce, TransferRecorded;
    var txs := Recorded(w.rows, DelegateResources);
    CheckAllIsSeen(w, a, txs);
    var v := CheckAll(w, a, txs).world;
    if CheckAll(w, a, txs).outcome.Done? {
      MovesTo(w, v, p, Pos(1, 0));
      GoesSending(w, p, v);
    } else {
      FailsAt(w, p, v);
    }
  }

  lemma DoWaitingReclaim(w: World, a: Answer, p: Pos)
    requires At(w, p) && p == Pos(2, 4)
    ensures AdvancesBy(w, p, WaitingReclaim(w, a))
  {
    hide Recorded, AdvancesBy, AllSeen, Checked, DiedByAnswer, ReclaimedOnce, TransferRecorded;
    var txs := Recorded(w.rows, ReclaimResources);
    CheckAllIsSeen(w, a, txs);
    var v := CheckAll(w, a, txs).world;
    if CheckAll(w, a, txs).outcome.Done? {
      MovesTo(w, v, p, Pos(2, 5));
      SucceedsIn(w, p, v);
    } else {
      FailsAt(w, p, v);
    }
  }

  // ------------------------------------------------------------------- after the transfer

  lemma FirstConfirmed(w: World, v: World)
    requires At(w, Pos(2, 0)) && Count(w, Transfer) == 1 && Unmoved(w, v)
    ensures At(StoreStatus(v, StatusUnconfirmed), Pos(2, 1))
  {
    hide Recorded;
    var u := StoreStatus(v, StatusUnconfirmed);
    CheckedStays(w, u);
    SpentStays(w, u, Pos(2, 1));
    Moves(w, u, Pos(2, 0), Pos(2, 1));
  }

  lemma DoFirstConfirmation(w: World, a: Answer, p: Pos)
    requires At(w, p) && p == Pos(2, 0)
    ensures AdvancesBy(w, p, WaitingForTheFirstConfirmation(w, a))
  {
    hide Recorded, AdvancesBy, AllSeen, Checked, DiedByAnswer, ReclaimedOnce, TransferRecorded;
    var txs := Recorded(w.rows, Transfer);
    var r := WaitingForTheFirstConfirmation(w, a);
    if |txs| != 1 {
      FailsAt(w, p, w);
    } else {
      var v := LookedUp(w, a, txs[0].hash);
      ConfirmedIsSeen(w, a, txs[0].hash, 0);
      if r.outcome.Done? {
        FirstConfirmed(w, v);
        SucceedsIn(w, p, StoreStatus(v, StatusUnconfirmed));
      } else {
        FailsAt(w, p, v);
        assert r == Refuse(v) || r == GiveUp(v);
      }
    }
  }

  lemma DoConfirmations(w: World, a: Answer, p: Pos)
    requires At(w, p) && p == Pos(2, 1)
    ensures AdvancesBy(w, p, WaitingConfirmations(w, a))
  {
    hide Recorded, AdvancesBy, AllSeen, Checked, DiedByAnswer, ReclaimedOnce, TransferRecorded;
    var txs := Recorded(w.rows, Transfer);
    if Confirmed(a, txs[0].hash, w.request.minConfirmations).Done? {
      var v := LookedUp(w, a, txs[0].hash);
      ConfirmedIsSeen(w, a, txs[0].hash, w.request.minConfirmations);
      MovesTo(w, v, p, Pos(2, 2));
      SucceedsIn(w, p, v);
    } else {
      CheckFails(w, a, p, txs[0], w.request.minConfirmations);
    }
  }

  lemma DoSuccess(w: World, p: Pos)
    requires At(w, p) && p == Pos(2, 5)
    ensures AdvancesBy(w, p, SendSuccessEvent(w))
  {
    hide Recorded;
    var v := StoreStatus(w, StatusCompleted);
    CheckedStays(w, v);
    SpentStays(w, v, p);
    AllSeenStays(w, v, p);
    DeathsStay(w, v);
    assert Advances(w, p, SendSuccessEvent(w));
  }

  // --------------------------------------------------------------- the driver, step by step

  lemma ContextIs(p: Pos, name: StepName)
    requires InTable(STAGES, p) && Home(name) == p
    ensures ContextOf(STAGES, p).step == name && ContextOf(STAGES, p).currentStep == Some(name)
  {
    HomeNames(name);
  }

  /** The world as a call finds it: an answer was taken from the tape. */
  function Taken(w: World): World {
    w.(read := w.read + 1)
  }

  lemma TakenIsAt(w: World, p: Pos)
    requires At(w, p)
    ensures At(Taken(w), p)
  {
    UnmovedStays(w, Taken(w), p);
  }

  /** A call of the stage before sending that the process lives to make: the activation. */
  lemma CallActivation(w: World, p: Pos)
    requires InTable(STAGES, p) && At(w, p) && p.stage == 0 && p.step < 8 && !w.tape(w.read).death.DiesFirst?
    ensures AdvancesBy(Taken(w), p, CallStep(w, ContextOf(STAGES, p)))
  {
    hide At, AdvancesBy, Recorded, ContextOf;
    var a, v, c := w.tape(w.read), Taken(w), ContextOf(STAGES, p);
    Table();
    TakenIsAt(w, p);
    match p.step
    case 0 => ContextIs(p, StepValidateRequest); DoValidate(v, a, p);
    case 1 => ContextIs(p, StepCheckActivateWallet); DoCheckActivateWallet(v, a, p);
    case 2 => ContextIs(p, StepBeforeActivationCheckTransferKind); DoBeforeActivation(v, p);
    case 3 => ContextIs(p, StepActiveWalletResources); DoActivateWithResources(v, a, c, p);
    case 4 => ContextIs(p, StepWaitingResourcesActivateWalletConfirmations); DoWaitingResourcesActivation(v, a, p);
    case 5 => ContextIs(p, StepWaitingExternalActivateWalletConfirmations); DoWaitingExternalActivation(v, a, p);
    case 6 => ContextIs(p, StepActivateWalletBurnTRX); DoActivateByBurning(v, a, c, p);
    case _ => ContextIs(p, StepWaitingActivateWalletConfirmations); DoWaitingActivation(v, a, p);
  }

  /** And the funding. */
  lemma CallFunding(w: World, p: Pos)
    requires InTable(STAGES, p) && At(w, p) && p.stage == 0 && p.step >= 8 && !w.tape(w.read).death.DiesFirst?
    ensures AdvancesBy(Taken(w), p, CallStep(w, ContextOf(STAGES, p)))
  {
    hide At, AdvancesBy, Recorded, ContextOf;
    var a, v, c := w.tape(w.read), Taken(w), ContextOf(STAGES, p);
    Table();
    TakenIsAt(w, p);
    match p.step
    case 8 => ContextIs(p, StepBeforeSendingCheckTransferKind); DoBeforeSending(v, p);
    case 9 => ContextIs(p, StepSendTRXForBurn); DoSendTRXForBurn(v, a, c, p);
    case 10 => ContextIs(p, StepWaitingSendTRXForBurnConfirmations); DoWaitingSendTRX(v, a, p);
    case 11 => ContextIs(p, StepDelegateResources); DoDelegate(v, a, c, p);
    case 12 => ContextIs(p, StepWaitingDelegateConfirmations); DoWaitingDelegate(v, a, p);
    case _ => ContextIs(p, StepWaitingExternalDelegateConfirmations); DoWaitingExternalDelegate(v, a, p);
  }

  /** A call of the sending stage, or of the one after it. */
  lemma CallAfter(w: World, p: Pos)
    requires InTable(STAGES, p) && At(w, p) && 1 <= p.stage < 3 && !w.tape(w.read).death.DiesFirst?
    ensures AdvancesBy(Taken(w), p, CallStep(w, ContextOf(STAGES, p)))
  {
    hide At, AdvancesBy, Recorded, ContextOf;
    var a, v, c := w.tape(w.read), Taken(w), ContextOf(STAGES, p);
    Table();
    TakenIsAt(w, p);
    if p.stage == 1 {
      ContextIs(p, StepSending);
      DoSending(v, a, c, p);
    } else {
      match p.step
      case 0 => ContextIs(p, StepWaitingForTheFirstConfirmation); DoFirstConfirmation(v, a, p);
      case 1 => ContextIs(p, StepWaitingConfirmations); DoConfirmations(v, a, p);
      case 2 => ContextIs(p, StepAfterSendingCheckTransferKind); DoAfterSending(v, p);
      case 3 => ContextIs(p, StepReclaimResources); DoReclaim(v, a, c, p);
      case 4 => ContextIs(p, StepWaitingReclaimResourcesConfirmations); DoWaitingReclaim(v, a, p);
      case _ => ContextIs(p, StepSendSuccessEvent); DoSuccess(v, p);
    }
  }

  lemma CallAdvances(w: World, p: Pos)
    requires InTable(STAGES, p) && At(w, p)
    ensures AdvancesBy(Taken(w), p, CallStep(w, ContextOf(STAGES, p)))
  {
    hide AdvancesBy, ContextOf;
    if w.tape(w.read).death.DiesFirst? {
      TakenIsAt(w, p);
      DiesIn(Taken(w), p, Taken(w));
    } else if p.stage == 0 && p.step < 8 {
      CallActivation(w, p);
    } else if p.stage == 0 {
      CallFunding(w, p);
    } else {
      CallAfter(w, p);
    }
  }
}
