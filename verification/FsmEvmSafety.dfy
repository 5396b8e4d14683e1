/** What holds of an EVM transfer after any number of runs, whatever the node and the explorer
    answer and wherever the process dies. */
module FsmEvmSafety {
  import opened Wrappers
  import opened Names
  import opened Engine
  import opened Resumption
  import opened Simulation
  import opened History
  import opened Transfers
  import opened FsmEvm

  /** The statuses of a transfer that succeeds, in order. */
  const ORDER := [StatusProcessing, StatusUnconfirmed, StatusCompleted]

  const DONE := Pos(3, 0)

  function Progress(p: Pos): nat {
    if p == Pos(0, 0) then 0
    else if p.stage < 2 || p.step == 0 then 1
    else 2
  }

  /** The hot wallet needed no top-up: it pays no fee itself, or its balance covered the fee. */
  ghost predicate NoTopUpNeeded(w: World) {
    || w.request.fromWallet == ProcessingWallet
    || w.request.nativeAsset
    || (exists k :: 0 <= k < |w.quotes| && w.quotes[k].fee <= w.quotes[k].hotBalance)
  }

  /** The explorer showed the top-up as successful, with a confirmation. */
  ghost predicate TopUpSeen(w: World) {
    exists k, i :: 0 <= k < |w.sights| && 0 <= i < |w.sends| &&
      w.sends[i] == Tx(SendBurnBaseAsset, w.sights[k].hash) && w.sights[k].success && w.sights[k].confirmations >= 1
  }

  ghost predicate Funded(w: World) {
    NoTopUpNeeded(w) || TopUpSeen(w)
  }

  predicate IsTopUp(sends: seq<Tx>) {
    |sends| == 1 && sends[0].kind == SendBurnBaseAsset
  }

  /** A top-up or nothing, then the transfer. */
  predicate Sent(w: World) {
    && (|w.sends| == 1 || (|w.sends| == 2 && w.sends[0].kind == SendBurnBaseAsset))
    && w.sends[|w.sends| - 1].kind == Transfer
  }

  ghost predicate ConfirmedEnough(w: World) {
    && w.txHash.Some?
    && (exists k :: 0 <= k < |w.sights| &&
          w.sights[k].hash == w.txHash.value && w.sights[k].success && w.sights[k].confirmations >= w.minConfirmations)
  }

  /** The transfer knows the hash of the transaction that was sent for it. */
  predicate SentAs(w: World) {
    Sent(w) && w.txHash == Some(w.sends[|w.sends| - 1].hash)
  }

  /** The request passed the validation: one address each way and an asset; and from a hot wallet
      it goes to a cold or processing wallet of the same owner, at a price within the limit. */
  ghost predicate Checked(w: World) {
    && w.request.fromAddresses == 1 && w.request.toAddresses == 1 && w.request.assetGiven
    && (w.request.fromWallet == HotWallet ==> exists k :: 0 <= k < w.read && Approves(w.request, w.tape(k)))
  }

  predicate Approves(q: Request, a: Answer) {
    a.wallet == ColdOrProcessing(true) && (q.priceLimited ==> a.affordable)
  }

  /** The processing wallet could pay for what the hot wallet lacks, and for sending it. */
  ghost predicate TopUpCovered(w: World) {
    exists k :: 0 <= k < |w.quotes| && Covers(w.quotes[k])
  }

  predicate Covers(q: Quote) {
    q.hotBalance < q.fee && q.processingBalance - q.topUpCost >= q.fee - q.hotBalance
  }

  predicate ToppedUp(sends: seq<Tx>) {
    sends != [] && sends[0].kind == SendBurnBaseAsset
  }

  /** The process died after a broadcast, with the answer of which it was made. */
  predicate Loses(w: World, l: Lost) {
    && (l.tx.kind == SendBurnBaseAsset || l.tx.kind == Transfer)
    && 0 <= l.at < w.read
    && var a := w.tape(l.at); a.death == DiesSent && a.accepted && a.hash == Some(l.tx.hash)
  }

  predicate LostOf(w: World, kind: TxType) {
    exists i :: 0 <= i < |w.lost| && w.lost[i].tx.kind == kind
  }

  /** Each lost broadcast was made with another answer, and each was allowed when it was made. */
  ghost predicate LostFairly(w: World) {
    && (forall i :: 0 <= i < |w.lost| ==> Loses(w, w.lost[i]))
    && (forall i, j :: 0 <= i < j < |w.lost| ==> w.lost[i].at < w.lost[j].at)
    && (w.lost != [] ==> Checked(w))
    && (LostOf(w, SendBurnBaseAsset) ==> TopUpCovered(w))
    && (LostOf(w, Transfer) ==> Funded(w))
  }

  /** What was sent when the driver is at the step `p`. */
  ghost predicate SentAt(w: World, p: Pos) {
    && w.rows == w.sends
    && if p == Pos(0, 0) then w.sends == []
       else if p == Pos(0, 1) then w.sends == [] || IsTopUp(w.sends)
       else if p == Pos(0, 2) then IsTopUp(w.sends)
       else if p.stage == 1 then Funded(w) && (w.sends == [] || IsTopUp(w.sends) || Sent(w))
       else Funded(w) && SentAs(w)
  }

  /** What holds of the world when the step at `p` is next, or all of them are done. */
  ghost predicate At(w: World, p: Pos) {
    && w.history == (if p == DONE then ORDER else ORDER[..Progress(p)])
    && SentAt(w, p)
    && (p != Pos(0, 0) ==> Checked(w))
    && (ToppedUp(w.sends) ==> TopUpCovered(w))
    && LostFairly(w)
    && (p == Pos(2, 2) || p == DONE ==> ConfirmedEnough(w))
  }

  ghost predicate Inv(a: Driver<World>) {
    match a.phase
    case Live => InTable(STAGES, a.pos) && At(a.world, a.pos)
    case Finished => At(a.world, DONE)
    case Aborted => Safe(a.world) && StatusFailed in a.world.history
    case Redirected(_, _, _) => false
  }

  /** The statuses stored so far are the first ones of the order, but for a failure at the end. */
  predicate ForwardOnly(history: seq<TransferStatus>) {
    || history <= ORDER
    || (history != [] && history[|history| - 1] == StatusFailed && history[..|history| - 1] <= ORDER[..2])
  }

  /** The promises of an EVM transfer. */
  ghost predicate Safe(w: World) {
    && |Recorded(w.sends, SendBurnBaseAsset)| <= 1 && |Recorded(w.sends, Transfer)| <= 1
    && w.rows == w.sends
    && (w.sends != [] ==> Checked(w)) && (ToppedUp(w.sends) ==> TopUpCovered(w))
    && (|Recorded(w.sends, Transfer)| == 1 ==> Funded(w))
    && LostFairly(w)
    && ForwardOnly(w.history)
    && (StatusCompleted in w.history ==> SentAs(w) && ConfirmedEnough(w))
  }

  lemma Table()
    ensures |STAGES| == 3 && |STAGES[0].steps| == 3 && |STAGES[1].steps| == 1 && |STAGES[2].steps| == 3
    ensures Plainly(STAGES)
  {
  }

  lemma TableIsDistinct()
    ensures Distinct(STAGES)
  {
    Table();
  }

  /** A step finds in the rows what was sent. */
  lemma FindsSent(w: World)
    requires w.sends == [] || IsTopUp(w.sends) || Sent(w)
    ensures Recorded(w.sends, Transfer) == if Sent(w) then [w.sends[|w.sends| - 1]] else []
    ensures Recorded(w.sends, SendBurnBaseAsset) ==
            if w.sends != [] && w.sends[0].kind == SendBurnBaseAsset then [w.sends[0]] else []
  {
    if w.sends != [] {
      var a, b := w.sends[0], w.sends[|w.sends| - 1];
      RecordedFew(a, b, Transfer);
      RecordedFew(a, b, SendBurnBaseAsset);
      assert w.sends == if |w.sends| == 1 then [a] else [a, b];
    }
  }

  /** At every step the promises hold. */
  lemma AtIsSafe(w: World, p: Pos)
    requires InTable(STAGES, p) && At(w, p)
    ensures Safe(w) && w.history <= ORDER[..2]
    ensures StatusFailed !in w.history && StatusCompleted !in w.history
  {
    hide Recorded, LostFairly, Checked, TopUpCovered;
    FindsSent(w);
  }

  /** And so they do after a failure there. */
  lemma FailedIsSafe(w: World)
    requires Safe(w) && w.history <= ORDER[..2]
    ensures Safe(StoreStatus(w, StatusFailed))
  {
    var after := StoreStatus(w, StatusFailed);
    assert after.history[..|after.history| - 1] == w.history;
    assert Funded(w) ==> Funded(after) by {
      if Funded(w) {
        FundedGrows(w, after);
      }
    }
    LostStays(w, after);
    assert StatusCompleted !in w.history;
  }

  lemma Prefixes()
    ensures ORDER[..0] == [] && ORDER[..1] == [StatusProcessing] && ORDER[..2] == [StatusProcessing, StatusUnconfirmed]
    ensures ORDER[..1] + [StatusUnconfirmed] == ORDER[..2] && ORDER[..2] + [StatusCompleted] == ORDER
  {
  }

  /** What was observed stays observed. */
  lemma FundedGrows(w: World, v: World)
    requires Funded(w) && v.request == w.request
    requires w.quotes <= v.quotes && w.sights <= v.sights && w.sends <= v.sends
    ensures Funded(v)
  {
    if NoTopUpNeeded(w) {
      if k :| 0 <= k < |w.quotes| && w.quotes[k].fee <= w.quotes[k].hotBalance {
        assert v.quotes[k] == w.quotes[k];
      }
    } else {
      var k, i :| 0 <= k < |w.sights| && 0 <= i < |w.sends| &&
        w.sends[i] == Tx(SendBurnBaseAsset, w.sights[k].hash) && w.sights[k].success && w.sights[k].confirmations >= 1;
      assert v.sights[k] == w.sights[k] && v.sends[i] == w.sends[i];
    }
  }

  /** Nothing is taken back, and nothing is lost besides. */
  ghost predicate Grows(w: World, v: World) {
    && SameTransfer(w, v) && w.read <= v.read && v.lost == w.lost
    && w.quotes <= v.quotes && w.sights <= v.sights && w.sends <= v.sends
  }

  lemma CheckedGrows(w: World, v: World)
    requires Checked(w) && SameTransfer(w, v) && w.read <= v.read
    ensures Checked(v)
  {
  }

  lemma CoveredGrows(w: World, v: World)
    requires TopUpCovered(w) && w.quotes <= v.quotes
    ensures TopUpCovered(v)
  {
    var k :| 0 <= k < |w.quotes| && Covers(w.quotes[k]);
    assert v.quotes[k] == w.quotes[k];
  }

  lemma LostStays(w: World, v: World)
    requires LostFairly(w) && Grows(w, v)
    ensures LostFairly(v)
  {
    hide Checked, Funded, TopUpCovered;
    if w.lost != [] {
      CheckedGrows(w, v);
    }
    if LostOf(w, SendBurnBaseAsset) {
      CoveredGrows(w, v);
    }
    if LostOf(w, Transfer) {
      FundedGrows(w, v);
    }
  }

  /** One more broadcast is lost, with the answer used up last. */
  lemma LostMore(w: World, tx: Tx)
    requires LostFairly(w) && w.read > 0 && (w.lost != [] ==> w.lost[|w.lost| - 1].at < w.read - 1)
    requires Loses(w, Lost(w.read - 1, tx)) && Checked(w) && if tx.kind == Transfer then Funded(w) else TopUpCovered(w)
    ensures LostFairly(Lose(w, tx))
  {
    hide Funded, TopUpCovered, Checked;
    var v := Lose(w, tx);
    CheckedGrows(w, v);
    if TopUpCovered(w) {
      CoveredGrows(w, v);
    }
    if Funded(w) {
      FundedGrows(w, v);
    }
    forall i | 0 <= i < |v.lost| ensures i < |w.lost| ==> v.lost[i] == w.lost[i] {
    }
  }

  function Next(p: Pos): Pos {
    if p == Pos(0, 2) then Pos(1, 0) else if p == Pos(1, 0) then Pos(2, 0) else if p == Pos(2, 2) then DONE
    else Pos(p.stage, p.step + 1)
  }

  /** Where a success at `p` leads: to the next step, or by a jump to the sending step. */
  function Goal(p: Pos, r: Reply<World>): Pos {
    if r.nextStage.None? then Next(p) else Pos(1, 0)
  }

  predicate ToSending(p: Pos, r: Reply<World>) {
    p.stage == 0 && r.nextStage == Some(StageSending) && r.nextStep == Some(StepSending)
  }

  lemma Targets(p: Pos, r: Reply<World>)
    requires InTable(STAGES, p) && ((r.nextStage.None? && r.nextStep.None?) || ToSending(p, r))
    ensures ForwardJump(STAGES, p, r.nextStage, r.nextStep)
    ensures Target(STAGES, p, r.nextStage, r.nextStep) == Goal(p, r)
  {
    Table();
  }

  /** No call changes what the transfer was asked to do, and each uses up one answer. */
  ghost predicate Continues(w: World, v: World) {
    v.minConfirmations == w.minConfirmations && v.request == w.request && v.tape == w.tape && v.read == w.read + 1
  }

  ghost predicate SameTransfer(w: World, v: World) {
    v.minConfirmations == w.minConfirmations && v.request == w.request && v.tape == w.tape
  }

  /** The only replies of a step: it succeeds and what is promised of the step it leads to holds,
      or it fails or dies and what was promised of the step still holds. */
  ghost predicate Advances(w: World, p: Pos, r: Reply<World>) {
    && !r.fail && !r.skipError && Continues(w, r.world)
    && match r.outcome
       case Done => ((r.nextStage.None? && r.nextStep.None?) || ToSending(p, r)) && At(r.world, Goal(p, r))
       case Err(e) => (e == Plain || e == FailedTransfer) && Quiet(r) && At(r.world, p)
       case Died => Quiet(r) && At(r.world, p)
  }

  /** The world as a call finds it: an answer was taken from the tape. */
  function Taken(w: World): World {
    w.(read := w.read + 1)
  }

  /** Nothing was sent, lost or stored; what was quoted or seen may be more. */
  ghost predicate Unmoved(w: World, v: World) {
    Grows(w, v) && Continues(w, v) && v.sends == w.sends && v.rows == w.rows && v.history == w.history &&
      v.txHash == w.txHash
  }

  lemma SentStays(w: World, v: World, p: Pos)
    requires SentAt(w, p) && Grows(w, v) && v.sends == w.sends && v.rows == w.rows && v.txHash == w.txHash
    ensures SentAt(v, p)
  {
    hide Funded;
    if Funded(w) {
      FundedGrows(w, v);
    }
  }

  lemma Stays(w: World, p: Pos, v: World)
    requires At(w, p) && Unmoved(w, v)
    ensures At(v, p)
  {
    hide SentAt, LostFairly, Checked, TopUpCovered;
    SentStays(w, v, p);
    LostStays(w, v);
    if p != Pos(0, 0) {
      CheckedGrows(w, v);
    }
    if ToppedUp(w.sends) {
      CoveredGrows(w, v);
    }
  }

  /** A refusal, a failure or a death that leaves the transfer as it was. */
  lemma FailsAt(w: World, p: Pos, v: World)
    requires At(w, p) && Unmoved(w, v)
    ensures Advances(w, p, Refuse(v)) && Advances(w, p, GiveUp(v)) && Advances(w, p, Die(v))
  {
    hide At;
    Stays(w, p, v);
  }

  lemma ValidateIs(w: World)
    ensures InTable(STAGES, Pos(0, 0))
    ensures CallStep(w, ContextOf(STAGES, Pos(0, 0))) ==
            if w.tape(w.read).death == DiesFirst then Die(Taken(w)) else ValidateRequest(Taken(w), w.tape(w.read))
  {
    hide ValidateRequest;
    Table();
  }

  /** The request was approved. */
  lemma Validated(w: World, v: World)
    requires At(w, Pos(0, 0)) && v == Taken(w) && Checked(v)
    ensures Advances(w, Pos(0, 0), Succeed(StoreStatus(v, StatusProcessing)))
  {
    hide LostFairly, Checked, TopUpCovered;
    Prefixes();
    Stays(w, Pos(0, 0), v);
    var u := StoreStatus(v, StatusProcessing);
    LostStays(v, u);
    CheckedGrows(v, u);
  }

  lemma CallValidate(w: World)
    requires At(w, Pos(0, 0))
    ensures Advances(w, Pos(0, 0), CallStep(w, ContextOf(STAGES, Pos(0, 0))))
  {
    hide At, Advances, CallStep, ContextOf;
    ValidateIs(w);
    var a, v := w.tape(w.read), Taken(w);
    FailsAt(w, Pos(0, 0), v);
    if a.death != DiesFirst && ValidateRequest(v, a).outcome.Done? {
      assert v.request.fromWallet == HotWallet ==> Approves(v.request, v.tape(w.read));
      Validated(w, v);
    }
  }

  const TOP_UP := Pos(0, 1)
  const SENDING := Pos(1, 0)

  lemma TopUpIs(w: World)
    ensures InTable(STAGES, TOP_UP)
    ensures var c := ContextOf(STAGES, TOP_UP);
            && TxTypeOf(c.currentStep) == Some(SendBurnBaseAsset) && c.step != StepSending
            && CallStep(w, c) == if w.tape(w.read).death == DiesFirst then Die(Taken(w))
                                 else SendBaseAssetForBurn(Taken(w), w.tape(w.read), c)
  {
    hide SendBaseAssetForBurn;
    Table();
  }

  /** No top-up is needed, so that sending is up. */
  lemma TopsUpNot(w: World, v: World)
    requires At(w, TOP_UP) && Unmoved(w, v) && NoTopUpNeeded(v)
    ensures Advances(w, TOP_UP, GoSending(v))
  {
    hide LostFairly, Checked, TopUpCovered;
    Stays(w, TOP_UP, v);
  }

  /** A top-up was sent before. */
  lemma ToppedUpBefore(w: World, v: World)
    requires At(w, TOP_UP) && Unmoved(w, v) && w.sends != []
    ensures Advances(w, TOP_UP, Succeed(v))
  {
    hide LostFairly, Checked, TopUpCovered;
    Stays(w, TOP_UP, v);
  }

  /** A top-up that is recorded, whether or not the process dies afterwards. */
  lemma TopsUp(w: World, v: World, hash: nat, sent: World)
    requires At(w, TOP_UP) && Unmoved(w, v) && w.sends == [] && TopUpCovered(v)
    requires sent == v.(sends := [Tx(SendBurnBaseAsset, hash)], rows := [Tx(SendBurnBaseAsset, hash)])
    ensures Advances(w, TOP_UP, Succeed(sent)) && Advances(w, TOP_UP, Die(sent))
  {
    hide LostFairly, Checked, TopUpCovered, NoTopUpNeeded;
    Stays(w, TOP_UP, v);
    LostStays(v, sent);
    CheckedGrows(v, sent);
    CoveredGrows(v, sent);
  }

  /** A broadcast that is lost leaves the step to be tried again. */
  lemma LosesAt(w: World, p: Pos, v: World, tx: Tx)
    requires At(w, p) && p != Pos(0, 0) && Unmoved(w, v) && Loses(v, Lost(w.read, tx))
    requires if tx.kind == Transfer then Funded(v) else TopUpCovered(v)
    ensures Advances(w, p, Die(Lose(v, tx)))
  {
    hide Funded, Checked, TopUpCovered;
    Stays(w, p, v);
    LastLost(w);
    LostMore(v, tx);
    LosingStays(v, p, tx);
  }

  lemma LastLost(w: World)
    requires LostFairly(w)
    ensures w.lost != [] ==> w.lost[|w.lost| - 1].at < w.read
  {
    assert w.lost != [] ==> Loses(w, w.lost[|w.lost| - 1]);
  }

  lemma LosingStays(v: World, p: Pos, tx: Tx)
    requires At(v, p) && LostFairly(Lose(v, tx))
    ensures At(Lose(v, tx), p)
  {
    hide LostFairly;
  }

  lemma QuoteCovers(v: World, q: Quote)
    requires v.quotes != [] && v.quotes[|v.quotes| - 1] == q
    ensures q.fee <= q.hotBalance ==> NoTopUpNeeded(v)
    ensures Covers(q) ==> TopUpCovered(v)
  {
  }

  lemma CallTopUp(w: World)
    requires At(w, TOP_UP)
    ensures Advances(w, TOP_UP, CallStep(w, ContextOf(STAGES, TOP_UP)))
  {
    hide Recorded, Advances, CallStep, LostFairly, Checked, TopUpCovered, NoTopUpNeeded, ContextOf;
    FindsSent(w);
    TopUpIs(w);
    var a, v, c := w.tape(w.read), Taken(w), ContextOf(STAGES, TOP_UP);
    FailsAt(w, TOP_UP, v);
    if a.death != DiesFirst {
      if w.request.fromWallet != HotWallet || w.request.nativeAsset {
        if w.request.fromWallet == ProcessingWallet || w.request.nativeAsset {
          NeedsNone(v);
          TopsUpNot(w, v);
        }
      } else if w.sends != [] {
        ToppedUpBefore(w, v);
      } else if a.quote.Some? {
        CallQuoted(w, a.quote.value);
      }
    }
  }

  lemma NeedsNone(w: World)
    requires w.request.fromWallet == ProcessingWallet || w.request.nativeAsset
    ensures NoTopUpNeeded(w)
  {
  }

  /** The step gets to work with a quote. */
  lemma CallQuoted(w: World, q: Quote)
    requires At(w, TOP_UP) && w.sends == [] && w.request.fromWallet == HotWallet && !w.request.nativeAsset
    requires w.tape(w.read).death != DiesFirst && w.tape(w.read).quote == Some(q)
    ensures Advances(w, TOP_UP, SendBaseAssetForBurn(Taken(w), w.tape(w.read), ContextOf(STAGES, TOP_UP)))
  {
    hide Advances, CallStep, LostFairly, Checked, TopUpCovered, NoTopUpNeeded, ContextOf;
    TopUpIs(w);
    var a := w.tape(w.read);
    var v := Taken(w).(quotes := w.quotes + [q]);
    QuoteCovers(v, q);
    FailsAt(w, TOP_UP, v);
    if q.fee <= q.hotBalance {
      TopsUpNot(w, v);
    } else if Covers(q) && a.hash.Some? && a.accepted {
      var tx := Tx(SendBurnBaseAsset, a.hash.value);
      if a.death == DiesSent {
        LosesAt(w, TOP_UP, v, tx);
      } else {
        assert v.sends + [tx] == [tx] && v.rows + [tx] == [tx];
        TopsUp(w, v, a.hash.value, v.(sends := [tx], rows := [tx]));
      }
    }
  }

  /** The top-up was seen successful, so that sending is up. */
  lemma TopUpArrives(w: World, v: World)
    requires At(w, Pos(0, 2)) && Unmoved(w, v) && |v.sights| > |w.sights|
    requires var s := v.sights[|w.sights|]; s.hash == w.sends[0].hash && s.success && s.confirmations >= 1
    ensures Advances(w, Pos(0, 2), GoSending(v))
  {
    hide LostFairly, Checked, TopUpCovered;
    Stays(w, Pos(0, 2), v);
    assert v.sends[0] == Tx(SendBurnBaseAsset, v.sights[|w.sights|].hash);
  }

  lemma WaitingIs(w: World)
    ensures InTable(STAGES, Pos(0, 2))
    ensures CallStep(w, ContextOf(STAGES, Pos(0, 2))) ==
            if w.tape(w.read).death == DiesFirst then Die(Taken(w)) else WaitingTopUp(Taken(w), w.tape(w.read))
  {
    hide WaitingTopUp;
    Table();
  }

  lemma CallWaitingTopUp(w: World)
    requires At(w, Pos(0, 2))
    ensures Advances(w, Pos(0, 2), CallStep(w, ContextOf(STAGES, Pos(0, 2))))
  {
    hide Recorded, Advances, CallStep, LostFairly, Checked, TopUpCovered, ContextOf;
    FindsSent(w);
    WaitingIs(w);
    assert Recorded(w.rows, SendBurnBaseAsset) == [w.sends[0]];
    var a, v := w.tape(w.read), Taken(w);
    var seen := LookedUp(v, a, w.sends[0].hash);
    FailsAt(w, Pos(0, 2), v);
    FailsAt(w, Pos(0, 2), seen);
    if a.lookup.Found? && a.lookup.success && a.lookup.confirmations >= 1 {
      TopUpArrives(w, seen);
    }
  }

  /** Nothing is sent again: the hash of the recorded transfer is taken over. */
  lemma SendingAgainIs(w: World, c: Context)
    requires w.rows == w.sends && Sent(w) && c.step == StepSending
    ensures var v := w.(read := w.read + 1);
            CallStep(w, c) == if w.tape(w.read).death == DiesFirst then Die(v)
                              else Succeed(v.(txHash := Some(w.sends[|w.sends| - 1].hash)))
  {
    hide Recorded;
    FindsSent(w);
    var a, v := w.tape(w.read), w.(read := w.read + 1);
    if a.death != DiesFirst {
      var txs := Recorded(w.rows, Transfer);
      assert txs != [] && txs[0].hash == w.sends[|w.sends| - 1].hash;
      assert CallStep(w, c) == Sending(v, a, c);
    }
  }

  lemma CallSendingAgain(w: World)
    requires At(w, SENDING) && Sent(w)
    ensures Advances(w, SENDING, CallStep(w, ContextOf(STAGES, SENDING)))
  {
    hide Funded, Recorded, LostFairly, Checked, TopUpCovered;
    Table();
    SendingAgainIs(w, ContextOf(STAGES, SENDING));
    Stays(w, SENDING, Taken(w));
    var v := Taken(w).(txHash := Some(w.sends[|w.sends| - 1].hash));
    FundedGrows(Taken(w), v);
    LostStays(Taken(w), v);
    CheckedGrows(Taken(w), v);
    if ToppedUp(w.sends) {
      CoveredGrows(w, v);
    }
  }

  lemma SendingIs(w: World)
    ensures InTable(STAGES, SENDING)
    ensures var c := ContextOf(STAGES, SENDING);
            && TxTypeOf(c.currentStep) == Some(Transfer) && c.step == StepSending
            && CallStep(w, c) == if w.tape(w.read).death == DiesFirst then Die(Taken(w))
                                 else Sending(Taken(w), w.tape(w.read), c)
  {
    hide Sending;
    Table();
  }

  /** The transfer is sent and recorded, whether or not the process dies before it keeps the hash. */
  lemma SendsFirst(w: World, v: World, tx: Tx, sent: World)
    requires At(w, SENDING) && !Sent(w) && v == Taken(w) && tx.kind == Transfer
    requires sent == v.(sends := w.sends + [tx], rows := w.rows + [tx])
    ensures Advances(w, SENDING, Die(sent)) && Advances(w, SENDING, Succeed(sent.(txHash := Some(tx.hash))))
  {
    hide Funded, LostFairly, Checked, TopUpCovered;
    var done := sent.(txHash := Some(tx.hash));
    FundedGrows(w, sent);
    FundedGrows(w, done);
    LostStays(w, sent);
    LostStays(w, done);
    CheckedGrows(w, sent);
    CheckedGrows(w, done);
    if ToppedUp(w.sends) {
      CoveredGrows(w, sent);
      CoveredGrows(w, done);
    }
  }

  lemma CallSendingFirst(w: World)
    requires At(w, SENDING) && !Sent(w)
    ensures Advances(w, SENDING, CallStep(w, ContextOf(STAGES, SENDING)))
  {
    hide Recorded, Advances, CallStep, Funded, LostFairly, Checked, TopUpCovered, ContextOf;
    FindsSent(w);
    SendingIs(w);
    var a, v := w.tape(w.read), Taken(w);
    FailsAt(w, SENDING, v);
    if a.death != DiesFirst && a.prepared && a.hash.Some? && a.accepted {
      var tx := Tx(Transfer, a.hash.value);
      if a.death == DiesSent {
        FundedGrows(w, v);
        LosesAt(w, SENDING, v, tx);
      } else {
        SendsFirst(w, v, tx, v.(sends := w.sends + [tx], rows := w.rows + [tx]));
      }
    }
  }

  lemma CallSending(w: World)
    requires At(w, SENDING)
    ensures Advances(w, SENDING, CallStep(w, ContextOf(STAGES, SENDING)))
  {
    hide At, Advances;
    if Sent(w) {
      CallSendingAgain(w);
    } else {
      CallSendingFirst(w);
    }
  }

  /** The status of the first confirmation is stored. */
  lemma ConfirmedFirst(w: World, v: World)
    requires At(w, Pos(2, 0)) && Unmoved(w, v)
    ensures Advances(w, Pos(2, 0), Succeed(StoreStatus(v, StatusUnconfirmed)))
  {
    hide Funded, LostFairly, Checked, TopUpCovered;
    Prefixes();
    Stays(w, Pos(2, 0), v);
    var u := StoreStatus(v, StatusUnconfirmed);
    SentStays(v, u, Pos(2, 0));
    LostStays(v, u);
    CheckedGrows(v, u);
    if ToppedUp(v.sends) {
      CoveredGrows(v, u);
    }
  }

  lemma ConfirmationIs(w: World, j: nat)
    requires j < 2
    ensures InTable(STAGES, Pos(2, j))
    ensures CallStep(w, ContextOf(STAGES, Pos(2, j))) ==
            if w.tape(w.read).death == DiesFirst then Die(Taken(w))
            else if j == 0 then WaitingForTheFirstConfirmation(Taken(w), w.tape(w.read))
            else WaitingConfirmations(Taken(w), w.tape(w.read))
  {
    hide WaitingForTheFirstConfirmation, WaitingConfirmations;
    Table();
  }

  lemma CallFirstConfirmation(w: World)
    requires At(w, Pos(2, 0))
    ensures Advances(w, Pos(2, 0), CallStep(w, ContextOf(STAGES, Pos(2, 0))))
  {
    hide At, Advances, CallStep, ContextOf;
    ConfirmationIs(w, 0);
    var seen := LookedUp(Taken(w), w.tape(w.read), if w.txHash.Some? then w.txHash.value else 0);
    FailsAt(w, Pos(2, 0), Taken(w));
    FailsAt(w, Pos(2, 0), seen);
    ConfirmedFirst(w, seen);
  }

  /** The explorer showed the transaction with enough confirmations. */
  lemma ConfirmedSeen(w: World, v: World)
    requires At(w, Pos(2, 1)) && Unmoved(w, v) && |v.sights| > |w.sights| && w.txHash.Some?
    requires var s := v.sights[|w.sights|];
             s.hash == w.txHash.value && s.success && s.confirmations >= w.minConfirmations
    ensures Advances(w, Pos(2, 1), Succeed(v))
  {
    hide Funded, LostFairly, Checked, TopUpCovered;
    Stays(w, Pos(2, 1), v);
  }

  lemma HashIsKnown(w: World, p: Pos)
    requires At(w, p) && p.stage == 2
    ensures w.txHash.Some?
  {
  }

  lemma CallConfirmations(w: World)
    requires At(w, Pos(2, 1))
    ensures Advances(w, Pos(2, 1), CallStep(w, ContextOf(STAGES, Pos(2, 1))))
  {
    hide At, Advances, CallStep, ContextOf;
    ConfirmationIs(w, 1);
    HashIsKnown(w, Pos(2, 1));
    var a := w.tape(w.read);
    var seen := LookedUp(Taken(w), a, w.txHash.value);
    FailsAt(w, Pos(2, 1), Taken(w));
    FailsAt(w, Pos(2, 1), seen);
    if a.lookup.Found? && a.lookup.success && a.lookup.confirmations >= w.minConfirmations {
      ConfirmedSeen(w, seen);
    }
  }

  lemma CallSuccess(w: World)
    requires At(w, Pos(2, 2))
    ensures Advances(w, Pos(2, 2), CallStep(w, ContextOf(STAGES, Pos(2, 2))))
  {
    hide Funded, LostFairly, Checked, TopUpCovered;
    Table();
    Prefixes();
    var v := Taken(w);
    var u := StoreStatus(v, StatusCompleted);
    Stays(w, Pos(2, 2), v);
    SentStays(v, u, Pos(2, 2));
    LostStays(v, u);
    CheckedGrows(v, u);
    if ToppedUp(v.sends) {
      CoveredGrows(v, u);
    }
  }

  lemma CallAdvances(w: World, p: Pos)
    requires InTable(STAGES, p) && At(w, p)
    ensures Advances(w, p, CallStep(w, ContextOf(STAGES, p)))
  {
    Table();
    match p {
      case Pos(0, j) => if j == 0 { CallValidate(w); } else if j == 1 { CallTopUp(w); } else { CallWaitingTopUp(w); }
      case Pos(1, _) => CallSending(w);
      case Pos(_, j) =>
        if j == 0 { CallFirstConfirmation(w); } else if j == 1 { CallConfirmations(w); } else { CallSuccess(w); }
    }
  }

  lemma InvFollows(a: Driver<World>, r: Reply<World>)
    requires Inv(a) && a.phase == Live && r == ReplyAt(MACHINE, a) && Advances(a.world, a.pos, r)
    ensures ForwardAt(MACHINE, a) && Inv(DriveStep(MACHINE, a)) && SameTransfer(a.world, DriveStep(MACHINE, a).world)
  {
    if r.outcome == Done {
      InvGoesOn(a, r);
    } else {
      InvHalts(a, r);
    }
  }

  lemma InvGoesOn(a: Driver<World>, r: Reply<World>)
    requires Inv(a) && a.phase == Live && r == ReplyAt(MACHINE, a) && Advances(a.world, a.pos, r) && r.outcome == Done
    ensures ForwardAt(MACHINE, a) && Inv(DriveStep(MACHINE, a)) && SameTransfer(a.world, DriveStep(MACHINE, a).world)
  {
    hide CallStep, ReplyAt, DriveStep, At;
    Table();
    PlainStep(MACHINE, a);
    Targets(a.pos, r);
  }

  ghost predicate RetriedOrFailed(a: Driver<World>, w: World, b: Driver<World>) {
    || (b.phase == Live && b.pos == a.pos && b.world == w)
    || (b.phase == Aborted && b.world == StoreStatus(w, StatusFailed))
  }

  lemma Reacts(a: Driver<World>, r: Reply<World>, e: Error)
    requires a.phase == Live && InTable(STAGES, a.pos) && r == ReplyAt(MACHINE, a) && r.outcome == Err(e) &&
             e != ExitWorkflow
    ensures RetriedOrFailed(a, r.world, DriveStep(MACHINE, a))
  {
    Table();
    PlainStep(MACHINE, a);
    var c := ContextOf(STAGES, a.pos);
    assert MACHINE.onFailure(r.world, c.currentStage, c.currentStep, e)
           == OnFailure(r.world, c.currentStage, c.currentStep, e);
  }

  /** The step is retried, or the failure is stored and the workflow failed. */
  lemma Halts(a: Driver<World>, r: Reply<World>)
    requires a.phase == Live && InTable(STAGES, a.pos) && r == ReplyAt(MACHINE, a)
    requires r.outcome == Died || r.outcome == Err(Plain) || r.outcome == Err(FailedTransfer)
    ensures RetriedOrFailed(a, r.world, DriveStep(MACHINE, a))
  {
    if r.outcome.Err? {
      Reacts(a, r, r.outcome.error);
    } else {
      Table();
      PlainStep(MACHINE, a);
    }
  }

  lemma InvAfter(a: Driver<World>, w: World, b: Driver<World>)
    requires InTable(STAGES, a.pos) && At(w, a.pos) && RetriedOrFailed(a, w, b)
    ensures Inv(b) && SameTransfer(w, b.world)
  {
    if b.phase == Aborted {
      AtIsSafe(w, a.pos);
      FailedIsSafe(w);
      assert b.world.history[|w.history|] == StatusFailed;
    }
  }

  lemma InvHalts(a: Driver<World>, r: Reply<World>)
    requires Inv(a) && a.phase == Live && r == ReplyAt(MACHINE, a) && Advances(a.world, a.pos, r) && r.outcome != Done
    ensures ForwardAt(MACHINE, a) && Inv(DriveStep(MACHINE, a)) && SameTransfer(a.world, DriveStep(MACHINE, a).world)
  {
    Table();
    FailsForward(MACHINE, a);
    Halts(a, r);
    InvAfter(a, r.world, DriveStep(MACHINE, a));
  }

  lemma InvStep(a: Driver<World>)
    requires Inv(a) && a.phase == Live
    ensures ForwardAt(MACHINE, a) && Inv(DriveStep(MACHINE, a)) && SameTransfer(a.world, DriveStep(MACHINE, a).world)
  {
    hide CallStep, At, Advances, DriveStep;
    CallAdvances(a.world, a.pos);
    InvFollows(a, ReplyAt(MACHINE, a));
  }

  lemma InvGoesOnward(a: Driver<World>)
    requires Inv(a)
    ensures ForwardAt(MACHINE, a)
    ensures Inv(DriveStep(MACHINE, a)) && SameTransfer(a.world, DriveStep(MACHINE, a).world)
  {
    hide DriveStep, CallStep, At;
    if a.phase == Live {
      InvStep(a);
    } else {
      assert DriveStep(MACHINE, a) == a by {
        StopsMoving(MACHINE, a);
      }
    }
  }

  lemma InvStarts(w: World)
    requires w == Begin(w.minConfirmations, w.request, w.tape)
    ensures Inv(Start(MACHINE, w))
  {
    Table();
  }

  lemma {:induction false} InvDrive(w: World, n: nat)
    requires w == Begin(w.minConfirmations, w.request, w.tape)
    ensures ForwardAt(MACHINE, Drive(MACHINE, Start(MACHINE, w), n)) && Inv(Drive(MACHINE, Start(MACHINE, w), n))
    ensures SameTransfer(w, Drive(MACHINE, Start(MACHINE, w), n).world)
  {
    hide CallStep, At, DriveStep, Inv;
    if n == 0 {
      InvStarts(w);
    } else {
      InvDrive(w, n - 1);
      InvGoesOnward(Drive(MACHINE, Start(MACHINE, w), n - 1));
    }
    InvGoesOnward(Drive(MACHINE, Start(MACHINE, w), n));
  }

  lemma AlwaysGoesForward(w: World)
    requires w == Begin(w.minConfirmations, w.request, w.tape)
    ensures AlwaysForward(MACHINE, Start(MACHINE, w))
  {
    forall n: nat ensures ForwardAt(MACHINE, Drive(MACHINE, Start(MACHINE, w), n)) {
      InvDrive(w, n);
    }
  }

  lemma InvIsSafe(b: Driver<World>)
    requires Inv(b)
    ensures Safe(b.world)
    ensures b.phase == Live ==> StatusFailed !in b.world.history && StatusCompleted !in b.world.history
  {
    if b.phase == Live {
      AtIsSafe(b.world, b.pos);
    } else if b.phase == Finished {
      FindsSent(b.world);
    }
  }

  /** After any number of runs, whatever was answered and wherever the process died: nothing was
      broadcast unless the request passed the validation, and no top-up unless the processing wallet
      covered it; but for the broadcasts right after which the process died, each with another answer,
      at most one top-up and one transfer were broadcast, and the recorded rows are these; a transfer
      was broadcast only if no top-up was needed or the top-up was seen successful with a confirmation;
      statuses moved forward only; a transfer completed only if the explorer showed the transaction sent
      for it as successful with enough confirmations; and once it failed or completed no run calls a
      step, sends anything or stores a status again. */
  lemma EvmSafety(minConfirmations: nat, request: Request, tape: nat -> Answer, k: nat)
    ensures var s := Runs(MACHINE, Fresh(Begin(minConfirmations, request, tape)), k);
            && Safe(s.world) && s.world.minConfirmations == minConfirmations && s.world.request == request &&
               s.world.tape == tape
            && (StatusFailed in s.world.history || StatusCompleted in s.world.history ==> RunOnce(MACHINE, s) == s)
            && NeverRepeats(s.log)
  {
    Table();
    TableIsDistinct();
    var w := Begin(minConfirmations, request, tape);
    AlwaysGoesForward(w);
    var n, j := RunsRefineDriver(MACHINE, w, k);
    InvDrive(w, n);
    var b := Drive(MACHINE, Start(MACHINE, w), n);
    InvIsSafe(b);
    var s := Runs(MACHINE, Fresh(w), k);
    if b.phase != Live {
      StoppedStays(MACHINE, s);
    }
  }
}
