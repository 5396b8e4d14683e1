/** What each answer makes of an EVM transfer, exactly: where it goes, when it is tried again, and when
    it fails for good. */
module FsmEvmMoves {
  import opened Names
  import opened Engine
  import opened Resumption
  import opened Simulation
  import opened History
  import opened Transfers
  import opened FsmEvm
  import opened FsmEvmSafety

  /** What becomes of a transfer at a step: the step is tried again, the transfer fails for good, or it
      goes on to a step, or to its end. */
  datatype Turn = TriesAgain | FailsForGood | GoesOn(to: Pos)

  /** The top-up is broadcast: a hot wallet sends a token, none was sent before, the balance does not
      cover the fee, and the processing wallet covers the rest and what sending it costs. */
  predicate TopsUpWith(w: World, a: Answer) {
    && w.request.fromWallet == HotWallet && !w.request.nativeAsset && w.sends == []
    && a.hash.Some? && a.accepted && a.quote.Some?
    && var q := a.quote.value;
       && q.hotBalance < q.fee
       && q.processingBalance >= q.fee - q.hotBalance && q.processingBalance - q.topUpCost >= q.fee - q.hotBalance
  }

  /** The transfer is broadcast: it was not recorded before. */
  predicate SendsWith(w: World, a: Answer) {
    && (forall k :: 0 <= k < |w.sends| ==> w.sends[k].kind != Transfer)
    && a.prepared && a.hash.Some? && a.accepted
  }

  predicate InChain(a: Answer, confirmations: nat) {
    a.lookup.Found? && a.lookup.success && a.lookup.confirmations >= confirmations && a.expensesStored
  }

  /** Waiting for a transaction to be in the chain is hopeless: an hour passed, it failed, or its
      expenses cannot be stored. */
  predicate Hopeless(a: Answer) {
    match a.lookup
    case LookupFails => a.hourOld
    case Found(success, confirmations) => !success || (confirmations >= 1 && !a.expensesStored)
  }

  /** The turn a transfer takes at each step, unless the process dies at once. */
  function TurnOf(w: World, p: Pos, a: Answer): Turn {
    var q := w.request;
    if p == Pos(0, 0) then
      if q.fromAddresses == 1 && q.toAddresses == 1 && q.assetGiven
         && (q.fromWallet == HotWallet ==> a.wallet == ColdOrProcessing(true) && (q.priceLimited ==> a.affordable))
      then GoesOn(Pos(0, 1)) else FailsForGood
    else if p == Pos(0, 1) then
      if q.fromWallet == ProcessingWallet then GoesOn(Pos(1, 0))
      else if q.fromWallet == ColdWallet then FailsForGood
      else if q.nativeAsset then GoesOn(Pos(1, 0))
      else if w.sends != [] then GoesOn(Pos(0, 2))
      else if a.quote.Some? && a.quote.value.fee <= a.quote.value.hotBalance then GoesOn(Pos(1, 0))
      else if !TopsUpWith(w, a) then FailsForGood
      else if a.death == Survives then GoesOn(Pos(0, 2)) else TriesAgain
    else if p == Pos(0, 2) then
      if InChain(a, 1) then GoesOn(Pos(1, 0)) else if Hopeless(a) then FailsForGood else TriesAgain
    else if p == Pos(1, 0) then
      if w.sends != [] && w.sends[|w.sends| - 1].kind == Transfer then GoesOn(Pos(2, 0))
      else if !SendsWith(w, a) then FailsForGood
      else if a.death == Survives then GoesOn(Pos(2, 0)) else TriesAgain
    else if p == Pos(2, 0) then
      match a.node
      case NodeFails(notFound) => if notFound && a.fiveMinutesOld then FailsForGood else TriesAgain
      case InMempool => TriesAgain
      case Mined => if InChain(a, 1) then GoesOn(Pos(2, 1)) else if Hopeless(a) then FailsForGood else TriesAgain
    else if p == Pos(2, 1) then
      if InChain(a, w.minConfirmations) then GoesOn(Pos(2, 2))
      else if a.lookup.Found? && !a.lookup.success && a.expensesStored then FailsForGood
      else TriesAgain
    else GoesOn(Pos(3, 0))
  }

  /** The status a turn stores, if it stores one. */
  function Stored(p: Pos, t: Turn): seq<TransferStatus> {
    match t
    case TriesAgain => []
    case FailsForGood => [StatusFailed]
    case GoesOn(_) =>
      if p == Pos(0, 0) then [StatusProcessing]
      else if p == Pos(2, 0) then [StatusUnconfirmed]
      else if p == Pos(2, 2) then [StatusCompleted]
      else []
  }

  /** What a call broadcasts. */
  function Outgoing(w: World, p: Pos, a: Answer): seq<Tx> {
    if p == Pos(0, 1) && TopsUpWith(w, a) then [Tx(SendBurnBaseAsset, a.hash.value)]
    else if p == Pos(1, 0) && SendsWith(w, a) then [Tx(Transfer, a.hash.value)]
    else []
  }

  /** What the turn leaves: the status it stores, and what it broadcasts, as recorded or as lost. */
  ghost predicate Leaves(w: World, p: Pos, a: Answer, t: Turn, v: World) {
    var out := Outgoing(w, p, a);
    && v.history == w.history + Stored(p, t)
    && v.sends == w.sends + (if a.death == DiesSent then [] else out)
    && v.rows == w.rows + (if a.death == DiesSent then [] else out)
    && v.lost == w.lost + (if a.death == DiesSent && out != [] then [Lost(w.read, out[0])] else [])
  }

  /** The transfer is where its turn puts it. */
  ghost predicate TakesTurn(a: Driver<World>, b: Driver<World>) {
    var w, x := a.world, a.world.tape(a.world.read);
    && Continues(w, b.world)
    && if x.death == DiesFirst then
         b.phase == Live && b.pos == a.pos && Leaves(w, Pos(9, 9), x, TriesAgain, b.world)
       else
         var t := TurnOf(w, a.pos, x);
         && Leaves(w, a.pos, x, t, b.world)
         && match t
            case TriesAgain => b.phase == Live && b.pos == a.pos
            case FailsForGood => b.phase == Aborted
            case GoesOn(to) => if to == Pos(3, 0) then b.phase == Finished else b.phase == Live && b.pos == to
  }

  // --------------------------------------------------------------- the replies, step by step

  /** The reply that a turn comes with. */
  ghost predicate Replies(w: World, p: Pos, a: Answer, r: Reply<World>) {
    var t := TurnOf(w, p, a);
    && Continues(w, r.world)
    && Leaves(w, p, a, if t == FailsForGood then TriesAgain else t, r.world)
    && match t
       case TriesAgain =>
         r.outcome == Died || (r.outcome == Err(Plain) && p != Pos(0, 0) && p != Pos(0, 1) && p != Pos(1, 0))
       case FailsForGood =>
         r.outcome == Err(FailedTransfer) ||
           (r.outcome == Err(Plain) && (p == Pos(0, 0) || p == Pos(0, 1) || p == Pos(1, 0)))
       case GoesOn(to) => r.outcome == Done && to == Goal(p, r)
  }

  lemma ValidateReplies(w: World)
    requires At(w, Pos(0, 0)) && w.tape(w.read).death != DiesFirst
    ensures Replies(w, Pos(0, 0), w.tape(w.read), CallStep(w, ContextOf(STAGES, Pos(0, 0))))
  {
    hide CallStep, ContextOf, At;
    ValidateIs(w);
  }

  lemma TopUpReplies(w: World)
    requires At(w, TOP_UP) && w.tape(w.read).death != DiesFirst
    ensures Replies(w, TOP_UP, w.tape(w.read), CallStep(w, ContextOf(STAGES, TOP_UP)))
  {
    hide CallStep, ContextOf, Recorded, LostFairly, Checked, TopUpCovered;
    FindsSent(w);
    TopUpIs(w);
  }

  lemma WaitingReplies(w: World)
    requires At(w, Pos(0, 2)) && w.tape(w.read).death != DiesFirst
    ensures Replies(w, Pos(0, 2), w.tape(w.read), CallStep(w, ContextOf(STAGES, Pos(0, 2))))
  {
    hide CallStep, ContextOf, Recorded, LostFairly, Checked, TopUpCovered;
    FindsSent(w);
    WaitingIs(w);
  }

  lemma SentReplies(w: World)
    requires At(w, SENDING) && Sent(w) && w.tape(w.read).death != DiesFirst
    ensures Replies(w, SENDING, w.tape(w.read), CallStep(w, ContextOf(STAGES, SENDING)))
  {
    hide CallStep, ContextOf, Recorded, LostFairly, Checked, TopUpCovered, Funded;
    FindsSent(w);
    SendingIs(w);
    SendingAgainIs(w, ContextOf(STAGES, SENDING));
  }

  lemma UnsentReplies(w: World)
    requires At(w, SENDING) && !Sent(w) && w.tape(w.read).death != DiesFirst
    ensures Replies(w, SENDING, w.tape(w.read), CallStep(w, ContextOf(STAGES, SENDING)))
  {
    hide CallStep, ContextOf, Recorded, LostFairly, Checked, TopUpCovered, Funded;
    FindsSent(w);
    SendingIs(w);
    NotSentYet(w);
  }

  lemma SendingReplies(w: World)
    requires At(w, SENDING) && w.tape(w.read).death != DiesFirst
    ensures Replies(w, SENDING, w.tape(w.read), CallStep(w, ContextOf(STAGES, SENDING)))
  {
    hide CallStep, ContextOf, At, Replies;
    if Sent(w) {
      SentReplies(w);
    } else {
      UnsentReplies(w);
    }
  }

  lemma NotSentYet(w: World)
    requires w.sends == [] || IsTopUp(w.sends)
    ensures forall k :: 0 <= k < |w.sends| ==> w.sends[k].kind != Transfer
  {
  }

  lemma FirstReplies(w: World)
    requires At(w, Pos(2, 0)) && w.tape(w.read).death != DiesFirst
    ensures Replies(w, Pos(2, 0), w.tape(w.read), CallStep(w, ContextOf(STAGES, Pos(2, 0))))
  {
    hide CallStep, ContextOf, At;
    ConfirmationIs(w, 0);
  }

  lemma EnoughReplies(w: World)
    requires At(w, Pos(2, 1)) && w.tape(w.read).death != DiesFirst
    ensures Replies(w, Pos(2, 1), w.tape(w.read), CallStep(w, ContextOf(STAGES, Pos(2, 1))))
  {
    hide CallStep, ContextOf, At;
    ConfirmationIs(w, 1);
  }

  lemma SuccessReplies(w: World)
    ensures InTable(STAGES, Pos(2, 2))
    ensures CallStep(w, ContextOf(STAGES, Pos(2, 2))) ==
            if w.tape(w.read).death == DiesFirst then Die(Taken(w)) else Succeed(StoreStatus(Taken(w), StatusCompleted))
  {
    hide StoreStatus;
    Table();
  }

  /** Every call replies as its turn says. */
  lemma CallReplies(w: World, p: Pos)
    requires InTable(STAGES, p) && At(w, p) && w.tape(w.read).death != DiesFirst
    ensures Replies(w, p, w.tape(w.read), CallStep(w, ContextOf(STAGES, p)))
  {
    hide CallStep, ContextOf, At, Replies;
    Table();
    match p {
      case Pos(0, j) =>
        if j == 0 {
          ValidateReplies(w);
        } else if j == 1 {
          TopUpReplies(w);
        } else {
          WaitingReplies(w);
        }
      case Pos(1, _) => SendingReplies(w);
      case Pos(_, j) =>
        if j == 0 {
          FirstReplies(w);
        } else if j == 1 {
          EnoughReplies(w);
        } else {
          CompletedReplies(w);
        }
    }
  }

  lemma CompletedReplies(w: World)
    requires w.tape(w.read).death != DiesFirst
    ensures Replies(w, Pos(2, 2), w.tape(w.read), CallStep(w, ContextOf(STAGES, Pos(2, 2))))
  {
    hide CallStep, ContextOf;
    SuccessReplies(w);
  }

  lemma DyingReplies(w: World, p: Pos)
    requires InTable(STAGES, p) && w.tape(w.read).death == DiesFirst
    ensures CallStep(w, ContextOf(STAGES, p)) == Die(Taken(w))
  {
    hide ContextOf;
  }

  // ------------------------------------------------------------------------- the driver

  /** The errors that fail a transfer for good are those of the steps up to sending, and that of a
      transfer that cannot succeed any more. */
  lemma ErrorLeads(a: Driver<World>, r: Reply<World>)
    requires a.phase == Live && InTable(STAGES, a.pos) && r == ReplyAt(MACHINE, a)
    ensures var b := DriveStep(MACHINE, a);
            && (r.outcome == Died ==> b.phase == Live && b.pos == a.pos && b.world == r.world)
            && (r.outcome == Err(FailedTransfer) ==>
               b.phase == Aborted && b.world == StoreStatus(r.world, StatusFailed))
            && (r.outcome == Err(Plain) ==>
                  if a.pos == Pos(0, 0) || a.pos == Pos(0, 1) || a.pos == Pos(1, 0)
                  then b.phase == Aborted && b.world == StoreStatus(r.world, StatusFailed)
                  else b.phase == Live && b.pos == a.pos && b.world == r.world)
  {
    hide CallStep, ReplyAt;
    Table();
    PlainStep(MACHINE, a);
  }

  lemma SuccessLeads(a: Driver<World>, r: Reply<World>)
    requires Inv(a) && a.phase == Live && r == ReplyAt(MACHINE, a) && r.outcome == Done && Advances(a.world, a.pos, r)
    ensures var b := DriveStep(MACHINE, a);
            && b.world == r.world
            && if Goal(a.pos, r) == DONE then b.phase == Finished else b.phase == Live && b.pos == Goal(a.pos, r)
  {
    hide CallStep, ReplyAt, At;
    Table();
    PlainStep(MACHINE, a);
    Targets(a.pos, r);
  }

  /** Every step of the driver takes the turn its answer says. */
  lemma EvmTurns(a: Driver<World>)
    requires Inv(a) && a.phase == Live
    ensures TakesTurn(a, DriveStep(MACHINE, a))
  {
    hide CallStep, ReplyAt, DriveStep, At, Leaves, TurnOf, Advances;
    var w, p := a.world, a.pos;
    var r := CallStep(w, ContextOf(STAGES, p));
    assert r == ReplyAt(MACHINE, a) by {
      CallIsReply(a);
    }
    CallAdvances(w, p);
    ErrorLeads(a, r);
    if w.tape(w.read).death == DiesFirst {
      DyingReplies(w, p);
      DeathLeaves(w, w.tape(w.read));
    } else {
      CallReplies(w, p);
      if r.outcome == Done {
        SuccessLeads(a, r);
      } else {
        FailureLeaves(w, p, w.tape(w.read), r.world);
      }
    }
  }

  lemma CallIsReply(a: Driver<World>)
    requires InTable(STAGES, a.pos)
    ensures ReplyAt(MACHINE, a) == CallStep(a.world, ContextOf(STAGES, a.pos))
  {
  }

  lemma DeathLeaves(w: World, x: Answer)
    ensures Leaves(w, Pos(9, 9), x, TriesAgain, Taken(w)) && Continues(w, Taken(w))
  {
  }

  lemma FailureLeaves(w: World, p: Pos, x: Answer, v: World)
    requires Leaves(w, p, x, TriesAgain, v)
    ensures Leaves(w, p, x, FailsForGood, StoreStatus(v, StatusFailed))
  {
  }

  // ------------------------------------------------------------- when a transfer is over

  /** The call ended with the error of a transfer that cannot succeed, or with any error before the
      transfer was sent, but for the wait for its top-up. */
  predicate EndsFailing(c: Call) {
    || c.outcome == Err(FailedTransfer)
    || (c.outcome == Err(Plain) &&
        (c.context.step == StepValidateRequest || c.context.step == StepSendBaseAssetForBurn ||
          c.context.step == StepSending))
  }

  predicate EndsWell(c: Call) {
    c.outcome == Done && c.context.step == StepSendSuccessEvent
  }

  predicate OverBy(log: seq<Call>, history: seq<TransferStatus>) {
    && (StatusFailed in history <==> log != [] && EndsFailing(log[|log| - 1]))
    && (StatusCompleted in history <==> log != [] && EndsWell(log[|log| - 1]))
  }

  /** The driver is over exactly by its last call, and used one answer for each. */
  ghost predicate Counted(a: Driver<World>) {
    && |a.log| == a.world.read && OverBy(a.log, a.world.history)
    && (a.phase == Live <==> StatusFailed !in a.world.history && StatusCompleted !in a.world.history)
  }

  lemma StepNameIs(p: Pos)
    requires InTable(STAGES, p)
    ensures var step := ContextOf(STAGES, p).step;
            && (p == Pos(0, 0) <==> step == StepValidateRequest) &&
               (p == Pos(0, 1) <==> step == StepSendBaseAssetForBurn)
            && (p == Pos(1, 0) <==> step == StepSending) && (p == Pos(2, 2) <==> step == StepSendSuccessEvent)
  {
    Table();
  }

  /** The status a call stores tells how it ended. */
  lemma CallEnds(w: World, p: Pos)
    requires InTable(STAGES, p) && At(w, p)
    ensures var x, o := w.tape(w.read), CallStep(w, ContextOf(STAGES, p)).outcome;
            var stored := if x.death == DiesFirst then [] else Stored(p, TurnOf(w, p, x));
            && (StatusFailed in stored <==>
                  o == Err(FailedTransfer) || (o == Err(Plain) && (p == Pos(0, 0) || p == Pos(0, 1) || p == Pos(1, 0))))
            && (StatusCompleted in stored <==> o == Done && p == Pos(2, 2))
  {
    hide CallStep, At, Leaves, TurnOf, ContextOf, Outgoing;
    Table();
    if w.tape(w.read).death == DiesFirst {
      DyingReplies(w, p);
    } else {
      CallReplies(w, p);
    }
  }

  /** A driver that used one more answer and made one more call. */
  lemma CountsOn(a: Driver<World>, b: Driver<World>, c: Call, stored: seq<TransferStatus>)
    requires Counted(a) && a.phase == Live
    requires b.log == a.log + [c] && b.world.read == a.world.read + 1 && b.world.history == a.world.history + stored
    requires StatusFailed in stored <==> EndsFailing(c)
    requires StatusCompleted in stored <==> EndsWell(c)
    requires b.phase == Live <==> StatusFailed !in stored && StatusCompleted !in stored
    ensures Counted(b)
  {
    hide EndsFailing, EndsWell;
  }

  lemma TurnEnds(a: Driver<World>, b: Driver<World>)
    requires TakesTurn(a, b) && InTable(STAGES, a.pos) && a.phase == Live
    ensures var w, x := a.world, a.world.tape(a.world.read);
            var stored := if x.death == DiesFirst then [] else Stored(a.pos, TurnOf(w, a.pos, x));
            && b.world.history == w.history + stored && b.world.read == w.read + 1
            && (b.phase == Live <==> StatusFailed !in stored && StatusCompleted !in stored)
  {
    hide Outgoing;
    Table();
  }

  lemma StepCounts(a: Driver<World>)
    requires Inv(a) && Counted(a) && a.phase == Live
    ensures Counted(DriveStep(MACHINE, a))
  {
    hide CallStep, ReplyAt, DriveStep, At, TakesTurn, TurnOf, ContextOf, Stored, Counted;
    var w, p, x := a.world, a.pos, a.world.tape(a.world.read);
    EvmTurns(a);
    InvStep(a);
    StepLogs(MACHINE, a);
    StepNameIs(p);
    CallIsReply(a);
    CallEnds(w, p);
    TurnEnds(a, DriveStep(MACHINE, a));
    var c := CallOf(p.stage, p.step, ContextOf(STAGES, p), [], ReplyAt(MACHINE, a));
    CountsOn(a, DriveStep(MACHINE, a), c, if x.death == DiesFirst then [] else Stored(p, TurnOf(w, p, x)));
  }

  lemma {:induction false} DriveCounts(w: World, n: nat)
    requires w == Begin(w.minConfirmations, w.request, w.tape)
    ensures Counted(Drive(MACHINE, Start(MACHINE, w), n))
  {
    hide CallStep, DriveStep, Counted, Inv;
    if n == 0 {
      assert Counted(Start(MACHINE, w)) by {
        StartCounts(w);
      }
    } else {
      DriveCounts(w, n - 1);
      InvDrive(w, n - 1);
      var a := Drive(MACHINE, Start(MACHINE, w), n - 1);
      if a.phase == Live {
        StepCounts(a);
      } else {
        StopsMoving(MACHINE, a);
      }
    }
  }

  lemma StartCounts(w: World)
    requires w == Begin(w.minConfirmations, w.request, w.tape)
    ensures Counted(Start(MACHINE, w))
  {
  }

  lemma OverByBare(log: seq<Call>, history: seq<TransferStatus>)
    requires OverBy(Bare(log), history)
    ensures OverBy(log, history)
  {
  }

  /** After any number of runs: a transfer is stored as failed if and only if its last call ended with
      the error of a transfer that cannot succeed, or with any error while it was validated, topped up
      or sent; it is stored as completed if and only if its last call is the success event. So a
      transfer that waits is never failed by an error that may pass. */
  lemma OverIff(minConfirmations: nat, request: Request, tape: nat -> Answer, k: nat)
    ensures var s := Runs(MACHINE, Fresh(Begin(minConfirmations, request, tape)), k);
            OverBy(s.log, s.world.history) && |s.log| == s.world.read
  {
    hide CallStep, OverBy, RunOnce;
    Table();
    TableIsDistinct();
    var w := Begin(minConfirmations, request, tape);
    AlwaysGoesForward(w);
    var n, j := RunsRefineDriver(MACHINE, w, k);
    DriveCounts(w, n);
    InvDrive(w, n);
    OverByBare(Runs(MACHINE, Fresh(w), k).log, Drive(MACHINE, Start(MACHINE, w), n).world.history);
  }
}
