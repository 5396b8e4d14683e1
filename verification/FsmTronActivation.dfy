/** The activation of a wallet by burning TRX: when the wait for it is left, and what becomes of an
    activation that costs nothing. */
module FsmTronActivation {
  import opened Wrappers
  import opened Names
  import opened Engine
  import opened Resumption
  import opened Simulation
  import opened History
  import opened Transfers
  import opened FsmTron
  import opened FsmTronRouting
  import opened FsmTronCalls
  import opened FsmTronSafety

  // ------------------------------------------------------------------------ the wait

  /** The answer shows the transaction successful with its confirmations. */
  predicate Confirms(a: Answer, hash: nat) {
    !a.death.DiesFirst? && Confirmed(a, hash, SYSTEM_CONFIRMATIONS).Done?
  }

  /** The answer shows the transaction failed. */
  predicate Condemns(a: Answer, hash: nat) {
    !a.death.DiesFirst? && Confirmed(a, hash, SYSTEM_CONFIRMATIONS) == Err(FailedTransfer)
  }

  predicate Decides(a: Answer, hash: nat) {
    Confirms(a, hash) || Condemns(a, hash)
  }

  /** Of the answers from one on, the first that decides about the transaction confirms it. */
  ghost predicate ConfirmedAfter(tape: nat -> Answer, from: nat, hash: nat) {
    exists m :: from <= m && Confirms(tape(m), hash) && forall k :: from <= k < m ==> !Decides(tape(k), hash)
  }

  /** The transfer has waited for the activation for `n` answers, since the world was `w`. */
  ghost predicate WaitsAt(a: Driver<World>, w: World, n: nat) {
    && a.phase == Live && a.pos == Pos(0, 7)
    && a.world.request == w.request && a.world.tape == w.tape && a.world.read == w.read + n
    && a.world.rows == w.rows && a.world.sends == w.sends && a.world.history == w.history
  }

  predicate Decided(w: World, n: nat) {
    var txs := Recorded(w.rows, AccountActivation);
    |txs| == 1 && Decides(w.tape(w.read + n), txs[0].hash)
  }

  /** The wait was left, to go on with the transfer. */
  predicate Arrived(a: Driver<World>) {
    a.phase == Live && a.pos == Pos(0, 8)
  }

  /** One more answer: the wait goes on, or ends for the rest of the transfer or the compensation. */
  predicate GoesOn(b: Driver<World>, w: World, n: nat) {
    var txs := Recorded(w.rows, AccountActivation);
    |txs| == 1 && if Confirms(w.tape(w.read + n), txs[0].hash) then Arrived(b) else b.phase.Redirected?
  }

  ghost predicate Follows(b: Driver<World>, w: World, n: nat) {
    if Decided(w, n) then GoesOn(b, w, n) else WaitsAt(b, w, n + 1)
  }

  const WAIT := Pos(0, 7)

  lemma WaitReply(a: Driver<World>, v: World)
    requires a.pos == WAIT && v == a.world.(read := a.world.read + 1)
    ensures InTable(STAGES, WAIT)
    ensures ReplyAt(MACHINE, a) ==
            if a.world.tape(a.world.read).death.DiesFirst? then Die(v)
              else WaitingActivateWallet(v, a.world.tape(a.world.read))
  {
    hide WaitingActivateWallet;
    Table();
    ContextIs(WAIT, StepWaitingActivateWalletConfirmations);
  }

  /** Where the driver goes when the wait is answered. */
  lemma WaitLeads(a: Driver<World>, r: Reply<World>)
    requires a.phase == Live && a.pos == WAIT && InTable(STAGES, WAIT) && r == ReplyAt(MACHINE, a)
    requires r.nextStage == None && r.nextStep == None && r.outcome in {Done, Err(Plain), Err(FailedTransfer), Died}
    ensures var b := DriveStep(MACHINE, a);
            && b.world == r.world
            && (r.outcome == Err(FailedTransfer) ==> b.phase.Redirected?)
            && (r.outcome != Err(FailedTransfer) ==>
               b.phase == Live && b.pos == if r.outcome.Done? then Pos(0, 8) else WAIT)
  {
    hide CallStep, ReplyAt;
    Table();
    PlainStep(MACHINE, a);
    FatalSteps(WAIT);
    if r.outcome.Done? {
      Targets(WAIT, r);
    }
  }

  /** What the answer says, and what it leaves of the world. */
  lemma WaitAnswers(w: World, v: World, n: nat, r: Reply<World>)
    requires v.request == w.request && v.tape == w.tape && v.rows == w.rows && v.sends == w.sends &&
             v.history == w.history
    requires v.read == w.read + n + 1
    requires r == if w.tape(w.read + n).death.DiesFirst? then Die(v) else WaitingActivateWallet(v, w.tape(w.read + n))
    ensures r.nextStage == None && r.nextStep == None
    ensures var u := r.world;
            && u.request == w.request && u.tape == w.tape && u.rows == w.rows && u.sends == w.sends &&
               u.history == w.history
            && u.read == v.read
    ensures if Decided(w, n)
            then
              var hash := Recorded(w.rows, AccountActivation)[0].hash;
              r.outcome == if Confirms(w.tape(w.read + n), hash) then Done else Err(FailedTransfer)
            else r.outcome in {Err(Plain), Died}
  {
    hide Recorded;
  }

  lemma WaitsOnce(a: Driver<World>, w: World, n: nat)
    requires WaitsAt(a, w, n)
    ensures Follows(DriveStep(MACHINE, a), w, n)
  {
    hide DriveStep, ReplyAt, WaitingActivateWallet, Recorded, Confirms, Condemns;
    var v := a.world.(read := a.world.read + 1);
    var r := ReplyAt(MACHINE, a);
    WaitReply(a, v);
    WaitAnswers(w, v, n, r);
    WaitLeads(a, r);
  }

  ghost predicate Confirmable(w: World) {
    var txs := Recorded(w.rows, AccountActivation);
    |txs| == 1 && ConfirmedAfter(w.tape, w.read, txs[0].hash)
  }

  predicate Undecided(w: World, n: nat) {
    forall k :: 0 <= k < n ==> !Decided(w, k)
  }

  /** After `n` answers the transfer still waits, or was redirected, or was confirmed before. */
  ghost predicate Stands(a: Driver<World>, w: World, n: nat) {
    (WaitsAt(a, w, n) && Undecided(w, n)) || a.phase.Redirected? || Confirmable(w)
  }

  lemma ConfirmedNow(w: World, n: nat)
    requires Undecided(w, n)
    requires var txs := Recorded(w.rows, AccountActivation); |txs| == 1 && Confirms(w.tape(w.read + n), txs[0].hash)
    ensures Confirmable(w)
  {
    var hash := Recorded(w.rows, AccountActivation)[0].hash;
    forall k | w.read <= k < w.read + n ensures !Decides(w.tape(k), hash) {
      assert !Decided(w, k - w.read);
    }
    assert ConfirmedAfter(w.tape, w.read, hash);
  }

  lemma StandsOn(a: Driver<World>, b: Driver<World>, w: World, n: nat)
    requires Stands(a, w, n) && (WaitsAt(a, w, n) ==> Follows(b, w, n)) && (a.phase.Redirected? ==> b == a)
    ensures Stands(b, w, n + 1)
  {
    if WaitsAt(a, w, n) && Undecided(w, n) && Decided(w, n) && !b.phase.Redirected? {
      ConfirmedNow(w, n);
    }
  }

  /** What a machine does whose transfer waits. The proofs about many steps need no more of it. */
  ghost predicate Waits(m: Machine<World>, w: World) {
    forall a, n: nat {:trigger Follows(DriveStep(m, a), w, n)} :: WaitsAt(a, w, n) ==> Follows(DriveStep(m, a), w, n)
  }

  lemma {:induction false} StandsAfter(m: Machine<World>, a: Driver<World>, w: World, n: nat)
    requires Waits(m, w) && WaitsAt(a, w, 0)
    ensures Stands(Drive(m, a, n), w, n)
  {
    if n > 0 {
      var c := Drive(m, a, n - 1);
      StandsAfter(m, a, w, n - 1);
      assert WaitsAt(c, w, n - 1) ==> Follows(DriveStep(m, c), w, n - 1);
      StandsOn(c, DriveStep(m, c), w, n - 1);
    }
  }

  /** As long as no answer decides, the transfer waits. */
  lemma {:induction false} WaitsOn(m: Machine<World>, a: Driver<World>, w: World, n: nat)
    requires Waits(m, w) && WaitsAt(a, w, 0) && Undecided(w, n)
    ensures WaitsAt(Drive(m, a, n), w, n)
  {
    if n > 0 {
      var c := Drive(m, a, n - 1);
      WaitsOn(m, a, w, n - 1);
      assert Follows(DriveStep(m, c), w, n - 1);
    }
  }

  lemma Confirmation(w: World) returns (n: nat)
    requires Confirmable(w)
    ensures Undecided(w, n) && Decided(w, n) &&
            Confirms(w.tape(w.read + n), Recorded(w.rows, AccountActivation)[0].hash)
  {
    var hash := Recorded(w.rows, AccountActivation)[0].hash;
    var m :| w.read <= m && Confirms(w.tape(m), hash) && forall k :: w.read <= k < m ==> !Decides(w.tape(k), hash);
    n := m - w.read;
  }

  ghost predicate EverArrives(m: Machine<World>, a: Driver<World>) {
    exists n: nat {:trigger Arrived(Drive(m, a, n))} :: Arrived(Drive(m, a, n))
  }

  lemma WaitIsLeft(m: Machine<World>, a: Driver<World>, w: World)
    requires Waits(m, w) && WaitsAt(a, w, 0) && Confirmable(w)
    ensures EverArrives(m, a)
  {
    hide DriveStep;
    var n := Confirmation(w);
    var c := Drive(m, a, n);
    WaitsOn(m, a, w, n);
    assert Follows(DriveStep(m, c), w, n);
    assert Drive(m, a, n + 1) == DriveStep(m, c);
    assert Arrived(Drive(m, a, n + 1));
  }

  /** The wait is left for the rest of the transfer if and only if one activation is recorded and
      the first answer that decides about it confirms it. */
  lemma WaitEndsIff(m: Machine<World>, a: Driver<World>, w: World)
    requires Waits(m, w) && WaitsAt(a, w, 0)
    ensures EverArrives(m, a) <==> Confirmable(w)
  {
    if Confirmable(w) {
      WaitIsLeft(m, a, w);
    } else if EverArrives(m, a) {
      var n: nat :| Arrived(Drive(m, a, n));
      StandsAfter(m, a, w, n);
      assert false;
    }
  }

  /** One step, then the rest. */
  lemma DriveOneMore(m: Machine<World>, a: Driver<World>, n: nat)
    ensures Drive(m, a, n + 1) == Drive(m, DriveStep(m, a), n)
  {
    DriveOne(m, a);
    DriveSplit(m, a, 1, n);
  }

  // -------------------------------------------------------------------- the activation

  /** The activation by burning succeeds. */
  ghost predicate BurningSucceeds(a: Driver<World>) {
    Inv(a) && a.phase == Live && a.pos == Pos(0, 6) && ReplyAt(MACHINE, a).outcome.Done?
  }

  /** What is recorded of activations once the one by burning succeeded: nothing more if it was free. */
  function ActivatedWith(w: World): seq<Tx> {
    var a := w.tape(w.read);
    Recorded(w.rows, AccountActivation) +
    if a.feeIsZero || a.hash.None? then [] else [Tx(AccountActivation, a.hash.value)]
  }

  /** The wait that follows an activation. */
  ghost predicate WaitsAfter(a: Driver<World>, b: Driver<World>) {
    && WaitsAt(b, b.world, 0) && b.world.tape == a.world.tape && b.world.read == a.world.read + 1
    && b.world.history == a.world.history && Recorded(b.world.rows, AccountActivation) == ActivatedWith(a.world)
    && (a.world.tape(a.world.read).feeIsZero ==> b.world.sends == a.world.sends)
  }

  /** The world after an activation that succeeds. */
  function Activated(w: World): World {
    var a, v := w.tape(w.read), w.(read := w.read + 1);
    if a.feeIsZero || a.hash.None? then v else Broadcasted(v, a, AccountActivation, AccountActivation, [a.hash.value])
  }

  lemma BurningReplies(w: World, r: Reply<World>)
    requires InTable(STAGES, Pos(0, 6)) && r == CallStep(w, ContextOf(STAGES, Pos(0, 6))) && r.outcome.Done?
    ensures r == Succeed(Activated(w)) && !(w.tape(w.read).death.DiesSent? && !w.tape(w.read).feeIsZero)
    ensures !w.tape(w.read).feeIsZero ==> w.tape(w.read).hash.Some?
  {
    hide Recorded, Broadcasted;
    ContextIs(Pos(0, 6), StepActivateWalletBurnTRX);
  }

  lemma ActivatedIs(w: World)
    requires var a := w.tape(w.read); !a.feeIsZero ==> !a.death.DiesSent? && a.hash.Some?
    ensures Recorded(Activated(w).rows, AccountActivation) == ActivatedWith(w)
  {
    hide Recorded;
    var a := w.tape(w.read);
    if !a.feeIsZero {
      BroadcastRecords(w.(read := w.read + 1), a, AccountActivation, [a.hash.value]);
      assert Txs(AccountActivation, [a.hash.value]) == [Tx(AccountActivation, a.hash.value)];
    }
  }

  /** A success that jumps as the table allows leads to its goal. */
  lemma GoesBy(a: Driver<World>, r: Reply<World>)
    requires a.phase == Live && InTable(STAGES, a.pos) && a.pos.stage < 3 && a.pos != Pos(2, 5)
    requires r == ReplyAt(MACHINE, a) && r.outcome.Done? && JumpOk(a.pos, r) && Goal(a.pos, r).stage < 3
    ensures var b := DriveStep(MACHINE, a); b.phase == Live && b.pos == Goal(a.pos, r) && b.world == r.world
  {
    Table();
    PlainStep(MACHINE, a);
    Targets(a.pos, r);
  }

  lemma BurningActivates(a: Driver<World>)
    requires BurningSucceeds(a)
    ensures WaitsAfter(a, DriveStep(MACHINE, a))
  {
    hide Recorded, At;
    var r := ReplyAt(MACHINE, a);
    BurningReplies(a.world, r);
    ActivatedIs(a.world);
    GoesBy(a, r);
  }

  lemma TronWaits(w: World)
    ensures Waits(MACHINE, w)
  {
    forall a, n: nat | WaitsAt(a, w, n) ensures Follows(DriveStep(MACHINE, a), w, n) {
      WaitsOnce(a, w, n);
    }
  }

  /** One activation is recorded, and the first answer that decides about it confirms it. */
  ghost predicate ConfirmedOnce(w: World) {
    var txs := ActivatedWith(w);
    |txs| == 1 && ConfirmedAfter(w.tape, w.read + 1, txs[0].hash)
  }

  lemma LeftIff(m: Machine<World>, a: Driver<World>, b: Driver<World>)
    requires WaitsAfter(a, b) && Waits(m, b.world)
    ensures EverArrives(m, b) <==> ConfirmedOnce(a.world)
  {
    hide Recorded;
    WaitEndsIff(m, b, b.world);
  }

  /** If the process did not die right after an activation before, there is one recorded exactly if
      it was not free. */
  lemma UndisturbedIff(a: Driver<World>)
    requires BurningSucceeds(a) && a.world.deaths[AccountActivation] == 0
    ensures var answer := a.world.tape(a.world.read);
            ConfirmedOnce(a.world) <==>
            !answer.feeIsZero && answer.hash.Some? && ConfirmedAfter(a.world.tape, a.world.read + 1, answer.hash.value)
  {
    hide Recorded;
    assert Count(a.world, AccountActivation) == 0;
  }

  /** When the activation by burning succeeded, the transfer gets past the wait for it if and only
      if there is one recorded activation then and the first answer that decides about it shows it
      successful with three confirmations. Unless the process died right after an activation
      before, this is so if and only if the activation is not free and confirmed: a free one asks
      for a jump past the wait, but sets it on the step instead of the workflow, and so waits for a
      transaction there is none of. */
  lemma ActivationLeftIff(a: Driver<World>)
    requires BurningSucceeds(a)
    ensures EverArrives(MACHINE, DriveStep(MACHINE, a)) <==> ConfirmedOnce(a.world)
    ensures var answer := a.world.tape(a.world.read);
            a.world.deaths[AccountActivation] == 0 ==>
              (EverArrives(MACHINE, DriveStep(MACHINE, a)) <==>
               !answer.feeIsZero && answer.hash.Some? &&
                 ConfirmedAfter(a.world.tape, a.world.read + 1, answer.hash.value))
  {
    hide Recorded, ConfirmedOnce, BurningSucceeds;
    var b := DriveStep(MACHINE, a);
    BurningActivates(a);
    TronWaits(b.world);
    LeftIff(MACHINE, a, b);
    if a.world.deaths[AccountActivation] == 0 {
      UndisturbedIff(a);
    }
  }

  lemma SticksOn(m: Machine<World>, a: Driver<World>, b: Driver<World>, n: nat)
    requires WaitsAfter(a, b) && a.world.tape(a.world.read).feeIsZero && Waits(m, b.world) && b == DriveStep(m, a)
    requires Count(a.world, AccountActivation) != 1
    ensures WaitsAt(Drive(m, a, n + 1), b.world, n)
  {
    hide Recorded;
    WaitsOn(m, b, b.world, n);
    DriveOneMore(m, a, n);
  }

  /** After a free activation, with none recorded before, the transfer neither goes on nor fails,
      however long it is retried. */
  lemma FreeActivationSticks(a: Driver<World>, n: nat)
    requires BurningSucceeds(a) && a.world.tape(a.world.read).feeIsZero && Count(a.world, AccountActivation) != 1
    ensures var b := Drive(MACHINE, a, n + 1);
            b.phase == Live && b.pos == Pos(0, 7) && b.world.sends == a.world.sends &&
              b.world.history == a.world.history
  {
    hide Recorded;
    BurningActivates(a);
    TronWaits(DriveStep(MACHINE, a).world);
    SticksOn(MACHINE, a, DriveStep(MACHINE, a), n);
  }

  // ------------------------------------------------------------- a transfer that sticks

  /** A token transfer from a hot wallet that is not active, with burning configured. */
  const REQUEST := Request(1, 1, true, false, HotWallet, Some(BurnTRX), true, false, false, 1)

  /** Everything is at hand, the wallet is not active, and its activation costs nothing. */
  const ANSWER := Answer(Lives, ColdOrProcessing(true), Some(false), true, true, true, Some(1), true, NotNeeded,
    NotNeeded, false,
                         NotDelegated, NotDelegated, [], hash => Found(true, SYSTEM_CONFIRMATIONS), true, false,
                         OrderPending, OrderPending, OrderPending)

  const TAPE: nat -> Answer := n => ANSWER

  function Way(n: nat): Driver<World> {
    Drive(MACHINE, Start(MACHINE, Begin(REQUEST, TAPE)), n)
  }

  ghost predicate OnWay(a: Driver<World>, n: nat) {
    && a.phase == Live && a.world.request == REQUEST && a.world.tape == TAPE && a.world.sends == [] &&
       a.world.rows == []
    && a.pos == (if n < 3 then Pos(0, n) else if n == 3 then Pos(0, 6) else Pos(0, 7))
    && a.world.history == if n == 0 then [] else [StatusProcessing]
  }

  predicate Silent(a: Driver<World>) {
    a.phase == Live && a.world.sends == [] && a.world.history <= [StatusProcessing]
  }

  /** What the first three steps reply on the way. */
  function WayReply(w: World, n: nat): Reply<World> {
    var v := w.(read := w.read + 1);
    if n == 0 then Succeed(StoreStatus(v, StatusProcessing))
    else if n == 1 then GoTo(v, StepBeforeActivationCheckTransferKind)
    else GoTo(v, StepActivateWalletBurnTRX)
  }

  lemma WayReplies(a: Driver<World>, n: nat)
    requires n < 3 && OnWay(a, n)
    ensures InTable(STAGES, a.pos) && ReplyAt(MACHINE, a) == WayReply(a.world, n)
  {
    Table();
    ContextIs(a.pos, if n == 0 then StepValidateRequest
                     else if n == 1 then StepCheckActivateWallet
                     else StepBeforeActivationCheckTransferKind);
  }

  lemma OnWayNext(a: Driver<World>, b: Driver<World>, n: nat)
    requires n < 3 && OnWay(a, n) && b.phase == Live
    requires b.pos == Goal(a.pos, WayReply(a.world, n)) && b.world == WayReply(a.world, n).world
    ensures OnWay(b, n + 1)
  {
  }

  lemma NextOnWay(a: Driver<World>, n: nat)
    requires n < 3 && OnWay(a, n)
    ensures OnWay(DriveStep(MACHINE, a), n + 1)
  {
    WayReplies(a, n);
    GoesBy(a, WayReply(a.world, n));
    OnWayNext(a, DriveStep(MACHINE, a), n);
  }

  lemma WayOn(n: nat)
    requires n < 3 && OnWay(Way(n), n)
    ensures OnWay(Way(n + 1), n + 1)
  {
    NextOnWay(Way(n), n);
  }

  /** The transfer gets to the activation, which succeeds for free. */
  lemma FreeActivationIsReached() returns (k: nat)
    ensures BurningSucceeds(Way(k)) && Way(k).world.tape(Way(k).world.read).feeIsZero && Way(k).world.rows == []
    ensures forall n {:trigger Way(n)} :: 0 <= n <= k ==> Silent(Way(n))
  {
    Table();
    WayOn(0);
    WayOn(1);
    WayOn(2);
    InvDrive(Begin(REQUEST, TAPE), 3);
    BurnsFree(Way(3));
    k := 3;
    forall n {:trigger Way(n)} | 0 <= n <= k ensures Silent(Way(n)) {
      assert n == 0 || n == 1 || n == 2 || n == 3;
    }
  }

  lemma BurnsFree(a: Driver<World>)
    requires OnWay(a, 3)
    ensures InTable(STAGES, a.pos) && ReplyAt(MACHINE, a).outcome.Done?
  {
    Table();
    ContextIs(Pos(0, 6), StepActivateWalletBurnTRX);
  }

  lemma SilentAfter(m: Machine<World>, s: Driver<World>, k: nat, n: nat)
    requires n >= k && Silent(Drive(m, Drive(m, s, k), n - k))
    ensures Silent(Drive(m, s, n))
  {
    DriveSplit(m, s, k, n - k);
  }

  lemma SilentSticking(a: Driver<World>, k: nat)
    requires BurningSucceeds(a) && a.world.tape(a.world.read).feeIsZero && a.world.rows == [] && Silent(a)
    ensures Silent(Drive(MACHINE, a, k))
  {
    if k > 0 {
      FreeActivationSticks(a, k - 1);
    }
  }

  lemma SentNothing(n: nat)
    ensures Silent(Way(n))
  {
    var k := FreeActivationIsReached();
    if n > k {
      SilentSticking(Way(k), n - k);
      SilentAfter(MACHINE, Start(MACHINE, Begin(REQUEST, TAPE)), k, n);
    }
  }

  /** So there is a transfer whose every answer is as good as can be, and which, after any number of
      runs, has sent nothing and is neither completed nor failed. */
  lemma FreeActivationNeverSends(k: nat)
    ensures var s := Runs(MACHINE, Fresh(Begin(REQUEST, TAPE)), k);
            s.world.sends == [] && s.world.history <= [StatusProcessing]
  {
    Table();
    TableIsDistinct();
    AlwaysGoesForward(Begin(REQUEST, TAPE));
    var n, j := RunsRefineDriver(MACHINE, Begin(REQUEST, TAPE), k);
    SentNothing(n);
  }
}
