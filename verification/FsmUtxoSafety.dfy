/** What holds of a UTXO transfer after any number of runs, whatever the node and the explorer answer. */
module FsmUtxoSafety {
  import opened Wrappers
  import opened Engine
  import opened Resumption
  import opened Simulation
  import opened History
  import opened Transfers
  import opened FsmUtxo

  /** The statuses of a transfer that succeeds, in order. */
  const ORDER := [StatusProcessing, StatusInMempool, StatusUnconfirmed, StatusCompleted]

  const DONE := Pos(3, 0)

  /** How many of the statuses in `ORDER` are stored before the step at `p` runs. */
  function Progress(p: Pos): nat {
    if p.stage == 0 then 0
    else if p.stage == 1 then 1
    else if p.step == 0 then 1
    else if p.step == 1 then 2
    else 3
  }

  /** The process died right after each of these broadcasts. */
  predicate AllLost(sends: seq<Send>) {
    forall k :: 0 <= k < |sends| ==> sends[k].lost
  }

  /** All broadcasts but the last were lost. */
  predicate LostBefore(sends: seq<Send>) {
    sends != [] ==> AllLost(sends[..|sends| - 1])
  }

  /** A broadcast is lost only when an answer says so. */
  ghost predicate LostByDeath(w: World) {
    (exists k :: 0 <= k < |w.sends| && w.sends[k].lost) ==> exists j :: 0 <= j < w.read && w.tape(j).death.DiesSent?
  }

  predicate SentAs(w: World) {
    && w.txHash.Some? && w.sends != [] && LostBefore(w.sends)
    && w.sends[|w.sends| - 1] == Send(w.txHash.value, Accepted, false)
  }

  /** The explorer showed the transaction of the transfer with enough confirmations. */
  ghost predicate ConfirmedEnough(w: World) {
    exists k :: 0 <= k < |w.sights| && w.sights[k].hash == w.txHash &&
      w.sights[k].confirmations >= w.config.minConfirmations
  }

  /** The transfer failed before or while it was sent. */
  predicate FailedEarly(history: seq<TransferStatus>) {
    history == [StatusFailed] || history == [StatusProcessing, StatusFailed]
  }

  /** The request passed the validation: it names addresses, takes the whole amount, and from a hot
      wallet it goes to a cold or processing wallet of the same owner. */
  ghost predicate Checked(w: World) {
    && w.request.fromAddresses >= 1 && w.request.toAddresses == 1 && w.request.wholeAmount
    && (w.request.fromHotWallet ==> exists k :: 0 <= k < w.read && w.tape(k).wallet == ColdOrProcessing(true))
  }

  /** The limit of the request, if it sets one, allows the rate: its own if it sets one, else five on
      the test network and the configured one on the main network. */
  predicate RateAllowed(w: World) {
    w.request.feeMax.Some? && w.request.feeMax.value > 0 ==>
      match w.request.fee
      case Some(rate) =>
        if rate > 0 then rate <= w.request.feeMax.value
        else if w.config.testnet then 5 <= w.request.feeMax.value else w.config.feePerByte <= w.request.feeMax.value
      case None =>
        if w.config.testnet then 5 <= w.request.feeMax.value else w.config.feePerByte <= w.request.feeMax.value
  }

  /** What holds of the world when the step at `p` is next, or all of them are done. */
  ghost predicate At(w: World, p: Pos) {
    && w.history == (if p == DONE then ORDER else ORDER[..Progress(p)])
    && (if p.stage == 0 then w.sends == [] else if p.stage == 1 then AllLost(w.sends) else SentAs(w))
    && LostByDeath(w) && (w.sends != [] ==> RateAllowed(w))
    && (p.stage >= 1 ==> Checked(w))
    && (p == Pos(2, 3) || p == DONE ==> ConfirmedEnough(w))
  }

  /** A failure is stored only when nothing was accepted, as far as the process lived to know. */
  ghost predicate NothingAccepted(w: World) {
    && LostBefore(w.sends) && LostByDeath(w) && (w.sends != [] ==> Checked(w) && RateAllowed(w))
    && forall k :: 0 <= k < |w.sends| && !w.sends[k].lost ==> w.sends[k].result != Accepted
  }

  ghost predicate Inv(a: Driver<World>) {
    match a.phase
    case Live => InTable(STAGES, a.pos) && At(a.world, a.pos)
    case Finished => At(a.world, DONE)
    case Aborted => FailedEarly(a.world.history) && NothingAccepted(a.world)
    case Redirected(_, _, _) => false
  }

  lemma Table()
    ensures |STAGES| == 3 && |STAGES[0].steps| == 1 && |STAGES[1].steps| == 1 && |STAGES[2].steps| == 4
    ensures Plainly(STAGES)
  {
  }

  lemma TableIsDistinct()
    ensures Distinct(STAGES)
  {
    Table();
  }

  lemma Prefixes()
    ensures ORDER[..0] == [] && ORDER[..1] == [StatusProcessing] && ORDER[..2] == [StatusProcessing, StatusInMempool]
    ensures ORDER[..2] + [StatusUnconfirmed] == ORDER[..3] && ORDER[..3] + [StatusCompleted] == ORDER
    ensures [] + [StatusFailed] == [StatusFailed]
    ensures [StatusProcessing] + [StatusFailed] == [StatusProcessing, StatusFailed]
  {
  }

  function Next(p: Pos): Pos {
    if p == Pos(0, 0) then Pos(1, 0) else if p == Pos(1, 0) then Pos(2, 0) else if p == Pos(2, 3) then DONE
    else Pos(p.stage, p.step + 1)
  }

  lemma Targets(p: Pos)
    requires InTable(STAGES, p)
    ensures Target(STAGES, p, None, None) == Next(p)
  {
    Table();
  }

  ghost predicate SameSetup(w: World, v: World) {
    v.config == w.config && v.request == w.request && v.tape == w.tape
  }

  /** The only replies of a step: it succeeds and what is promised of the next step holds, or it
      fails with an ordinary error. */
  ghost predicate Advances(w: World, p: Pos, r: Reply<World>) {
    && Quiet(r) && SameSetup(w, r.world)
    && match r.outcome
       case Done => At(r.world, Next(p))
       case Err(e) => e == Plain && if p.stage < 2 then r.world.history == w.history && NothingAccepted(r.world)
         else At(r.world, p)
       case Died => At(r.world, p)
  }

  lemma CallBeforeSent(w: World, p: Pos)
    requires InTable(STAGES, p) && p.stage < 2 && At(w, p)
    ensures Advances(w, p, CallStep(w, ContextOf(STAGES, p)))
  {
    Table();
    Prefixes();
    if p.stage == 1 {
      SendAdvances(w);
    }
  }

  const SENDING := Pos(1, 0)

  ghost predicate OneRead(w: World, v: World) {
    v == w.(read := w.read + 1)
  }

  lemma SendIs(w: World, v: World)
    requires InTable(STAGES, SENDING) && OneRead(w, v)
    ensures CallStep(w, ContextOf(STAGES, SENDING)) ==
            if w.tape(w.read).death.DiesFirst? then Die(v) else SendTransfer(v, w.tape(w.read))
  {
    hide SendTransfer;
  }

  /** A refusal or a death before anything was broadcast. */
  lemma SendsNone(w: World, v: World)
    requires At(w, SENDING) && OneRead(w, v)
    ensures Advances(w, SENDING, Refuse(v)) && Advances(w, SENDING, Die(v))
  {
  }

  /** A broadcast after which the process died. */
  lemma SendsLost(w: World, v: World, sent: World, a: Answer)
    requires At(w, SENDING) && OneRead(w, v) && a == w.tape(w.read) && a.death.DiesSent? && a.hash.Some?
    requires RateAllowed(w)
    requires sent == v.(txHash := a.hash, sends := v.sends + [Send(a.hash.value, a.broadcast, true)])
    ensures Advances(w, SENDING, Die(sent))
  {
    assert sent.tape(w.read).death.DiesSent?;
  }

  /** A broadcast whose result the process lived to know. */
  lemma SendsKnown(w: World, v: World, sent: World, a: Answer)
    requires At(w, SENDING) && OneRead(w, v) && a.hash.Some? && RateAllowed(w)
    requires sent == v.(txHash := a.hash, sends := v.sends + [Send(a.hash.value, a.broadcast, false)])
    ensures if a.broadcast == Accepted then Advances(w, SENDING, Succeed(sent)) else Advances(w, SENDING, Refuse(sent))
  {
    Prefixes();
    assert sent.sends[..|w.sends|] == w.sends;
  }

  lemma SendAdvances(w: World)
    requires InTable(STAGES, SENDING) && At(w, SENDING)
    ensures Advances(w, SENDING, CallStep(w, ContextOf(STAGES, SENDING)))
  {
    hide At, Advances, CallStep;
    var a, v := w.tape(w.read), w.(read := w.read + 1);
    SendIs(w, v);
    SendsNone(w, v);
    if !a.death.DiesFirst? && a.hash.Some? && RateAllowed(w) {
      var sent := v.(txHash := a.hash, sends := v.sends + [Send(a.hash.value, a.broadcast, a.death.DiesSent?)]);
      if a.death.DiesSent? {
        SendsLost(w, v, sent, a);
      } else {
        SendsKnown(w, v, sent, a);
      }
    }
  }

  /** A call after the transaction was sent broadcasts nothing. */
  ghost predicate SendsNothing(w: World, v: World) {
    v.sends == w.sends && v.txHash == w.txHash && SameSetup(w, v) && w.read <= v.read
  }

  lemma SentStays(w: World, v: World)
    requires At(w, Pos(2, 0)) || At(w, Pos(2, 1)) || At(w, Pos(2, 2)) || At(w, Pos(2, 3))
    requires SendsNothing(w, v)
    ensures SentAs(v) && LostByDeath(v) && RateAllowed(v) && Checked(v)
  {
  }

  lemma AfterSentIs(w: World, j: nat)
    requires j < 4
    ensures InTable(STAGES, Pos(2, j))
    ensures var a, v := w.tape(w.read), w.(read := w.read + 1);
            CallStep(w, ContextOf(STAGES, Pos(2, j))) ==
            if a.death.DiesFirst? then Die(v)
            else if j == 0 then WaitingInMempool(v, a)
            else if j == 1 then WaitingForTheFirstConfirmation(v, a)
            else if j == 2 then WaitingConfirmations(v, a)
            else Succeed(StoreStatus(v, StatusCompleted))
  {
    hide WaitingInMempool, WaitingForTheFirstConfirmation, WaitingConfirmations, StoreStatus;
    Table();
  }

  /** A call that stores no status and fails, dies, or leads to the next step of the same status. */
  lemma Waits(w: World, p: Pos, v: World)
    requires p.stage == 2 && p.step < 4 && At(w, p) && SendsNothing(w, v)
    requires v.history == w.history && w.sights <= v.sights
    ensures Advances(w, p, Refuse(v)) && Advances(w, p, Die(v))
    ensures p == Pos(2, 2) && ConfirmedEnough(v) ==> Advances(w, p, Succeed(v))
  {
    hide SentAs, LostByDeath, RateAllowed, Checked;
    SentStays(w, v);
  }

  /** A call that stores a status. */
  lemma Stores(w: World, p: Pos, v: World, s: TransferStatus)
    requires p.stage == 2 && p.step < 4 && p.step != 2 && At(w, p) && SendsNothing(w, v) && v.history == w.history
    requires w.sights <= v.sights
    requires s == if p.step == 0 then StatusInMempool else if p.step == 1 then StatusUnconfirmed else StatusCompleted
    ensures Advances(w, p, Succeed(StoreStatus(v, s)))
  {
    hide SentAs, LostByDeath, RateAllowed, Checked;
    Prefixes();
    SentStays(w, StoreStatus(v, s));
  }

  lemma CallAfterSent(w: World, p: Pos)
    requires InTable(STAGES, p) && p.stage == 2 && At(w, p)
    ensures Advances(w, p, CallStep(w, ContextOf(STAGES, p)))
  {
    hide At, Advances, CallStep, ContextOf;
    Table();
    AfterSentIs(w, p.step);
    var a, v := w.tape(w.read), w.(read := w.read + 1);
    var seen := LookedUp(v, a);
    Waits(w, p, v);
    Waits(w, p, seen);
    if p.step == 0 {
      Stores(w, p, v, StatusInMempool);
    } else if p.step == 1 {
      Stores(w, p, seen, StatusUnconfirmed);
    } else if p.step == 3 {
      Stores(w, p, v, StatusCompleted);
    } else if a.lookup.Listed? && a.lookup.confirmations >= w.config.minConfirmations {
      assert seen.sights[|w.sights|].confirmations >= w.config.minConfirmations;
    }
  }

  lemma InvGoesOn(a: Driver<World>, r: Reply<World>)
    requires Inv(a) && a.phase == Live && r == ReplyAt(MACHINE, a) && Advances(a.world, a.pos, r) && r.outcome == Done
    ensures ForwardAt(MACHINE, a) && Inv(DriveStep(MACHINE, a))
    ensures SameSetup(a.world, DriveStep(MACHINE, a).world)
  {
    hide CallStep, ReplyAt, At, DriveStep;
    Table();
    Targets(a.pos);
    PlainStep(MACHINE, a);
  }

  lemma FailureStored(w: World)
    requires NothingAccepted(w) && (w.history == [] || w.history == [StatusProcessing])
    ensures FailedEarly(StoreStatus(w, StatusFailed).history) && NothingAccepted(StoreStatus(w, StatusFailed))
  {
  }

  lemma BeforeSent(w: World, p: Pos)
    requires At(w, p) && p.stage < 2
    ensures w.history == [] || w.history == [StatusProcessing]
  {
    Prefixes();
  }

  lemma InvHalts(a: Driver<World>, r: Reply<World>)
    requires Inv(a) && a.phase == Live && r == ReplyAt(MACHINE, a) && Advances(a.world, a.pos, r) && r.outcome != Done
    ensures ForwardAt(MACHINE, a) && Inv(DriveStep(MACHINE, a))
    ensures SameSetup(a.world, DriveStep(MACHINE, a).world)
  {
    hide CallStep, ReplyAt, At, DriveStep, NothingAccepted, FailedEarly;
    Table();
    PlainStep(MACHINE, a);
    if r.outcome.Err? && a.pos.stage < 2 {
      BeforeSent(a.world, a.pos);
      FailureStored(r.world);
    }
  }

  lemma InvFollows(a: Driver<World>, r: Reply<World>)
    requires Inv(a) && a.phase == Live && r == ReplyAt(MACHINE, a) && Advances(a.world, a.pos, r)
    ensures ForwardAt(MACHINE, a) && Inv(DriveStep(MACHINE, a))
    ensures SameSetup(a.world, DriveStep(MACHINE, a).world)
  {
    hide CallStep, ReplyAt, At, DriveStep, Advances;
    if r.outcome == Done {
      InvGoesOn(a, r);
    } else {
      InvHalts(a, r);
    }
  }

  lemma InvStep(a: Driver<World>)
    requires Inv(a) && a.phase == Live
    ensures ForwardAt(MACHINE, a) && Inv(DriveStep(MACHINE, a))
    ensures SameSetup(a.world, DriveStep(MACHINE, a).world)
  {
    hide CallStep, At, Advances, DriveStep;
    if a.pos.stage < 2 {
      CallBeforeSent(a.world, a.pos);
    } else {
      CallAfterSent(a.world, a.pos);
    }
    InvFollows(a, ReplyAt(MACHINE, a));
  }

  lemma InvGoesOnward(a: Driver<World>)
    requires Inv(a)
    ensures ForwardAt(MACHINE, a)
    ensures Inv(DriveStep(MACHINE, a)) && SameSetup(a.world, DriveStep(MACHINE, a).world)
  {
    hide DriveStep, CallStep, At;
    if a.phase == Live {
      InvStep(a);
    } else {
      assert DriveStep(MACHINE, a) == a by {
        StopsMoving(MACHINE, a);
      }
    }
  }

  lemma InvStarts(w: World)
    requires w == Begin(w.config, w.request, w.tape)
    ensures Inv(Start(MACHINE, w))
  {
    Table();
  }

  lemma {:induction false} InvDrive(w: World, n: nat)
    requires w == Begin(w.config, w.request, w.tape)
    ensures ForwardAt(MACHINE, Drive(MACHINE, Start(MACHINE, w), n)) && Inv(Drive(MACHINE, Start(MACHINE, w), n))
    ensures SameSetup(w, Drive(MACHINE, Start(MACHINE, w), n).world)
  {
    hide CallStep, At, DriveStep, Inv;
    if n == 0 {
      InvStarts(w);
    } else {
      InvDrive(w, n - 1);
      InvGoesOnward(Drive(MACHINE, Start(MACHINE, w), n - 1));
    }
    InvGoesOnward(Drive(MACHINE, Start(MACHINE, w), n));
  }

  /** The statuses stored so far are the first ones of the order, or end in a failure that came
      before anything was broadcast. */
  predicate ForwardOnly(history: seq<TransferStatus>) {
    history <= ORDER || FailedEarly(history)
  }

  /** A broadcast was accepted, and the process lived to know. */
  predicate AnyAccepted(w: World) {
    exists k :: 0 <= k < |w.sends| && !w.sends[k].lost && w.sends[k].result == Accepted
  }

  /** The promises of a UTXO transfer. */
  ghost predicate Safe(w: World) {
    && LostBefore(w.sends) && LostByDeath(w) && (w.sends != [] ==> Checked(w) && RateAllowed(w))
    && ForwardOnly(w.history)
    && (StatusFailed in w.history ==> !AnyAccepted(w))
    && (StatusCompleted in w.history ==> SentAs(w) && ConfirmedEnough(w))
  }

  lemma InvIsSafe(b: Driver<World>)
    requires Inv(b)
    ensures Safe(b.world)
    ensures b.phase == Live ==> StatusFailed !in b.world.history && StatusCompleted !in b.world.history
  {
    if b.phase == Live {
      assert b.world.history <= ORDER[..3];
    }
  }

  lemma AlwaysGoesForward(w: World)
    requires w == Begin(w.config, w.request, w.tape)
    ensures AlwaysForward(MACHINE, Start(MACHINE, w))
  {
    forall n: nat ensures ForwardAt(MACHINE, Drive(MACHINE, Start(MACHINE, w), n)) {
      InvDrive(w, n);
    }
  }

  /** After any number of runs, whatever was answered and wherever the process died: a raw
      transaction was broadcast only for a request that passed the validation and at a rate it
      allows, and again only if the process died right after every broadcast before; statuses moved
      forward only; a transfer failed only if no broadcast whose result was known was accepted, and
      completed only if the last one was and the explorer showed enough confirmations of it; and once
      it failed or completed no run calls a step or stores a status again. */
  lemma UtxoSafety(config: Config, request: Request, tape: nat -> Answer, k: nat)
    ensures var s := Runs(MACHINE, Fresh(Begin(config, request, tape)), k);
            && Safe(s.world) && s.world.config == config && s.world.request == request && s.world.tape == tape
            && (StatusFailed in s.world.history || StatusCompleted in s.world.history ==> RunOnce(MACHINE, s) == s)
            && NeverRepeats(s.log)
  {
    Table();
    TableIsDistinct();
    var w := Begin(config, request, tape);
    AlwaysGoesForward(w);
    var n, j := RunsRefineDriver(MACHINE, w, k);
    InvDrive(w, n);
    var b := Drive(MACHINE, Start(MACHINE, w), n);
    InvIsSafe(b);
    var s := Runs(MACHINE, Fresh(w), k);
    if b.phase != Live {
      StoppedStays(MACHINE, s);
    }
  }

  /** Without a death right after a broadcast a raw transaction was broadcast at most once, and a
      transfer failed only if it was not accepted. */
  lemma UtxoSendsOnce(config: Config, request: Request, tape: nat -> Answer, k: nat)
    requires forall j :: 0 <= j ==> !tape(j).death.DiesSent?
    ensures var w := Runs(MACHINE, Fresh(Begin(config, request, tape)), k).world;
            && |w.sends| <= 1
            && (StatusFailed in w.history ==> forall i :: 0 <= i < |w.sends| ==> w.sends[i].result != Accepted)
  {
    UtxoSafety(config, request, tape, k);
    NoneLost(Runs(MACHINE, Fresh(Begin(config, request, tape)), k).world);
  }

  lemma NoneLost(w: World)
    requires Safe(w) && forall j :: 0 <= j ==> !w.tape(j).death.DiesSent?
    ensures |w.sends| <= 1
    ensures StatusFailed in w.history ==> forall i :: 0 <= i < |w.sends| ==> w.sends[i].result != Accepted
  {
    forall k | 0 <= k < |w.sends| ensures !w.sends[k].lost {
    }
    FewLost(w.sends);
  }

  lemma FewLost(sends: seq<Send>)
    requires LostBefore(sends)
    ensures |sends| > 1 ==> sends[0].lost
  {
    if |sends| > 1 {
      assert sends[..|sends| - 1][0] == sends[0];
    }
  }
}
