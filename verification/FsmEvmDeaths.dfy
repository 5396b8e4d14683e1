/** What an EVM transfer does after its process died right after a broadcast. The sending step looks
    for a row before it sends, so what was recorded is never sent again; but a broadcast whose row was
    not committed leaves nothing to find. */
module FsmEvmDeaths {
  import opened Wrappers
  import opened Engine
  import opened Resumption
  import opened Transfers
  import opened FsmEvm
  import opened FsmEvmSafety

  // ---------------------------------------------------------------- what was recorded

  /** The transfer was sent and recorded, and nothing was sent since the world was `w`. */
  ghost predicate SentOnly(a: Driver<World>, w: World) {
    Inv(a) && (a.phase == Live ==> Sent(a.world)) && a.world.sends == w.sends && a.world.lost == w.lost
  }

  lemma SentCalls(w: World, p: Pos)
    requires InTable(STAGES, p) && p.stage >= 1 && At(w, p) && Sent(w)
    ensures var v := CallStep(w, ContextOf(STAGES, p)).world; v.sends == w.sends && v.lost == w.lost
  {
    if p.stage == 1 {
      Table();
      SendingAgainIs(w, ContextOf(STAGES, p));
    } else if p == Pos(2, 2) {
      SuccessSends(w);
    } else {
      Table();
      ConfirmationIs(w, p.step);
    }
  }

  lemma SuccessSends(w: World)
    requires InTable(STAGES, Pos(2, 2))
    ensures var v := CallStep(w, ContextOf(STAGES, Pos(2, 2))).world; v.sends == w.sends && v.lost == w.lost
  {
    Table();
  }

  lemma SentStep(a: Driver<World>, w: World)
    requires SentOnly(a, w) && a.phase == Live
    ensures SentOnly(DriveStep(MACHINE, a), w)
  {
    hide CallStep, DriveStep, LostFairly, Checked, TopUpCovered, Funded;
    assert a.pos.stage >= 1;
    SentCalls(a.world, a.pos);
    InvStep(a);
    StepSends(a);
  }

  /** What a step of the driver sends is what its call sends. */
  lemma StepSends(a: Driver<World>)
    requires InTable(STAGES, a.pos) && a.phase == Live
    ensures var v, b := CallStep(a.world, ContextOf(STAGES, a.pos)).world, DriveStep(MACHINE, a);
            b.world.sends == v.sends && b.world.lost == v.lost && b.world.tape == v.tape && b.world.read == v.read
  {
    hide CallStep;
    Table();
    PlainStep(MACHINE, a);
  }

  /** Once the transfer is recorded nothing is broadcast any more, whatever dies. */
  lemma {:induction false} RecordedIsLast(a: Driver<World>, n: nat)
    requires Inv(a) && a.phase == Live && Sent(a.world)
    ensures SentOnly(Drive(MACHINE, a, n), a.world)
  {
    hide DriveStep, Inv;
    if n > 0 {
      RecordedIsLast(a, n - 1);
      var c := Drive(MACHINE, a, n - 1);
      if c.phase == Live {
        SentStep(c, a.world);
      } else {
        StopsMoving(MACHINE, c);
      }
    }
  }

  /** Without a death right after a broadcast none is lost: at most one top-up and one transfer were
      broadcast. */
  lemma EvmSendsOnce(minConfirmations: nat, request: Request, tape: nat -> Answer, k: nat)
    requires forall j :: tape(j).death != DiesSent
    ensures Runs(MACHINE, Fresh(Begin(minConfirmations, request, tape)), k).world.lost == []
  {
    EvmSafety(minConfirmations, request, tape, k);
    var w := Runs(MACHINE, Fresh(Begin(minConfirmations, request, tape)), k).world;
    assert w.lost != [] ==> Loses(w, w.lost[0]);
  }

  // ------------------------------------------------------------- the sending step again

  /** A transfer was broadcast and lost, and the sending step is tried again. */
  ghost predicate LostIt(a: Driver<World>) {
    Inv(a) && a.phase == Live && a.pos == SENDING && !Sent(a.world) && LostOf(a.world, Transfer)
  }

  /** Since the world was `w` the process died `n` times before the step did anything. */
  ghost predicate RetriesAt(a: Driver<World>, w: World, n: nat) {
    && LostIt(a) && a.world.tape == w.tape && a.world.read == w.read + n
    && a.world.sends == w.sends && a.world.lost == w.lost && a.world.history == w.history
  }

  /** The step sends a transaction with this answer. */
  predicate Builds(a: Answer) {
    a.death != DiesFirst && a.prepared && a.hash.Some? && a.accepted
  }

  /** Of the answers from one on, the first with which the step gets to work sends a transaction. */
  ghost predicate BuildsAfter(tape: nat -> Answer, from: nat) {
    exists m :: from <= m && Builds(tape(m)) && forall k :: from <= k < m ==> tape(k).death == DiesFirst
  }

  predicate SentAgain(b: Driver<World>, w: World) {
    |b.world.sends| + |b.world.lost| > |w.sends| + |w.lost|
  }

  predicate GaveUp(b: Driver<World>, w: World) {
    b.phase == Aborted && b.world.sends == w.sends && b.world.lost == w.lost
  }

  ghost predicate Follows(b: Driver<World>, w: World, n: nat) {
    var a := w.tape(w.read + n);
    if a.death == DiesFirst then RetriesAt(b, w, n + 1) else if Builds(a) then SentAgain(b, w) else GaveUp(b, w)
  }

  /** The replies of the sending step while no row of the transfer is recorded. */
  lemma SendingReplies(w: World)
    requires At(w, SENDING) && !Sent(w)
    ensures var a, v, r := w.tape(w.read), Taken(w), CallStep(w, ContextOf(STAGES, SENDING));
            if a.death == DiesFirst then r == Die(v)
            else if Builds(a) then |r.world.sends| + |r.world.lost| > |w.sends| + |w.lost|
            else r == Refuse(v)
  {
    hide Recorded, CallStep, Funded, LostFairly, Checked, TopUpCovered, ContextOf;
    FindsSent(w);
    SendingIs(w);
  }

  /** A death keeps the driver where it is, and an error there ends the workflow. */
  lemma SendingLeads(a: Driver<World>)
    requires a.phase == Live && a.pos == SENDING && InTable(STAGES, SENDING)
    ensures var r, b := CallStep(a.world, ContextOf(STAGES, SENDING)), DriveStep(MACHINE, a);
            && (r.outcome == Died ==> b.phase == Live && b.pos == SENDING && b.world == r.world)
            && (r.outcome == Err(Plain) ==> b.phase == Aborted && b.world == StoreStatus(r.world, StatusFailed))
  {
    hide CallStep;
    Table();
    PlainStep(MACHINE, a);
  }

  lemma RetryDies(a: Driver<World>, b: Driver<World>, w: World, n: nat)
    requires RetriesAt(a, w, n) && Inv(b) && b.phase == Live && b.pos == SENDING && b.world == Taken(a.world)
    ensures RetriesAt(b, w, n + 1)
  {
    hide Inv;
  }

  lemma RetriesOnce(a: Driver<World>, w: World, n: nat)
    requires RetriesAt(a, w, n)
    ensures Follows(DriveStep(MACHINE, a), w, n)
  {
    hide CallStep, DriveStep, At, ContextOf, RetriesAt, Sent, LostOf, Builds;
    assert LostIt(a) && a.world.tape == w.tape && a.world.read == w.read + n
           && a.world.sends == w.sends && a.world.lost == w.lost by {
      RetryIs(a, w, n);
    }
    SendingReplies(a.world);
    InvStep(a);
    StepSends(a);
    SendingLeads(a);
    if w.tape(w.read + n).death == DiesFirst {
      RetryDies(a, DriveStep(MACHINE, a), w, n);
    }
  }

  lemma RetryIs(a: Driver<World>, w: World, n: nat)
    requires RetriesAt(a, w, n)
    ensures LostIt(a) && a.world.tape == w.tape && a.world.read == w.read + n
    ensures a.world.sends == w.sends && a.world.lost == w.lost
  {
  }

  ghost predicate Retries(m: Machine<World>, w: World) {
    forall a, n: nat {:trigger Follows(DriveStep(m, a), w, n)} :: RetriesAt(a, w, n) ==> Follows(DriveStep(m, a), w, n)
  }

  lemma EvmRetries(w: World)
    ensures Retries(MACHINE, w)
  {
    hide RetriesAt, Follows, DriveStep;
    forall a, n: nat | RetriesAt(a, w, n) ensures Follows(DriveStep(MACHINE, a), w, n) {
      RetriesOnce(a, w, n);
    }
  }

  predicate OnlyDeaths(w: World, n: nat) {
    forall k :: w.read <= k < w.read + n ==> w.tape(k).death == DiesFirst
  }

  /** After `n` answers the step is still retried, or the transfer has failed, or one of them sent a
      transaction. */
  ghost predicate Stands(a: Driver<World>, w: World, n: nat) {
    (RetriesAt(a, w, n) && OnlyDeaths(w, n)) || GaveUp(a, w) || BuildsAfter(w.tape, w.read)
  }

  lemma StandsOn(a: Driver<World>, b: Driver<World>, w: World, n: nat)
    requires Stands(a, w, n) && (RetriesAt(a, w, n) ==> Follows(b, w, n)) && (a.phase == Aborted ==> b == a)
    ensures Stands(b, w, n + 1)
  {
    hide LostIt;
    if RetriesAt(a, w, n) && OnlyDeaths(w, n) && Builds(w.tape(w.read + n)) {
      assert BuildsAfter(w.tape, w.read);
    }
  }

  lemma {:induction false} StandsAfter(m: Machine<World>, a: Driver<World>, w: World, n: nat)
    requires Retries(m, w) && RetriesAt(a, w, 0)
    ensures Stands(Drive(m, a, n), w, n)
  {
    hide Follows, LostIt;
    if n > 0 {
      var c := Drive(m, a, n - 1);
      StandsAfter(m, a, w, n - 1);
      assert RetriesAt(c, w, n - 1) ==> Follows(DriveStep(m, c), w, n - 1);
      StandsOn(c, DriveStep(m, c), w, n - 1);
    }
  }

  lemma {:induction false} RetriesOn(m: Machine<World>, a: Driver<World>, w: World, n: nat)
    requires Retries(m, w) && RetriesAt(a, w, 0) && OnlyDeaths(w, n)
    ensures RetriesAt(Drive(m, a, n), w, n)
  {
    hide LostIt, DriveStep;
    if n > 0 {
      var c := Drive(m, a, n - 1);
      RetriesOn(m, a, w, n - 1);
      assert Follows(DriveStep(m, c), w, n - 1);
    }
  }

  ghost predicate EverSendsAgain(m: Machine<World>, a: Driver<World>) {
    exists n: nat {:trigger SentAgain(Drive(m, a, n), a.world)} :: SentAgain(Drive(m, a, n), a.world)
  }

  lemma SendsAgain(m: Machine<World>, a: Driver<World>, k: nat)
    requires Retries(m, a.world) && RetriesAt(a, a.world, 0) && a.world.read <= k && Builds(a.world.tape(k))
    requires OnlyDeaths(a.world, k - a.world.read)
    ensures EverSendsAgain(m, a)
  {
    hide LostIt, DriveStep;
    var n := k - a.world.read;
    var c := Drive(m, a, n);
    RetriesOn(m, a, a.world, n);
    assert Follows(DriveStep(m, c), a.world, n);
    assert Drive(m, a, n + 1) == DriveStep(m, c);
    assert SentAgain(Drive(m, a, n + 1), a.world);
  }

  lemma SendsAgainIff(m: Machine<World>, a: Driver<World>)
    requires Retries(m, a.world) && RetriesAt(a, a.world, 0)
    ensures EverSendsAgain(m, a) <==> BuildsAfter(a.world.tape, a.world.read)
  {
    hide LostIt, Drive, Retries;
    if BuildsAfter(a.world.tape, a.world.read) {
      var k :| a.world.read <= k && Builds(a.world.tape(k))
        && forall i :: a.world.read <= i < k ==> a.world.tape(i).death == DiesFirst;
      SendsAgain(m, a, k);
    } else if EverSendsAgain(m, a) {
      var n: nat :| SentAgain(Drive(m, a, n), a.world);
      StandsAfter(m, a, a.world, n);
      assert false;
    }
  }

  /** A transfer whose process died between a broadcast and the commit of its row is broadcast again if
      and only if the first answer with which the step gets to work sends a transaction. */
  lemma SecondBroadcastIff(a: Driver<World>)
    requires LostIt(a)
    ensures EverSendsAgain(MACHINE, a) <==> BuildsAfter(a.world.tape, a.world.read)
  {
    EvmRetries(a.world);
    SendsAgainIff(MACHINE, a);
  }

  // --------------------------------------------------------------------- two transfers

  const REQUEST := Request(1, 1, true, true, HotWallet, false)

  function Fine(death: Death, hash: Option<nat>): Answer {
    Answer(death, ColdOrProcessing(true), true, None, true, hash, true, Mined, Found(true, 1), true, false, false)
  }

  /** Everything goes well, but the process dies after the broadcast; then a transaction is signed
      again, or it is not. */
  function Tape(again: Option<nat>): nat -> Answer {
    n => if n == 2 then Fine(DiesSent, Some(1)) else if n == 3 then Fine(Survives, again) else Fine(Survives, Some(1))
  }

  const TRANSFERRED := Tx(Transfer, 1)

  function Way(again: Option<nat>, n: nat): Driver<World> {
    Drive(MACHINE, Start(MACHINE, Begin(1, REQUEST, Tape(again))), n)
  }

  /** What is left of the sending step: the way to it, the lost broadcast, and the end. */
  ghost predicate OnWay(a: Driver<World>, again: Option<nat>, n: nat) {
    && a.world.request == REQUEST && a.world.tape == Tape(again) && a.world.read == n
    && a.world.lost == (if n < 3 then [] else [Lost(2, TRANSFERRED)])
    && a.world.history == (if n == 0 then [] else if n == 4 && again.None? then [StatusProcessing, StatusFailed]
                           else [StatusProcessing])
    && (n < 4 ==> a.phase == Live && a.pos == (if n < 2 then Pos(0, n) else SENDING))
    && a.world.rows == a.world.sends == if n == 4 && again.Some? then [Tx(Transfer, again.value)] else []
  }

  lemma NextOnWay(a: Driver<World>, again: Option<nat>, n: nat)
    requires n < 4 && OnWay(a, again, n)
    ensures OnWay(DriveStep(MACHINE, a), again, n + 1)
  {
    hide OnWay;
    match n
    case 0 => Validates(a, again);
    case 1 => PassesTopUp(a, again);
    case 2 => Dies(a, again);
    case _ => Tries(a, again);
  }

  lemma Validates(a: Driver<World>, again: Option<nat>)
    requires OnWay(a, again, 0)
    ensures OnWay(DriveStep(MACHINE, a), again, 1)
  {
    hide CallStep, ContextOf, Target;
    var r := ReplyAt(MACHINE, a);
    ValidateIs(a.world);
    assert a.world.tape(0) == Fine(Survives, Some(1));
    Goes(a, r);
    assert r == Succeed(StoreStatus(Taken(a.world), StatusProcessing));
  }

  lemma PassesTopUp(a: Driver<World>, again: Option<nat>)
    requires OnWay(a, again, 1)
    ensures OnWay(DriveStep(MACHINE, a), again, 2)
  {
    hide CallStep, ContextOf, Target;
    var r := ReplyAt(MACHINE, a);
    TopUpIs(a.world);
    assert a.world.tape(1) == Fine(Survives, Some(1));
    Goes(a, r);
    assert r == GoSending(Taken(a.world));
  }

  /** Where a step of the driver leads when its call succeeds. */
  lemma Goes(a: Driver<World>, r: Reply<World>)
    requires InTable(STAGES, a.pos) && a.phase == Live && r == ReplyAt(MACHINE, a)
    ensures r == CallStep(a.world, ContextOf(STAGES, a.pos))
    ensures r.outcome.Done? && a.pos != Pos(2, 2) &&
            ((r.nextStage.None? && r.nextStep.None?) || ToSending(a.pos, r)) ==>
              var b := DriveStep(MACHINE, a); b.phase == Live && b.pos == Goal(a.pos, r) && b.world == r.world
  {
    hide CallStep;
    Table();
    PlainStep(MACHINE, a);
    if (r.nextStage.None? && r.nextStep.None?) || ToSending(a.pos, r) {
      Targets(a.pos, r);
    }
  }

  lemma Dies(a: Driver<World>, again: Option<nat>)
    requires OnWay(a, again, 2)
    ensures OnWay(DriveStep(MACHINE, a), again, 3)
  {
    hide CallStep, ContextOf;
    SendingIs(a.world);
    assert a.world.tape(2) == Fine(DiesSent, Some(1));
    SendingLeads(a);
    var w := Taken(a.world);
    assert CallStep(a.world, ContextOf(STAGES, SENDING)) == Die(Lose(w, TRANSFERRED));
  }

  lemma Tries(a: Driver<World>, again: Option<nat>)
    requires OnWay(a, again, 3)
    ensures OnWay(DriveStep(MACHINE, a), again, 4)
  {
    hide CallStep, ContextOf;
    SendingIs(a.world);
    assert a.world.tape(3) == Fine(Survives, again);
    SendingLeads(a);
    var w := Taken(a.world);
    var r := CallStep(a.world, ContextOf(STAGES, SENDING));
    if again.Some? {
      var tx := Tx(Transfer, again.value);
      assert r == Succeed(w.(sends := [tx], rows := [tx], txHash := again)) by {
        assert [] + [tx] == [tx];
      }
      Goes(a, r);
    } else {
      assert r == Refuse(w);
    }
  }

  lemma WayOn(again: Option<nat>, n: nat)
    requires n < 4 && OnWay(Way(again, n), again, n)
    ensures OnWay(Way(again, n + 1), again, n + 1)
  {
    hide OnWay, DriveStep;
    NextOnWay(Way(again, n), again, n);
  }

  lemma Begins(again: Option<nat>)
    ensures OnWay(Way(again, 0), again, 0)
  {
    Table();
  }

  lemma LosesThere(a: Driver<World>, again: Option<nat>)
    requires Inv(a) && OnWay(a, again, 3)
    ensures LostIt(a)
  {
    assert a.world.lost[0].tx.kind == Transfer;
  }

  /** So a transfer may be broadcast twice, and one whose broadcast was accepted may be stored as
      failed. */
  lemma LostBroadcast(again: Option<nat>)
    ensures LostIt(Way(again, 3)) && OnWay(Way(again, 4), again, 4)
  {
    hide OnWay, LostIt, Drive;
    Begins(again);
    WayOn(again, 0);
    WayOn(again, 1);
    WayOn(again, 2);
    WayOn(again, 3);
    InvDrive(Begin(1, REQUEST, Tape(again)), 3);
    LosesThere(Way(again, 3), again);
  }
}
