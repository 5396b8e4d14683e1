/** What a UTXO transfer does after its process died right after a broadcast: the step does not look
    for a transaction it sent before. */
module FsmUtxoDeaths {
  import opened Wrappers
  import opened Engine
  import opened Resumption
  import opened Transfers
  import opened FsmUtxo
  import opened FsmUtxoSafety

  // ------------------------------------------------------------- the sending step again

  /** A transaction was broadcast and lost, and the sending step is tried again. */
  ghost predicate LostIt(a: Driver<World>) {
    Inv(a) && a.phase == Live && a.pos == Pos(1, 0) && a.world.sends != []
  }

  /** Since the world was `w` the process died `n` times before the step did anything. */
  ghost predicate RetriesAt(a: Driver<World>, w: World, n: nat) {
    && LostIt(a) && SameSetup(w, a.world) && a.world.read == w.read + n
    && a.world.sends == w.sends && a.world.history == w.history
  }

  predicate Builds(a: Answer) {
    !a.death.DiesFirst? && a.hash.Some?
  }

  /** Of the answers from one on, the first with which the step gets to work builds a transaction. */
  ghost predicate BuildsAfter(tape: nat -> Answer, from: nat) {
    exists m :: from <= m && Builds(tape(m)) && forall k :: from <= k < m ==> tape(k).death.DiesFirst?
  }

  predicate SentAgain(b: Driver<World>, w: World) {
    |b.world.sends| > |w.sends|
  }

  predicate GaveUp(b: Driver<World>, w: World) {
    b.phase == Aborted && b.world.sends == w.sends
  }

  ghost predicate Follows(b: Driver<World>, w: World, n: nat) {
    var a := w.tape(w.read + n);
    if a.death.DiesFirst? then RetriesAt(b, w, n + 1) else if a.hash.Some? then SentAgain(b, w) else GaveUp(b, w)
  }

  lemma RetriesOnce(a: Driver<World>, w: World, n: nat)
    requires RetriesAt(a, w, n)
    ensures Follows(DriveStep(MACHINE, a), w, n)
  {
    Table();
    InvStep(a);
    PlainStep(MACHINE, a);
    Targets(a.pos);
  }

  ghost predicate Retries(m: Machine<World>, w: World) {
    forall a, n: nat {:trigger Follows(DriveStep(m, a), w, n)} :: RetriesAt(a, w, n) ==> Follows(DriveStep(m, a), w, n)
  }

  lemma UtxoRetries(w: World)
    ensures Retries(MACHINE, w)
  {
    forall a, n: nat | RetriesAt(a, w, n) ensures Follows(DriveStep(MACHINE, a), w, n) {
      RetriesOnce(a, w, n);
    }
  }

  predicate OnlyDeaths(w: World, n: nat) {
    forall k :: w.read <= k < w.read + n ==> w.tape(k).death.DiesFirst?
  }

  /** After `n` answers the step is still retried, or the transfer has failed, or one of them built a
      transaction. */
  ghost predicate Stands(a: Driver<World>, w: World, n: nat) {
    (RetriesAt(a, w, n) && OnlyDeaths(w, n)) || GaveUp(a, w) || BuildsAfter(w.tape, w.read)
  }

  lemma StandsOn(a: Driver<World>, b: Driver<World>, w: World, n: nat)
    requires Stands(a, w, n) && (RetriesAt(a, w, n) ==> Follows(b, w, n)) && (a.phase == Aborted ==> b == a)
    ensures Stands(b, w, n + 1)
  {
    if RetriesAt(a, w, n) && OnlyDeaths(w, n) && Builds(w.tape(w.read + n)) {
      assert BuildsAfter(w.tape, w.read);
    }
  }

  lemma {:induction false} StandsAfter(m: Machine<World>, a: Driver<World>, w: World, n: nat)
    requires Retries(m, w) && RetriesAt(a, w, 0)
    ensures Stands(Drive(m, a, n), w, n)
  {
    if n > 0 {
      var c := Drive(m, a, n - 1);
      StandsAfter(m, a, w, n - 1);
      assert RetriesAt(c, w, n - 1) ==> Follows(DriveStep(m, c), w, n - 1);
      StandsOn(c, DriveStep(m, c), w, n - 1);
    }
  }

  lemma {:induction false} RetriesOn(m: Machine<World>, a: Driver<World>, w: World, n: nat)
    requires Retries(m, w) && RetriesAt(a, w, 0) && OnlyDeaths(w, n)
    ensures RetriesAt(Drive(m, a, n), w, n)
  {
    if n > 0 {
      var c := Drive(m, a, n - 1);
      RetriesOn(m, a, w, n - 1);
      assert Follows(DriveStep(m, c), w, n - 1);
    }
  }

  ghost predicate EverSendsAgain(m: Machine<World>, a: Driver<World>) {
    exists n: nat {:trigger SentAgain(Drive(m, a, n), a.world)} :: SentAgain(Drive(m, a, n), a.world)
  }

  lemma SendsAgain(m: Machine<World>, a: Driver<World>, k: nat)
    requires Retries(m, a.world) && RetriesAt(a, a.world, 0) && a.world.read <= k && Builds(a.world.tape(k))
    requires OnlyDeaths(a.world, k - a.world.read)
    ensures EverSendsAgain(m, a)
  {
    var n := k - a.world.read;
    var c := Drive(m, a, n);
    RetriesOn(m, a, a.world, n);
    assert Follows(DriveStep(m, c), a.world, n);
    assert Drive(m, a, n + 1) == DriveStep(m, c);
    assert SentAgain(Drive(m, a, n + 1), a.world);
  }

  lemma SendsAgainIff(m: Machine<World>, a: Driver<World>)
    requires Retries(m, a.world) && RetriesAt(a, a.world, 0)
    ensures EverSendsAgain(m, a) <==> BuildsAfter(a.world.tape, a.world.read)
  {
    if BuildsAfter(a.world.tape, a.world.read) {
      var k :| a.world.read <= k && Builds(a.world.tape(k)) && forall i :: a.world.read <= i < k ==>
        a.world.tape(i).death.DiesFirst?;
      SendsAgain(m, a, k);
    } else if EverSendsAgain(m, a) {
      var n: nat :| SentAgain(Drive(m, a, n), a.world);
      StandsAfter(m, a, a.world, n);
      assert false;
    }
  }

  /** A transfer whose process died right after a broadcast is broadcast again if and only if the
      first answer with which the step gets to work builds a transaction. */
  lemma SecondBroadcastIff(a: Driver<World>)
    requires LostIt(a)
    ensures EverSendsAgain(MACHINE, a) <==> BuildsAfter(a.world.tape, a.world.read)
  {
    UtxoRetries(a.world);
    SendsAgainIff(MACHINE, a);
  }

  // --------------------------------------------------------------------- two transfers

  const CONFIG := Config(10, false, 1)

  const REQUEST := Request(1, 1, true, true, None, None)

  function Fine(death: Death, hash: Option<nat>): Answer {
    Answer(death, ColdOrProcessing(true), hash, Accepted, Some(1), Listed(1))
  }

  /** Everything goes well, but the process dies after the broadcast; then a transaction is built
      again, or it is not because the outputs are spent. */
  function Tape(again: Option<nat>): nat -> Answer {
    n => if n == 1 then Fine(DiesSent, Some(1)) else if n == 2 then Fine(Lives, again) else Fine(Lives, Some(1))
  }

  function Way(again: Option<nat>, n: nat): Driver<World> {
    Drive(MACHINE, Start(MACHINE, Begin(CONFIG, REQUEST, Tape(again))), n)
  }

  /** What is left of the sending step: the way to it, the lost broadcast, and the end. */
  ghost predicate OnWay(a: Driver<World>, again: Option<nat>, n: nat) {
    && SameSetup(Begin(CONFIG, REQUEST, Tape(again)), a.world) && a.world.read == n
    && match n
       case 0 => a.phase == Live && a.pos == Pos(0, 0) && a.world.sends == [] && a.world.history == []
       case 1 => a.phase == Live && a.pos == Pos(1, 0) && a.world.sends == [] && a.world.history == [StatusProcessing]
       case 2 => a.phase == Live && a.pos == Pos(1, 0) && a.world.sends == [Send(1, Accepted, true)] &&
         a.world.history == [StatusProcessing]
       case _ =>
         if again.Some? then a.world.sends == [Send(1, Accepted, true), Send(again.value, Accepted, false)]
         else a.world.sends == [Send(1, Accepted, true)] && a.world.history == [StatusProcessing, StatusFailed]
  }

  lemma NextOnWay(a: Driver<World>, again: Option<nat>, n: nat)
    requires n < 3 && OnWay(a, again, n)
    ensures OnWay(DriveStep(MACHINE, a), again, n + 1)
  {
    match n
    case 0 => First(a, again);
    case 1 => Second(a, again);
    case _ => Last(a, again);
  }

  lemma First(a: Driver<World>, again: Option<nat>)
    requires OnWay(a, again, 0)
    ensures OnWay(DriveStep(MACHINE, a), again, 1)
  {
    Table();
    assert a.world.tape(0) == Fine(Lives, Some(1));
    PlainStep(MACHINE, a);
    Targets(a.pos);
  }

  lemma Second(a: Driver<World>, again: Option<nat>)
    requires OnWay(a, again, 1)
    ensures OnWay(DriveStep(MACHINE, a), again, 2)
  {
    Table();
    assert a.world.tape(1) == Fine(DiesSent, Some(1));
    PlainStep(MACHINE, a);
  }

  lemma Last(a: Driver<World>, again: Option<nat>)
    requires OnWay(a, again, 2)
    ensures OnWay(DriveStep(MACHINE, a), again, 3)
  {
    Table();
    var w := a.world.(read := 3);
    var r := ReplyAt(MACHINE, a);
    assert w.tape(2) == Fine(Lives, again);
    assert r == SendTransfer(w, Fine(Lives, again));
    PlainStep(MACHINE, a);
    Prefixes();
    if again.Some? {
      assert w.sends + [Send(again.value, Accepted, false)]
             == [Send(1, Accepted, true), Send(again.value, Accepted, false)];
    }
  }

  lemma WayOn(again: Option<nat>, n: nat)
    requires n < 3 && OnWay(Way(again, n), again, n)
    ensures OnWay(Way(again, n + 1), again, n + 1)
  {
    NextOnWay(Way(again, n), again, n);
  }

  lemma Begins(again: Option<nat>)
    ensures OnWay(Way(again, 0), again, 0)
  {
    Table();
  }

  /** So a transfer may be broadcast twice, and one whose broadcast was accepted may be stored as
      failed. */
  lemma LostBroadcast(again: Option<nat>)
    ensures LostIt(Way(again, 2)) && OnWay(Way(again, 3), again, 3)
  {
    Begins(again);
    WayOn(again, 0);
    WayOn(again, 1);
    WayOn(again, 2);
    InvDrive(Begin(CONFIG, REQUEST, Tape(again)), 2);
  }
}
