/** What each answer makes of a UTXO transfer, exactly: where it goes, when it is tried again, and when
    it fails for good. */
module FsmUtxoMoves {
  import opened Names
  import opened Engine
  import opened Resumption
  import opened Simulation
  import opened History
  import opened Transfers
  import opened FsmUtxo
  import opened FsmUtxoSafety

  /** What becomes of a transfer at a step: the step is tried again, the transfer fails for good, or it
      goes on to a step, or to its end. */
  datatype Turn = TriesAgain | FailsForGood | GoesOn(to: Pos)

  predicate PassesValidation(q: Request, a: Answer) {
    && q.fromAddresses >= 1 && q.toAddresses == 1 && q.wholeAmount
    && (q.fromHotWallet ==> a.wallet == ColdOrProcessing(true))
  }

  predicate Shown(a: Answer, confirmations: nat) {
    a.lookup.Listed? && a.lookup.confirmations >= confirmations
  }

  /** The turn a transfer takes at each step, unless the process dies at once. */
  function TurnOf(w: World, p: Pos, a: Answer): Turn {
    if p == Pos(0, 0) then if PassesValidation(w.request, a) then GoesOn(Pos(1, 0)) else FailsForGood
    else if p == Pos(1, 0) then
      if a.hash.None? || !RateAllowed(w) then FailsForGood
      else if a.death == DiesSent then TriesAgain
      else if a.broadcast == Accepted then GoesOn(Pos(2, 0))
      else FailsForGood
    else if p == Pos(2, 0) then if a.listed.Some? && a.listed.value > 0 then GoesOn(Pos(2, 1)) else TriesAgain
    else if p == Pos(2, 1) then if Shown(a, 1) then GoesOn(Pos(2, 2)) else TriesAgain
    else if p == Pos(2, 2) then if Shown(a, w.config.minConfirmations) then GoesOn(Pos(2, 3)) else TriesAgain
    else GoesOn(Pos(3, 0))
  }

  /** The status a turn stores, if it stores one. */
  function Stored(p: Pos, t: Turn): seq<TransferStatus> {
    match t
    case TriesAgain => []
    case FailsForGood => [StatusFailed]
    case GoesOn(_) =>
      if p == Pos(0, 0) then [StatusProcessing]
      else if p == Pos(2, 0) then [StatusInMempool]
      else if p == Pos(2, 1) then [StatusUnconfirmed]
      else if p == Pos(2, 3) then [StatusCompleted]
      else []
  }

  /** What the turn leaves: the status it stores, and what it broadcasts, with its hash. */
  ghost predicate Leaves(w: World, p: Pos, a: Answer, t: Turn, v: World) {
    var sends := p == Pos(1, 0) && a.hash.Some? && RateAllowed(w);
    && v.history == w.history + Stored(p, t)
    && v.sends == w.sends + (if sends then [Send(a.hash.value, a.broadcast, a.death == DiesSent)] else [])
    && v.txHash == (if sends then a.hash else w.txHash)
    && v.sights == w.sights + (if (p == Pos(2, 1) || p == Pos(2, 2)) && a.lookup.Listed?
                               then [Seen(w.txHash, a.lookup.confirmations)] else [])
    && v.read == w.read + 1 && SameSetup(w, v)
  }

  /** The transfer is where its turn puts it. */
  ghost predicate TakesTurn(a: Driver<World>, b: Driver<World>) {
    var w, x := a.world, a.world.tape(a.world.read);
    if x.death == DiesFirst then
      b.phase == Live && b.pos == a.pos && b.world == w.(read := w.read + 1)
    else
      var t := TurnOf(w, a.pos, x);
      && Leaves(w, a.pos, x, t, b.world)
      && match t
         case TriesAgain => b.phase == Live && b.pos == a.pos
         case FailsForGood => b.phase == Aborted
         case GoesOn(to) => if to == Pos(3, 0) then b.phase == Finished else b.phase == Live && b.pos == to
  }

  // --------------------------------------------------------------- the replies, step by step

  /** The reply that a turn comes with. */
  ghost predicate Replies(w: World, p: Pos, a: Answer, r: Reply<World>) {
    var t := TurnOf(w, p, a);
    && Quiet(r)
    && Leaves(w, p, a, if t == FailsForGood then TriesAgain else t, r.world)
    && match t
       case TriesAgain => if p.stage < 2 then r.outcome == Died else r.outcome == Err(Plain)
       case FailsForGood => p.stage < 2 && r.outcome == Err(Plain)
       case GoesOn(to) => r.outcome == Done && to == Next(p)
  }

  lemma ValidateReplies(w: World)
    requires w.tape(w.read).death != DiesFirst
    ensures InTable(STAGES, Pos(0, 0))
    ensures Replies(w, Pos(0, 0), w.tape(w.read), CallStep(w, ContextOf(STAGES, Pos(0, 0))))
  {
    Table();
  }

  lemma SendingReplies(w: World)
    requires At(w, SENDING) && w.tape(w.read).death != DiesFirst
    ensures InTable(STAGES, SENDING)
    ensures Replies(w, SENDING, w.tape(w.read), CallStep(w, ContextOf(STAGES, SENDING)))
  {
    hide CallStep, ContextOf;
    Table();
    SendIs(w, w.(read := w.read + 1));
  }

  lemma AfterReplies(w: World, j: nat)
    requires j < 4 && w.tape(w.read).death != DiesFirst
    ensures InTable(STAGES, Pos(2, j))
    ensures Replies(w, Pos(2, j), w.tape(w.read), CallStep(w, ContextOf(STAGES, Pos(2, j))))
  {
    hide CallStep, ContextOf;
    AfterSentIs(w, j);
  }

  /** Every call replies as its turn says. */
  lemma CallReplies(w: World, p: Pos)
    requires InTable(STAGES, p) && At(w, p) && w.tape(w.read).death != DiesFirst
    ensures Replies(w, p, w.tape(w.read), CallStep(w, ContextOf(STAGES, p)))
  {
    hide CallStep, ContextOf, At, Replies;
    Table();
    if p.stage == 0 {
      ValidateReplies(w);
    } else if p.stage == 1 {
      SendingReplies(w);
    } else {
      AfterReplies(w, p.step);
    }
  }

  lemma DyingReplies(w: World, p: Pos)
    requires InTable(STAGES, p) && w.tape(w.read).death == DiesFirst
    ensures CallStep(w, ContextOf(STAGES, p)) == Die(w.(read := w.read + 1))
  {
    hide ContextOf;
  }

  // ------------------------------------------------------------------------- the driver

  lemma CallIsReply(a: Driver<World>)
    requires InTable(STAGES, a.pos)
    ensures ReplyAt(MACHINE, a) == CallStep(a.world, ContextOf(STAGES, a.pos))
  {
  }

  /** An error fails the transfer for good up to sending, and is tried again later. */
  lemma ReplyLeads(a: Driver<World>, r: Reply<World>)
    requires a.phase == Live && InTable(STAGES, a.pos) && r == ReplyAt(MACHINE, a) && Quiet(r)
    ensures var b := DriveStep(MACHINE, a);
            && (r.outcome == Died ==> b.phase == Live && b.pos == a.pos && b.world == r.world)
            && (r.outcome == Err(Plain) ==>
                  if a.pos.stage < 2 then b.phase == Aborted && b.world == StoreStatus(r.world, StatusFailed)
                  else b.phase == Live && b.pos == a.pos && b.world == r.world)
            && (r.outcome == Done ==>
                  && b.world == r.world
                  && if Next(a.pos) == DONE then b.phase == Finished else b.phase == Live && b.pos == Next(a.pos))
  {
    hide CallStep, ReplyAt;
    Table();
    Targets(a.pos);
    PlainStep(MACHINE, a);
  }

  /** Every step of the driver takes the turn its answer says. */
  lemma UtxoTurns(a: Driver<World>)
    requires Inv(a) && a.phase == Live
    ensures TakesTurn(a, DriveStep(MACHINE, a))
  {
    hide CallStep, ReplyAt, DriveStep, At, TurnOf;
    var w, p := a.world, a.pos;
    var r := CallStep(w, ContextOf(STAGES, p));
    CallIsReply(a);
    if w.tape(w.read).death == DiesFirst {
      DyingReplies(w, p);
    } else {
      CallReplies(w, p);
    }
    ReplyLeads(a, r);
  }

  // ------------------------------------------------------------- when a transfer is over

  /** The call ended with any error while the transfer was validated or sent. */
  predicate EndsFailing(c: Call) {
    c.outcome.Err? && (c.context.step == StepValidateRequest || c.context.step == StepSending)
  }

  predicate EndsWell(c: Call) {
    c.outcome == Done && c.context.step == StepSendSuccessEvent
  }

  predicate OverBy(log: seq<Call>, history: seq<TransferStatus>) {
    && (StatusFailed in history <==> log != [] && EndsFailing(log[|log| - 1]))
    && (StatusCompleted in history <==> log != [] && EndsWell(log[|log| - 1]))
  }

  /** The driver is over exactly by its last call, and used one answer for each. */
  ghost predicate Counted(a: Driver<World>) {
    && |a.log| == a.world.read && OverBy(a.log, a.world.history)
    && (a.phase == Live <==> StatusFailed !in a.world.history && StatusCompleted !in a.world.history)
  }

  lemma StepNameIs(p: Pos)
    requires InTable(STAGES, p)
    ensures var step := ContextOf(STAGES, p).step;
            && (p == Pos(0, 0) <==> step == StepValidateRequest) && (p == Pos(1, 0) <==> step == StepSending)
            && (p == Pos(2, 3) <==> step == StepSendSuccessEvent)
            && (p.stage < 2 ==> p == Pos(0, 0) || p == Pos(1, 0))
  {
    Table();
  }

  /** A driver that used one more answer and made one more call. */
  lemma CountsOn(a: Driver<World>, b: Driver<World>, c: Call, stored: seq<TransferStatus>)
    requires Counted(a) && a.phase == Live
    requires b.log == a.log + [c] && b.world.read == a.world.read + 1 && b.world.history == a.world.history + stored
    requires StatusFailed in stored <==> EndsFailing(c)
    requires StatusCompleted in stored <==> EndsWell(c)
    requires b.phase == Live <==> StatusFailed !in stored && StatusCompleted !in stored
    ensures Counted(b)
  {
    hide EndsFailing, EndsWell;
  }

  /** The status a call stores tells how it ended. */
  lemma CallEnds(w: World, p: Pos)
    requires InTable(STAGES, p) && At(w, p)
    ensures var x, o := w.tape(w.read), CallStep(w, ContextOf(STAGES, p)).outcome;
            var stored := if x.death == DiesFirst then [] else Stored(p, TurnOf(w, p, x));
            && (StatusFailed in stored <==> o.Err? && p.stage < 2)
            && (StatusCompleted in stored <==> o == Done && p == Pos(2, 3))
  {
    hide CallStep, At, Leaves, ContextOf, RateAllowed;
    Table();
    if w.tape(w.read).death == DiesFirst {
      DyingReplies(w, p);
    } else {
      CallReplies(w, p);
    }
  }

  lemma TurnEnds(a: Driver<World>, b: Driver<World>)
    requires TakesTurn(a, b) && InTable(STAGES, a.pos) && a.phase == Live
    ensures var w, x := a.world, a.world.tape(a.world.read);
            var stored := if x.death == DiesFirst then [] else Stored(a.pos, TurnOf(w, a.pos, x));
            && b.world.history == w.history + stored && b.world.read == w.read + 1
            && (b.phase == Live <==> StatusFailed !in stored && StatusCompleted !in stored)
  {
    hide RateAllowed;
    Table();
  }

  lemma StepCounts(a: Driver<World>)
    requires Inv(a) && Counted(a) && a.phase == Live
    ensures Counted(DriveStep(MACHINE, a))
  {
    hide CallStep, ReplyAt, DriveStep, At, TakesTurn, TurnOf, ContextOf, Stored, Counted;
    var w, p, x := a.world, a.pos, a.world.tape(a.world.read);
    UtxoTurns(a);
    InvStep(a);
    StepLogs(MACHINE, a);
    StepNameIs(p);
    CallIsReply(a);
    CallEnds(w, p);
    TurnEnds(a, DriveStep(MACHINE, a));
    var c := CallOf(p.stage, p.step, ContextOf(STAGES, p), [], ReplyAt(MACHINE, a));
    CountsOn(a, DriveStep(MACHINE, a), c, if x.death == DiesFirst then [] else Stored(p, TurnOf(w, p, x)));
  }

  lemma {:induction false} DriveCounts(w: World, n: nat)
    requires w == Begin(w.config, w.request, w.tape)
    ensures Counted(Drive(MACHINE, Start(MACHINE, w), n))
  {
    hide CallStep, DriveStep, Counted, Inv;
    if n == 0 {
      assert Counted(Start(MACHINE, w)) by {
        StartCounts(w);
      }
    } else {
      DriveCounts(w, n - 1);
      InvDrive(w, n - 1);
      var a := Drive(MACHINE, Start(MACHINE, w), n - 1);
      if a.phase == Live {
        StepCounts(a);
      } else {
        StopsMoving(MACHINE, a);
      }
    }
  }

  lemma StartCounts(w: World)
    requires w == Begin(w.config, w.request, w.tape)
    ensures Counted(Start(MACHINE, w))
  {
  }

  lemma OverByBare(log: seq<Call>, history: seq<TransferStatus>)
    requires OverBy(Bare(log), history)
    ensures OverBy(log, history)
  {
  }

  /** After any number of runs: a transfer is stored as failed if and only if its last call ended with
      an error while it was validated or sent, and as completed if and only if its last call is the
      success event. So a transfer that was sent and only waits is never failed. */
  lemma OverIff(config: Config, request: Request, tape: nat -> Answer, k: nat)
    ensures var s := Runs(MACHINE, Fresh(Begin(config, request, tape)), k);
            OverBy(s.log, s.world.history) && |s.log| == s.world.read
  {
    hide CallStep, OverBy, RunOnce;
    Table();
    TableIsDistinct();
    var w := Begin(config, request, tape);
    AlwaysGoesForward(w);
    var n, j := RunsRefineDriver(MACHINE, w, k);
    DriveCounts(w, n);
    InvDrive(w, n);
    OverByBare(Runs(MACHINE, Fresh(w), k).log, Drive(MACHINE, Start(MACHINE, w), n).world.history);
  }
}
