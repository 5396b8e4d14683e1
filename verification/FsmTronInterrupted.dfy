/** A Tron transfer whose compensation was interrupted: the next run does not go on with it, but goes back
    to the step that failed, and what that step broadcasts is recorded under the wrong type or not at
    all. */
module FsmTronInterrupted {
  import opened Wrappers
  import opened Names
  import opened Engine
  import opened Resumption
  import opened Simulation
  import opened History
  import opened Transfers
  import opened FsmTron
  import opened FsmTronRouting
  import opened FsmTronSafety
  import opened FsmTronCompensation
  import opened FsmTronItinerary
  import opened FsmTronMoves
  import opened Interruption
  import opened LastStage
  import opened SnapshotRoundTrip

  /** What the step at `p` sees when it is called again: itself, but a compensation step for the current
      one. */
  function SeesAgain(p: Pos, current: StepName, customError: CustomError): Context
    requires InTable(STAGES, p)
  {
    Context(STAGES[p.stage].name, STAGES[p.stage].steps[p.step].name, Some(StageCompensateOnFail), Some(current),
            customError)
  }

  /** The run after a compensation that stopped starts with the first open step of the table. */
  lemma UnfinishedIsOpen(rows: seq<seq<Status>>, customError: CustomError, t: Session<World>, step: StepName, p: Pos)
    requires AtPos(STAGES, rows, p) && p.stage < 3 && Unfinished(rows, customError, t.stored, step)
    ensures FirstOpen(MACHINE, Load(MACHINE, t.stored, t.world, t.log), p)
  {
    hide Restore;
    TableIsDistinct();
    var mem := Load(MACHINE, t.stored, t.world, t.log);
    forall a, b | 0 <= a < |mem.rows| && 0 <= b < |mem.rows[a]| && Before(Pos(a, b), p)
      ensures Settled(mem.rows[a][b]) {
      assert mem.rows[a] == rows[a];
    }
    assert mem.rows[p.stage] == rows[p.stage];
  }

  lemma SeesCompensation(mem: Memory<World>, p: Pos, step: StepName)
    requires FirstOpen(MACHINE, mem, p) && p.stage < 3 && LastReached(mem.rows, step)
    ensures ContextAt(MACHINE, StartedAt(MACHINE, mem, p), p.stage, p.step) == SeesAgain(p, step, mem.state.customError)
  {
    hide CurrentStageName, CurrentStepName, Collect;
    var rows := StartedAt(MACHINE, mem, p).rows;
    assert rows[3] == mem.rows[3];
    LastIsCurrent(rows, step);
  }

  /** What the next run does first. */
  predicate CallsFirst(t: Session<World>, u: Session<World>, p: Pos, c: Context) {
    |t.log| < |u.log| && t.log <= u.log && PosOf(u.log[|t.log|]) == p && u.log[|t.log|].context == c
  }

  lemma NextRun(t: Session<World>, rows: seq<seq<Status>>, customError: CustomError, step: StepName, p: Pos)
    requires AtPos(STAGES, rows, p) && p.stage < 3 && Unfinished(rows, customError, t.stored, step)
    ensures CallsFirst(t, RunOnce(MACHINE, t), p, SeesAgain(p, step, customError))
  {
    hide Run, Restore, ContextAt, StartedAt, AtPos, FirstOpen, SeesAgain;
    StepNames();
    UnfinishedIsOpen(rows, customError, t, step, p);
    var mem := Load(MACHINE, t.stored, t.world, t.log);
    SeesCompensation(mem, p, step);
    var call := GoesBack(MACHINE, mem, p);
    assert (mem.log + [call])[|mem.log|] == call;
  }

  /** The last call of a session died, or ended with an ordinary error. */
  predicate Interrupted(t: Session<World>) {
    t.log != [] && (Last(t).outcome == Died || Last(t).outcome == Err(Plain))
  }

  /** A transfer that was redirected at `p`, and whose compensation died or erred: the next run calls the
      step at `p` again, before anything else, and that step takes the compensation step that stopped for
      the current one. */
  lemma GoesBackTo(s: Session<World>, p: Pos)
    requires SentToCompensate(s.stored) && AtPos(STAGES, Restore(STAGES, s.stored.steps), p) && p.stage < 3
    ensures var t := RunOnce(MACHINE, s);
            Interrupted(t) ==>
              CallsFirst(t, RunOnce(MACHINE, t), p, SeesAgain(p, Last(t).context.step, s.stored.state.customError))
  {
    hide RunOnce, Restore, Plan, AtPos, CallsFirst, Unfinished, SentToCompensate;
    TronCompensation(s, 0);
    var t := RunOnce(MACHINE, s);
    if Interrupted(t) {
      NextRun(t, Restore(STAGES, s.stored.steps), s.stored.state.customError, Last(t).context.step, p);
    }
  }

  // ------------------------------------------------------------ what a broadcast then comes to

  /** A compensation step under which no transaction can be recorded. */
  predicate Typeless(step: StepName) {
    step == StepDetermineCompensationFlow || step == StepWaitingReclaimOnErrorConfirmation ||
    step == StepSendFailureEvent
  }

  const SENDING := Pos(1, 0)

  /** A broadcast while the reclaim is taken for the current step. */
  lemma SendsAsReclaim(w: World, a: Answer, c: Context)
    requires c.currentStep == Some(StepReclaimOnError) && a.hash.Some? && a.accepted
    ensures var r := Send(w, a, c, Transfer);
            && r.world.sends == w.sends + [Tx(Transfer, a.hash.value)]
            && (!a.death.DiesSent? ==>
                  r.outcome == Done && r.world.rows == w.rows + [Tx(ReclaimResources, a.hash.value)])
  {
  }

  /** The step that sends, under another step taken for the current one. */
  lemma SendingAgain(w: World, a: Answer, c: Context)
    requires c.currentStep.Some? && (Typeless(c.currentStep.value) || c.currentStep == Some(StepReclaimOnError))
    ensures var r := Sending(w, a, c);
            var sends := a.prepared && a.affordable && a.hash.Some? && a.accepted;
            if Typeless(c.currentStep.value) || !sends then r == Refuse(w)
            else
              && r.world.sends == w.sends + [Tx(Transfer, a.hash.value)]
              && (!a.death.DiesSent? ==>
                    r.outcome == Done && r.world.rows == w.rows + [Tx(ReclaimResources, a.hash.value)])
  {
    hide Broadcasted;
    if c.currentStep == Some(StepReclaimOnError) && a.hash.Some? && a.accepted {
      SendsAsReclaim(w, a, c);
    }
  }

  /** Sending again then broadcasts nothing; but while the compensation waits at the reclaim the transfer
      is broadcast, and recorded as a reclaim. */
  lemma SendsAgain(w: World, current: StepName, customError: CustomError)
    requires InTable(STAGES, SENDING) && (Typeless(current) || current == StepReclaimOnError)
    ensures var r, a := CallStep(w, SeesAgain(SENDING, current, customError)), w.tape(w.read);
            var v := w.(read := w.read + 1);
            var sends := a.prepared && a.affordable && a.hash.Some? && a.accepted;
            if a.death.DiesFirst? then r == Die(v)
            else if Typeless(current) || !sends then r == Refuse(v)
            else
              && r.world.sends == w.sends + [Tx(Transfer, a.hash.value)]
              && (!a.death.DiesSent? ==>
                    r.outcome == Done && r.world.rows == w.rows + [Tx(ReclaimResources, a.hash.value)])
  {
    hide Recorded, ReclaimLoops, PartHashes, AllLookedUp, Broadcasted, Sending;
    Table();
    SendingAgain(w.(read := w.read + 1), w.tape(w.read), SeesAgain(SENDING, current, customError));
  }

  /** The transfer failed to be sent, and its compensation stopped at a step under which nothing can be
      recorded. */
  predicate Stuck(t: Session<World>, current: StepName) {
    var rows := Restore(STAGES, t.stored.steps);
    && t.stored.state == CLEAN && LastReached(rows, current) && Typeless(current)
    && |STAGES[1].steps| == 1 && SettledBefore(rows, SENDING) && Waiting(rows[1][0])
  }

  lemma StuckIsOpen(t: Session<World>, current: StepName)
    requires Stuck(t, current)
    ensures FirstOpen(MACHINE, Load(MACHINE, t.stored, t.world, t.log), SENDING)
  {
    TableIsDistinct();
  }

  lemma StuckFails(mem: Memory<World>, current: StepName) returns (r: Reply<World>, after: Memory<World>)
    requires FirstOpen(MACHINE, mem, SENDING) && mem.state == CLEAN && LastReached(mem.rows, current) &&
             Typeless(current)
    ensures FailedAt(MACHINE, mem, SENDING, r, after)
    ensures Run(MACHINE, mem).0 == EndOfRun(MACHINE, after, r.outcome)
    ensures (r.outcome == Err(Plain) || r.outcome == Died) && r.world == mem.world.(read := mem.world.read + 1)
  {
    hide Run, CallStep, ContextAt, StartedAt, FailedAt;
    Table();
    SeesCompensation(mem, SENDING, current);
    SendsAgain(mem.world, current, Absent);
    r := CallStep(mem.world, SeesAgain(SENDING, current, Absent));
    after := EndsThere(MACHINE, mem, SENDING, r);
  }

  /** What is stored when the step failed again. */
  lemma StoresAgain(mem: Memory<World>, r: Reply<World>, after: Memory<World>, current: StepName)
    requires FirstOpen(MACHINE, mem, SENDING) && mem.state == CLEAN && LastReached(mem.rows, current)
    requires FailedAt(MACHINE, mem, SENDING, r, after) && (r.outcome == Err(Plain) || r.outcome == Died)
    ensures var end := EndOfRun(MACHINE, after, r.outcome);
            && end.world == r.world && end.stored.state == CLEAN
            && Restore(STAGES, end.stored.steps) == after.rows
  {
    hide Fail, Collect, Restore;
    TableIsDistinct();
    DistinctPairs(STAGES);
    RestoreCollect(STAGES, after.rows);
    if r.outcome.Err? {
      StillReached(mem, r, after, current);
      FailureIs(after, current, Plain);
    }
  }

  lemma StillReached(mem: Memory<World>, r: Reply<World>, after: Memory<World>, current: StepName)
    requires FirstOpen(MACHINE, mem, SENDING) && LastReached(mem.rows, current)
    requires FailedAt(MACHINE, mem, SENDING, r, after)
    ensures LastReached(after.rows, current)
    ensures SettledBefore(after.rows, SENDING) && Waiting(after.rows[1][0])
  {
    assert after.rows[3] == mem.rows[3] && after.rows[0] == mem.rows[0];
  }

  /** The run that fails there again leaves the transfer stuck. */
  lemma StuckRun(t: Session<World>, current: StepName) returns (end: Memory<World>)
    requires Stuck(t, current)
    ensures end == Run(MACHINE, Load(MACHINE, t.stored, t.world, t.log)).0
    ensures end.world == t.world.(read := t.world.read + 1) && end.stored.state == CLEAN
    ensures var rows := Restore(STAGES, end.stored.steps);
            LastReached(rows, current) && SettledBefore(rows, SENDING) && Waiting(rows[1][0])
  {
    hide Run, Restore, LastReached, FailedAt, FirstOpen, EndOfRun, SettledBefore, Waiting;
    StuckIsOpen(t, current);
    var mem := Load(MACHINE, t.stored, t.world, t.log);
    var r, after := StuckFails(mem, current);
    StoresAgain(mem, r, after, current);
    StillReached(mem, r, after, current);
    end := EndOfRun(MACHINE, after, r.outcome);
  }

  /** One more run changes nothing but the number of answers used. */
  lemma StuckStays(t: Session<World>, current: StepName)
    requires Stuck(t, current)
    ensures var u := RunOnce(MACHINE, t);
            Stuck(u, current) && u.world == t.world.(read := t.world.read + 1)
  {
    hide Run, Restore, LastReached, SettledBefore, Waiting;
    var end := StuckRun(t, current);
  }

  lemma {:induction false} StuckForEver(t: Session<World>, current: StepName, k: nat)
    requires Stuck(t, current)
    ensures var u := Runs(MACHINE, t, k);
            Stuck(u, current) && u.world == t.world.(read := t.world.read + k)
  {
    hide Stuck, RunOnce;
    if k > 0 {
      StuckForEver(t, current, k - 1);
      StuckStays(Runs(MACHINE, t, k - 1), current);
    }
  }

  // ---------------------------------------------------------------------------- the theorems

  /** The last call of a redirected transfer is the one that failed. */
  ghost predicate RedirectedAt(s: Session<World>) {
    && s.log != [] && |STAGES| == 4
    && var p := PosOf(Last(s));
       && p.stage < 3 && AtPos(STAGES, Restore(STAGES, s.stored.steps), p)
       && s.stored.state.customError == (if Last(s).outcome == Err(FailedTransfer) then Decodable else Absent)
       && Last(s).context.step == STAGES[p.stage].steps[p.step].name
       && (Last(s).outcome == Err(FailedTransfer) || Last(s).outcome == Err(Plain))
  }

  lemma LastIsWitnessed(s: Session<World>, b: Driver<World>)
    requires Simulation.Between(MACHINE, s, b) && s.log != []
    ensures Witnessed(STAGES, Last(s)) && b.log != []
    ensures var last := b.log[|b.log| - 1];
            PosOf(last) == PosOf(Last(s)) && last.context == Last(s).context && last.outcome == Last(s).outcome
  {
    hide Witnessed;
  }

  lemma DriverRedirected(s: Session<World>, b: Driver<World>)
    requires Simulation.Between(MACHINE, s, b) && Inv(b) && OnWay(b) && b.phase.Redirected?
    ensures RedirectedAt(s)
    ensures PosOf(Last(s)) == b.pos && (b.phase.customError == Absent ==> Last(s).outcome == Err(Plain))
  {
    hide Keeps, Known, Upto, Successes, FoundInactive, WasDelegated, Handled, At, Safe, Routed, FundedFirst, Restore,
      AtPos, AllWitnessed, Bare, Reaches;
    Table();
    LastIs(s, b);
    LastIsWitnessed(s, b);
  }

  /** The first of any number of runs, up to the first redirect, as in TronItinerary. */
  lemma RunsToRedirect(request: Request, tape: nat -> Answer, k: nat) returns (j: nat)
    ensures j <= k
    ensures var s := Runs(MACHINE, Fresh(Begin(request, tape)), j);
            && (j < k ==> SentToCompensate(s.stored))
            && (SentToCompensate(s.stored) ==> RedirectedAt(s))
  {
    hide CallStep, RunOnce, OnWay, RedirectedAt, At, Recorded;
    Table();
    TableIsDistinct();
    var w := Begin(request, tape);
    AlwaysGoesForward(w);
    var n;
    n, j := RunsRefineDriver(MACHINE, w, k);
    InvDrive(w, n);
    WayDrive(w, n);
    var b, s := Drive(MACHINE, Start(MACHINE, w), n), Runs(MACHINE, Fresh(w), j);
    if b.phase.Redirected? {
      NotReached(s, b);
      DriverRedirected(s, b);
    }
  }

  /** After a redirect the first run compensates. If the process dies in it, or it errs, the run after it
      does not go on with the compensation: it calls the step that had failed again, before anything else,
      and that step takes the compensation step that stopped for the current one. */
  lemma InterruptedGoesBack(request: Request, tape: nat -> Answer, k: nat) returns (j: nat)
    ensures j <= k
    ensures var s := Runs(MACHINE, Fresh(Begin(request, tape)), j);
            && (j < k ==> SentToCompensate(s.stored))
            && (SentToCompensate(s.stored) ==>
                  var t := RunOnce(MACHINE, s);
                  RedirectedAt(s) &&
                  (Interrupted(t) ==>
                     CallsFirst(t, RunOnce(MACHINE, t), PosOf(Last(s)),
                                SeesAgain(PosOf(Last(s)), Last(t).context.step, s.stored.state.customError))))
  {
    hide RunOnce, Runs, CallsFirst, Restore, SentToCompensate;
    j := RunsToRedirect(request, tape, k);
    var s := Runs(MACHINE, Fresh(Begin(request, tape)), j);
    if SentToCompensate(s.stored) {
      GoesBackTo(s, PosOf(Last(s)));
    }
  }

  /** A transfer that could not be sent, and whose compensation was interrupted, is stuck. */
  lemma FailedSendIsStuck(s: Session<World>)
    requires SentToCompensate(s.stored) && RedirectedAt(s)
    requires PosOf(Last(s)) == SENDING && Last(s).outcome == Err(Plain)
    ensures var t := RunOnce(MACHINE, s);
            Interrupted(t) ==> t.world.history == s.world.history && Stuck(t, Last(t).context.step)
  {
    hide RunOnce, Restore;
    Table();
    TronCompensation(s, 0);
    var t := RunOnce(MACHINE, s);
    if Interrupted(t) {
      StoppedInPlan(s, t);
      StuckAfter(s, t);
    }
  }

  /** Without the details of a failed transfer the compensation is the decision and the failure event. */
  lemma StoppedInPlan(s: Session<World>, t: Session<World>)
    requires FollowsPlan(s, t) && t.log != [] && s.stored.state.customError == Absent
    ensures Typeless(Last(t).context.step)
  {
    var calls := t.log[|s.log|..];
    assert calls[|calls| - 1] == Last(t);
    assert calls[|calls| - 1].context.step == Plan(s.world.request, Absent)[|calls| - 1];
  }

  lemma StuckAfter(s: Session<World>, t: Session<World>)
    requires AtPos(STAGES, Restore(STAGES, s.stored.steps), SENDING) && t.log != []
    requires Unfinished(Restore(STAGES, s.stored.steps), Absent, t.stored, Last(t).context.step)
    requires Typeless(Last(t).context.step)
    ensures Stuck(t, Last(t).context.step)
  {
    hide Restore;
    Table();
    var rows, now := Restore(STAGES, s.stored.steps), Restore(STAGES, t.stored.steps);
    forall a, b | 0 <= a < |now| && 0 <= b < |now[a]| && Before(Pos(a, b), SENDING) ensures Settled(now[a][b]) {
      assert now[a] == rows[a];
    }
    assert now[1] == rows[1];
  }

  /** So a transfer whose sending failed, and whose compensation the process died in, is neither sent nor
      failed nor completed, whatever is answered and however often it is run. */
  lemma FailedSendSticks(request: Request, tape: nat -> Answer, k: nat, n: nat) returns (j: nat)
    ensures j <= k
    ensures var s := Runs(MACHINE, Fresh(Begin(request, tape)), j);
            var t := RunOnce(MACHINE, s);
            && (j < k ==> SentToCompensate(s.stored))
            && (SentToCompensate(s.stored) && s.log != [] && Last(s).context.step == StepSending &&
                Last(s).outcome == Err(Plain) && Interrupted(t) ==>
                  && t.world.history == s.world.history
                  && Runs(MACHINE, t, n).world == t.world.(read := t.world.read + n))
  {
    hide RunOnce, Runs, Restore, SentToCompensate, Stuck;
    Table();
    j := RunsToRedirect(request, tape, k);
    var s := Runs(MACHINE, Fresh(Begin(request, tape)), j);
    var t := RunOnce(MACHINE, s);
    if SentToCompensate(s.stored) && Last(s).context.step == StepSending && Last(s).outcome == Err(Plain) &&
      Interrupted(t) {
      HomeIs(PosOf(Last(s)).stage, PosOf(Last(s)).step);
      FailedSendIsStuck(s);
      StuckForEver(t, Last(t).context.step, n);
    }
  }

  // -------------------------------------------------------------------- a transfer that gets there

  const REQUEST := Request(1, 1, true, true, ProcessingWallet, Some(BurnTRX), false, false, false, 1)

  /** The answers up to a refused broadcast and a death in the compensation; any may follow. */
  ghost predicate Starts(tape: nat -> Answer) {
    (forall i :: 0 <= i < 5 ==> tape(i).death == Lives) && !tape(4).prepared && tape(5).death == DiesFirst
  }

  function WayPos(n: nat): Pos
    requires n < 5
  {
    [Pos(0, 0), Pos(0, 1), Pos(0, 8), Pos(0, 9), SENDING][n]
  }

  ghost predicate Passes(a: Driver<World>, tape: nat -> Answer, n: nat)
    requires n <= 5
  {
    && a.world.request == REQUEST && a.world.tape == tape && a.world.read == n
    && a.world.history == (if n == 0 then [] else [StatusProcessing]) && a.world.sends == []
    && if n < 5 then a.phase == Live && a.pos == WayPos(n)
       else a.phase.Redirected? && a.phase.customError == Absent && a.pos == SENDING
  }

  /** The turns of the transfer. */
  lemma WayTurns(w: World, n: nat)
    requires Starts(w.tape) && n < 5 && w.request == REQUEST && w.read == n
    ensures TurnOf(w, WayPos(n), w.tape(n)) == (if n < 4 then GoesOn(WayPos(n + 1)) else Compensates(false))
    ensures Out(w, WayPos(n), w.tape(n)) == []
    ensures Stored(WayPos(n), TurnOf(w, WayPos(n), w.tape(n))) == if n == 0 then [StatusProcessing] else []
  {
    hide Recorded;
  }

  lemma PassesOn(a: Driver<World>, tape: nat -> Answer, n: nat)
    requires Starts(tape) && n < 5 && Passes(a, tape, n) && Inv(a)
    ensures Passes(DriveStep(MACHINE, a), tape, n + 1)
  {
    hide DriveStep, Inv, Recorded, Committed, TurnOf, Out, Stored, KindAt;
    TronTurns(a);
    WayTurns(a.world, n);
    assert Txs(KindAt(a.pos), []) == [];
  }

  lemma {:induction false} Arrives(tape: nat -> Answer, n: nat)
    requires Starts(tape) && n <= 5
    ensures Passes(Drive(MACHINE, Start(MACHINE, Begin(REQUEST, tape)), n), tape, n)
  {
    hide DriveStep, Inv;
    var w := Begin(REQUEST, tape);
    if n == 0 {
      Table();
    } else {
      Arrives(tape, n - 1);
      InvDrive(w, n - 1);
      PassesOn(Drive(MACHINE, Start(MACHINE, w), n - 1), tape, n - 1);
    }
  }

  /** Any number of steps past the fifth leave the driver there. */
  lemma StaysThere(tape: nat -> Answer, n: nat)
    requires Starts(tape)
    ensures var b := Drive(MACHINE, Start(MACHINE, Begin(REQUEST, tape)), n);
            if n < 5 then b.phase == Live else Passes(b, tape, 5)
  {
    hide DriveStep;
    if n < 5 {
      Arrives(tape, n);
    } else {
      Arrives(tape, 5);
      var a := Start(MACHINE, Begin(REQUEST, tape));
      DriveSplit(MACHINE, a, 5, n - 5);
      StoppedDriver(MACHINE, Drive(MACHINE, a, 5), n - 5);
    }
  }

  /** A death in the decision of the compensation interrupts it. */
  lemma DecisionDies(s: Session<World>)
    requires SentToCompensate(s.stored) && s.world.tape(s.world.read).death.DiesFirst?
    ensures var t := RunOnce(MACHINE, s); Interrupted(t) && t.world == s.world.(read := s.world.read + 1)
  {
    hide CallStep, ExecuteStep, HandleStep, StepsFrom, Restore;
    StepNames();
    TableIsDistinct();
    RedirectedIsUp(s);
    var mem := Load(MACHINE, s.stored, s.world, s.log);
    var here := mem.(state := mem.state.(nextStage := None));
    var customError := s.stored.state.customError;
    DecisionReplies(s.world, customError);
    var u, call := Calls(here, 0, Some(StepDetermineCompensationFlow), customError, StepDetermineCompensationFlow,
      ReplyOf(s.world, StepDetermineCompensationFlow, customError));
    RunsLast(MACHINE, mem, 3);
    assert Enter(MACHINE, mem, 3) == here;
  }

  /** The first six runs redirect the transfer. */
  lemma RedirectIsReached(tape: nat -> Answer) returns (j: nat)
    requires Starts(tape)
    ensures j <= 6
    ensures var s := Runs(MACHINE, Fresh(Begin(REQUEST, tape)), j);
            && SentToCompensate(s.stored) && RedirectedAt(s) && PosOf(Last(s)) == SENDING &&
               Last(s).outcome == Err(Plain)
            && s.world.tape == tape && s.world.read == 5 && s.world.history == [StatusProcessing] && s.world.sends == []
  {
    hide CallStep, RunOnce, OnWay, RedirectedAt, At, Recorded, Restore, SentToCompensate;
    Table();
    TableIsDistinct();
    var w := Begin(REQUEST, tape);
    AlwaysGoesForward(w);
    var n;
    n, j := RunsRefineDriver(MACHINE, w, 6);
    InvDrive(w, n);
    WayDrive(w, n);
    StaysThere(tape, n);
    var b, s := Drive(MACHINE, Start(MACHINE, w), n), Runs(MACHINE, Fresh(w), j);
    NotReached(s, b);
    DriverRedirected(s, b);
  }

  /** A transfer gets there, and then stays in processing: it is neither sent nor failed nor completed,
      after any number of runs and whatever is answered. */
  lemma StuckIsReached(tape: nat -> Answer, n: nat) returns (j: nat)
    requires Starts(tape)
    ensures j <= 6
    ensures var s := Runs(MACHINE, Runs(MACHINE, Fresh(Begin(REQUEST, tape)), j + 1), n);
            s.world.history == [StatusProcessing] && s.world.sends == []
  {
    hide RunOnce, Restore, SentToCompensate, Stuck, RedirectedAt;
    j := RedirectIsReached(tape);
    var s := Runs(MACHINE, Fresh(Begin(REQUEST, tape)), j);
    DecisionDies(s);
    FailedSendIsStuck(s);
    StuckForEver(RunOnce(MACHINE, s), Last(RunOnce(MACHINE, s)).context.step, n);
  }
}
