/** The run of a Tron transfer that a failure redirected: it only compensates. */
module FsmTronCompensation {
  import opened Wrappers
  import opened Names
  import opened Engine
  import opened Resumption
  import opened History
  import opened Transfers
  import opened FsmTron
  import opened FsmTronRouting
  import opened FsmTronCalls
  import opened FsmTronSafety
  import opened LastStage
  import opened Simulation
  import opened SnapshotRoundTrip

  /** The compensation steps a transfer takes, in order: resources are reclaimed exactly when the
      details of a failed transfer are stored and the transfer is of the kind that delegates. */
  function Plan(q: Request, customError: CustomError): seq<StepName> {
    if customError == Decodable && q.kind == Some(Resources)
    then [StepDetermineCompensationFlow, StepReclaimOnError, StepWaitingReclaimOnErrorConfirmation,
      StepSendFailureEvent]
    else [StepDetermineCompensationFlow, StepSendFailureEvent]
  }

  /** The calls follow the plan up to the first that does not succeed. */
  predicate Follows(calls: seq<Call>, plan: seq<StepName>) {
    && 1 <= |calls| <= |plan|
    && (forall x :: 0 <= x < |calls| ==>
       calls[x].context.stage == StageCompensateOnFail && calls[x].context.step == plan[x])
    && (forall x :: 0 <= x < |calls| - 1 ==> calls[x].outcome.Done?)
    && (calls[|calls| - 1].outcome.Done? ==> |calls| == |plan|)
  }

  /** The step is the last of the compensation that was reached. */
  predicate LastReached(rows: seq<seq<Status>>, step: StepName) {
    && Shaped(STAGES, rows) && |STAGES| == 4 && |STAGES[3].steps| == 4 && |COMPENSATE| == 4
    && exists j :: 0 <= j < 4 && COMPENSATE[j].name == step && Valid(rows[3][j]) &&
         forall b :: j < b < 4 ==> rows[3][b] == NoStatus
  }

  /** The compensation stopped at the step of a call: no jump is left, that step is the last of its
      stage that was reached, and after a death what is stored says so. */
  ghost predicate StoppedAt(customError: CustomError, after: Memory<World>, call: Call)
    requires Shaped(STAGES, after.rows) && |STAGES| == 4 && |STAGES[3].steps| == 4 && |COMPENSATE| == 4
  {
    && after.state == CLEAN.(customError := customError)
    && LastReached(after.rows, call.context.step)
    && (call.outcome.Died? ==> after.stored == SnapshotOf(MACHINE, after))
  }

  /** How the rest of the compensation ends: its calls follow the plan, and if all succeed the
      workflow and the transfer are marked failed. */
  ghost predicate Compensated(mem: Memory<World>, after: Memory<World>, o: Outcome, plan: seq<StepName>) {
    && Shaped(STAGES, after.rows) && |STAGES| == 4 && |STAGES[3].steps| == 4 && |COMPENSATE| == 4
    && mem.log <= after.log && OthersKept(mem, after, 3)
    && var calls := after.log[|mem.log|..];
       && Follows(calls, plan)
       && calls[|calls| - 1].outcome == o
       && (!o.Done? ==>
             after.world.history == mem.world.history && StoppedAt(mem.state.customError, after, calls[|calls| - 1]))
       && (o.Done? ==> after.state.isFailed && after.world.history == mem.world.history + [StatusFailed])
       && (o == Done || o == Died || o == Err(Plain) || o == Err(FailedTransfer))
  }

  ghost predicate Ends(mem: Memory<World>, r: (Memory<World>, Outcome), plan: seq<StepName>) {
    exists after, o :: r == (after, o) && Compensated(mem, after, o, plan)
  }

  lemma StepNames()
    ensures Plainly(STAGES) && |STAGES| == 4 && STAGES[3] == Stage(StageCompensateOnFail, COMPENSATE) &&
            |COMPENSATE| == 4
    ensures COMPENSATE[0].name == StepDetermineCompensationFlow && COMPENSATE[1].name == StepReclaimOnError
    ensures COMPENSATE[2].name == StepWaitingReclaimOnErrorConfirmation && COMPENSATE[3].name == StepSendFailureEvent
  {
    Table();
  }

  // ------------------------------------------------------------- what the steps reply

  /** The reply of a compensation step that is the current one. */
  function ReplyOf(w: World, step: StepName, customError: CustomError): Reply<World> {
    CallStep(w, Context(StageCompensateOnFail, step, Some(StageCompensateOnFail), Some(step), customError))
  }

  /** The decision: reclaim, or go to the failure event. */
  lemma DecisionReplies(w: World, customError: CustomError)
    ensures var v := w.(read := w.read + 1);
            ReplyOf(w, StepDetermineCompensationFlow, customError) ==
            if w.tape(w.read).death.DiesFirst? then Die(v) else GoTo(v, Plan(w.request, customError)[1])
  {
  }

  /** The replies of the steps between the decision and the failure event: no jump, no status. */
  predicate Between(w: World, r: Reply<World>) {
    && Quiet(r) && r.world.history == w.history && r.world.request == w.request
    && (r.outcome == Done || r.outcome == Err(Plain) || r.outcome == Err(FailedTransfer) || r.outcome == Died)
  }

  /** Transactions that reclaim resources were broadcast, one for each hash, and recorded, unless the
      process died before. */
  predicate ReclaimedMore(w: World, v: World, a: Answer, hashes: seq<nat>) {
    && v.sends == w.sends + Txs(ReclaimResources, hashes)
    && v.rows == w.rows + Txs(ReclaimResources, Committed(a, hashes))
  }

  predicate ReclaimedEach(wanted: seq<Frozen>, hashes: seq<nat>) {
    |hashes| == |wanted| && forall k :: 0 <= k < |wanted| ==> wanted[k].hash == Some(hashes[k])
  }

  /** The step does nothing if nothing was delegated, and else reclaims what is staked. */
  lemma ReclaimIs(w: World, customError: CustomError) returns (c: Context)
    ensures TxTypeOf(c.currentStep) == Some(ReclaimResources)
    ensures var v := w.(read := w.read + 1);
            ReplyOf(w, StepReclaimOnError, customError) ==
            if w.tape(w.read).death.DiesFirst? then Die(v)
            else if !w.delegatedFrom then Succeed(v)
            else if !w.tape(w.read).prepared then Refuse(v)
            else ReclaimFrozen(v, w.tape(w.read), c)
  {
    hide ReclaimFrozen;
    c := Context(StageCompensateOnFail, StepReclaimOnError, Some(StageCompensateOnFail), Some(StepReclaimOnError),
                 customError);
  }

  /** The step records what it broadcasts, no more than there are entries to reclaim, also when it
      fails on the way; it succeeds only if nothing was delegated or every entry was reclaimed. */
  lemma ReclaimReplies(w: World, customError: CustomError) returns (hashes: seq<nat>)
    ensures var r, a := ReplyOf(w, StepReclaimOnError, customError), w.tape(w.read);
            && Between(w, r)
            && ReclaimedMore(w, r.world, a, hashes) && |hashes| <= |Wanted(a, a.frozen)|
            && (r.outcome.Done? && w.delegatedFrom ==> ReclaimedEach(Wanted(a, a.frozen), hashes))
  {
    hide ReplyOf, CallStep, ReclaimLoops, Wanted, TxTypeOf;
    var a := w.tape(w.read);
    ReclaimsEach(a, a.frozen);
    var _ := ReclaimIs(w, customError);
    if a.death.DiesFirst? || !w.delegatedFrom || !a.prepared {
      hashes := [];
    } else {
      hashes := ReclaimLoops(a, true, a.frozen).hashes;
    }
  }

  lemma WaitingReplies(w: World, customError: CustomError)
    ensures Between(w, ReplyOf(w, StepWaitingReclaimOnErrorConfirmation, customError))
  {
    hide Recorded, CheckAll;
    CheckAllIsSeen(w.(read := w.read + 1), w.tape(w.read), Recorded(w.rows, ReclaimResources));
  }

  /** The event of the failure marks the transfer and the workflow failed. */
  lemma FailureReplies(w: World, customError: CustomError)
    ensures var v := w.(read := w.read + 1);
            ReplyOf(w, StepSendFailureEvent, customError) == if w.tape(w.read).death.DiesFirst? then Die(v)
              else SendFailureEvent(v)
  {
  }

  // ------------------------------------------------------------------- the plan is followed

  /** One call of the plan, then the rest of it. */
  lemma FollowsOn(log: seq<Call>, call: Call, after: seq<Call>, step: StepName, plan: seq<StepName>)
    requires log + [call] <= after && Follows(after[|log| + 1..], plan)
    requires call.context.stage == StageCompensateOnFail && call.context.step == step && call.outcome.Done?
    ensures log <= after && Follows(after[|log|..], [step] + plan)
    ensures after[|log|..][|after| - |log| - 1] == after[|log| + 1..][|after| - |log| - 2]
  {
    assert after[|log|..] == [call] + after[|log| + 1..] by {
      assert after[|log|] == call;
    }
  }

  /** A step that succeeds is followed by the rest of the plan. */
  lemma GoesOn(mem: Memory<World>, u: Memory<World>, r: (Memory<World>, Outcome), call: Call, plan: seq<StepName>)
    requires u.log == mem.log + [call] && u.world.history == mem.world.history && Ends(u, r, plan)
    requires OthersKept(mem, u, 3) && u.state.customError == mem.state.customError
    requires call.context.stage == StageCompensateOnFail && call.outcome.Done?
    ensures Ends(mem, r, [call.context.step] + plan)
  {
    hide StepsFrom, HandleStep, ExecuteStep, StoppedAt, Follows;
    FollowsOn(mem.log, call, r.0.log, call.context.step, plan);
    assert Compensated(mem, r.0, r.1, [call.context.step] + plan);
  }

  /** A step that fails or dies ends the run, however long the plan is. */
  lemma StopsShort(mem: Memory<World>, after: Memory<World>, o: Outcome, call: Call, plan: seq<StepName>)
    requires after.log == mem.log + [call] && Shaped(STAGES, after.rows) && plan != []
    requires call.context.stage == StageCompensateOnFail && call.context.step == plan[0]
    requires call.outcome == o && (o == Err(Plain) || o == Err(FailedTransfer) || o == Died)
    requires OthersKept(mem, after, 3) && |STAGES| == 4 && |STAGES[3].steps| == 4 && |COMPENSATE| == 4
    requires StoppedAt(mem.state.customError, after, call) && after.world.history == mem.world.history
    ensures Ends(mem, (after, o), plan)
  {
    assert after.log[|mem.log|..] == [call];
    assert Compensated(mem, after, o, plan);
  }

  /** The compensation stage is about to handle step `j`. */
  predicate Up(mem: Memory<World>, j: nat, next: Option<StepName>, customError: CustomError) {
    && |STAGES| == 4 && |STAGES[3].steps| == 4 && |COMPENSATE| == 4 && j < 4 &&
       AtLast(MACHINE, mem, 3, j, next, customError)
    && (next.None? || next == Some(COMPENSATE[j].name))
  }

  ghost predicate IsRest(mem: Memory<World>, j: nat, r: (Memory<World>, Outcome))
    requires Shaped(STAGES, mem.rows) && |STAGES| == 4 && |STAGES[3].steps| == 4 && j <= 4
  {
    r == StepsFrom(MACHINE, mem, 3, j)
  }

  /** What the handling of the stage from step `j` on comes to, after the call of that step. */
  ghost predicate Continues(mem: Memory<World>, j: nat, u: Memory<World>, call: Call)
    requires Shaped(STAGES, mem.rows) && Shaped(STAGES, u.rows) && |STAGES| == 4 && |STAGES[3].steps| == 4 && j < 4
  {
    exists r :: IsRest(mem, j, r) && if call.outcome.Done? then IsRest(u, j + 1, r) else r == (u, call.outcome)
  }

  lemma ContinuesBy(mem: Memory<World>, j: nat, u: Memory<World>, call: Call)
    requires Shaped(STAGES, mem.rows) && Shaped(STAGES, u.rows) && |STAGES| == 4 && |STAGES[3].steps| == 4 && j < 4
    requires StepsFrom(MACHINE, mem, 3, j) == if call.outcome.Done? then StepsFrom(MACHINE, u, 3, j + 1)
             else (u, call.outcome)
    ensures Continues(mem, j, u, call)
  {
    assert IsRest(mem, j, StepsFrom(MACHINE, mem, 3, j));
  }

  /** A step of the stage is called once; what follows depends on its reply. */
  lemma Calls(mem: Memory<World>, j: nat, next: Option<StepName>, customError: CustomError, step: StepName,
              r: Reply<World>)
    returns (after: Memory<World>, call: Call)
    requires Up(mem, j, next, customError) && step == COMPENSATE[j].name
    requires r == ReplyOf(mem.world, step, customError) && r.outcome != Err(SkipStep) && r.nextStage.None?
    ensures after.world == r.world && Shaped(STAGES, after.rows)
    ensures Continues(mem, j, after, call)
    ensures !r.fail ==> AtLast(MACHINE, after, 3, j + 1, r.nextStep, customError)
    ensures r.fail ==> after.state.isFailed
    ensures OthersKept(mem, after, 3)
    ensures after.log == mem.log + [call] && call.outcome == r.outcome
    ensures !r.outcome.Done? && Quiet(r) ==> StoppedAt(customError, after, call)
    ensures call.context.stage == StageCompensateOnFail && call.context.step == step
  {
    hide CallStep, ExecuteStep, HandleStep, Recorded;
    StepNames();
    after, call := Handles(MACHINE, mem, 3, j, next, customError);
    ContinuesBy(mem, j, after, call);
    if !r.fail {
      NextUp(MACHINE, mem, 3, j, customError, r, after);
    }
  }

  lemma FailureEventEnds(mem: Memory<World>, next: Option<StepName>, customError: CustomError)
    requires Up(mem, 3, next, customError)
    ensures Ends(mem, StepsFrom(MACHINE, mem, 3, 3), [StepSendFailureEvent])
  {
    hide CallStep, HandleStep, ExecuteStep, ReplyOf;
    StepNames();
    FailureReplies(mem.world, customError);
    var u, call := Calls(mem, 3, next, customError, StepSendFailureEvent,
      ReplyOf(mem.world, StepSendFailureEvent, customError));
    assert u.log[|mem.log|..] == [call];
    if call.outcome.Done? {
      assert StepsFrom(MACHINE, u, 3, 4) == (u, Done);
      assert Compensated(mem, u, Done, [StepSendFailureEvent]);
    } else {
      StopsShort(mem, u, Died, call, [StepSendFailureEvent]);
    }
  }

  lemma WaitingEnds(mem: Memory<World>, customError: CustomError)
    requires Up(mem, 2, None, customError)
    ensures Ends(mem, StepsFrom(MACHINE, mem, 3, 2), [StepWaitingReclaimOnErrorConfirmation] + [StepSendFailureEvent])
  {
    hide CallStep, HandleStep, ExecuteStep, ReplyOf;
    StepNames();
    WaitingReplies(mem.world, customError);
    var r := ReplyOf(mem.world, StepWaitingReclaimOnErrorConfirmation, customError);
    var u, call := Calls(mem, 2, None, customError, StepWaitingReclaimOnErrorConfirmation, r);
    if r.outcome.Done? {
      FailureEventEnds(u, None, customError);
      GoesOn(mem, u, StepsFrom(MACHINE, u, 3, 3), call, [StepSendFailureEvent]);
    } else {
      StopsShort(mem, u, r.outcome, call, [StepWaitingReclaimOnErrorConfirmation] + [StepSendFailureEvent]);
    }
  }

  lemma ReclaimCalls(mem: Memory<World>, customError: CustomError) returns (u: Memory<World>, call: Call)
    requires Up(mem, 1, Some(StepReclaimOnError), customError)
    ensures AtLast(MACHINE, u, 3, 2, None, customError) && u.world.history == mem.world.history
    ensures OthersKept(mem, u, 3) && (!call.outcome.Done? ==> StoppedAt(customError, u, call))
    ensures Continues(mem, 1, u, call)
    ensures u.log == mem.log + [call] && call.context.stage == StageCompensateOnFail &&
            call.context.step == StepReclaimOnError
    ensures call.outcome == Done || call.outcome == Err(Plain) || call.outcome == Err(FailedTransfer) ||
            call.outcome == Died
  {
    hide CallStep, HandleStep, ExecuteStep, ReplyOf;
    StepNames();
    var _ := ReclaimReplies(mem.world, customError);
    u, call := Calls(mem, 1, Some(StepReclaimOnError), customError, StepReclaimOnError,
      ReplyOf(mem.world, StepReclaimOnError, customError));
  }

  lemma ReclaimEnds(mem: Memory<World>, customError: CustomError)
    requires Up(mem, 1, Some(StepReclaimOnError), customError)
    ensures Ends(mem, StepsFrom(MACHINE, mem, 3, 1),
            [StepReclaimOnError] + ([StepWaitingReclaimOnErrorConfirmation] + [StepSendFailureEvent]))
  {
    hide StepsFrom, HandleStep, ExecuteStep;
    StepNames();
    var rest := [StepWaitingReclaimOnErrorConfirmation] + [StepSendFailureEvent];
    var u, call := ReclaimCalls(mem, customError);
    if call.outcome.Done? {
      WaitingEnds(u, customError);
      GoesOn(mem, u, StepsFrom(MACHINE, u, 3, 2), call, rest);
    } else {
      StopsShort(mem, u, call.outcome, call, [StepReclaimOnError] + rest);
    }
  }

  lemma SkipsToFailure(mem: Memory<World>, customError: CustomError)
    requires AtLast(MACHINE, mem, 3, 1, Some(StepSendFailureEvent), customError)
    ensures Ends(mem, StepsFrom(MACHINE, mem, 3, 1), [StepSendFailureEvent])
  {
    hide StepsFrom, HandleStep, ExecuteStep;
    StepNames();
    var u := JumpsOver(MACHINE, mem, 3, 1, StepSendFailureEvent, customError);
    var v := JumpsOver(MACHINE, u, 3, 2, StepSendFailureEvent, customError);
    FailureEventEnds(v, Some(StepSendFailureEvent), customError);
  }

  lemma RestEnds(mem: Memory<World>, customError: CustomError, plan: seq<StepName>)
    requires plan == Plan(mem.world.request, customError)
    requires AtLast(MACHINE, mem, 3, 1, Some(plan[1]), customError)
    ensures Ends(mem, StepsFrom(MACHINE, mem, 3, 1), plan[1..])
  {
    hide StepsFrom, HandleStep, ExecuteStep;
    StepNames();
    if plan[1] == StepReclaimOnError {
      ReclaimEnds(mem, customError);
      assert plan[1..] == [StepReclaimOnError] + ([StepWaitingReclaimOnErrorConfirmation] + [StepSendFailureEvent]);
    } else {
      SkipsToFailure(mem, customError);
      assert plan[1..] == [StepSendFailureEvent];
    }
  }

  lemma PlanEnds(mem: Memory<World>, u: Memory<World>, call: Call, customError: CustomError, plan: seq<StepName>)
    requires plan == Plan(mem.world.request, customError) && u.log == mem.log + [call]
    requires u.world.history == mem.world.history && u.world.request == mem.world.request
    requires AtLast(MACHINE, u, 3, 1, Some(plan[1]), customError)
    requires OthersKept(mem, u, 3) && mem.state.customError == customError
    requires call.context.stage == StageCompensateOnFail && call.context.step == plan[0] && call.outcome.Done?
    ensures Shaped(STAGES, u.rows) && Ends(mem, StepsFrom(MACHINE, u, 3, 1), plan)
  {
    hide StepsFrom, HandleStep, ExecuteStep, Ends, OthersKept;
    StepNames();
    RestEnds(u, customError, plan);
    GoesOn(mem, u, StepsFrom(MACHINE, u, 3, 1), call, plan[1..]);
    assert [plan[0]] + plan[1..] == plan;
  }

  lemma DecisionCalls(mem: Memory<World>, customError: CustomError) returns (u: Memory<World>, call: Call)
    requires Up(mem, 0, Some(StepDetermineCompensationFlow), customError)
    ensures u.world.history == mem.world.history && u.world.request == mem.world.request && Shaped(STAGES, u.rows)
    ensures OthersKept(mem, u, 3) && (!call.outcome.Done? ==> StoppedAt(customError, u, call))
    ensures call.outcome.Done? ==> AtLast(MACHINE, u, 3, 1, Some(Plan(mem.world.request, customError)[1]), customError)
    ensures Continues(mem, 0, u, call)
    ensures u.log == mem.log + [call] && (call.outcome == Done || call.outcome == Died)
    ensures call.context.stage == StageCompensateOnFail && call.context.step == StepDetermineCompensationFlow
  {
    hide CallStep, HandleStep, ExecuteStep, ReplyOf;
    StepNames();
    DecisionReplies(mem.world, customError);
    u, call := Calls(mem, 0, Some(StepDetermineCompensationFlow), customError, StepDetermineCompensationFlow,
                     ReplyOf(mem.world, StepDetermineCompensationFlow, customError));
  }

  /** The whole compensation stage. */
  lemma StageCompensates(mem: Memory<World>, customError: CustomError)
    requires Up(mem, 0, Some(StepDetermineCompensationFlow), customError)
    ensures Ends(mem, StepsFrom(MACHINE, mem, 3, 0), Plan(mem.world.request, customError))
  {
    hide StepsFrom, HandleStep, ExecuteStep;
    StepNames();
    var plan := Plan(mem.world.request, customError);
    var u, call := DecisionCalls(mem, customError);
    if call.outcome.Done? {
      PlanEnds(mem, u, call, customError, plan);
    } else {
      StopsShort(mem, u, Died, call, plan);
    }
  }

  // ------------------------------------------------------------------- the whole run

  /** What is stored of a compensation that stopped at a step: no jump, the statuses of the other
      stages as they were, and the step as the last that was reached. */
  predicate Unfinished(rows: seq<seq<Status>>, customError: CustomError, stored: Snapshot, step: StepName) {
    var now := Restore(STAGES, stored.steps);
    && |rows| == |now| == 4 && |STAGES| == 4 && |STAGES[3].steps| == 4 && |COMPENSATE| == 4
    && stored.state == CLEAN.(customError := customError)
    && (forall a :: 0 <= a < 3 ==> now[a] == rows[a])
    && LastReached(now, step)
  }

  /** The calls of a compensating run, and where they lead: if all succeed, and if one dies or errs. */
  ghost predicate RanPlan(before: Memory<World>, end: Memory<World>, plan: seq<StepName>) {
    && before.log <= end.log
    && var calls := end.log[|before.log|..];
       && Follows(calls, plan)
       && var last := calls[|calls| - 1];
          && (last.outcome.Done? ==>
                end.stored.state.isFailed && end.world.history == before.world.history + [StatusFailed])
          && (last.outcome == Died || last.outcome == Err(Plain) ==>
                && end.world.history == before.world.history
                && Unfinished(before.rows, before.state.customError, end.stored, last.context.step))
          && (last.outcome == Err(FailedTransfer) ==> end.stored.state.nextStage == Some(StageCompensateOnFail))
  }

  /** The last step that was reached is the current one. */
  lemma LastIsCurrent(rows: seq<seq<Status>>, step: StepName)
    requires LastReached(rows, step)
    ensures CurrentStageName(STAGES, rows) == Some(StageCompensateOnFail)
    ensures CurrentStepName(STAGES, rows) == Some(step)
  {
    StepNames();
    var j :| 0 <= j < 4 && COMPENSATE[j].name == step && Valid(rows[3][j]) &&
      forall b :: j < b < 4 ==> rows[3][b] == NoStatus;
    assert LastValid(rows[3]) == j;
    assert CurrentStage(STAGES, rows) == 3;
  }

  /** An error of the compensation changes no status, and jumps only if it is that of a transfer that
      cannot succeed. */
  lemma FailureIs(after: Memory<World>, step: StepName, e: Error)
    requires LastReached(after.rows, step) && (e == Plain || e == FailedTransfer)
    ensures var end := Fail(MACHINE, Save(MACHINE, after), e);
            && end.log == after.log && end.world == after.world
            && (e == Plain ==> end.stored == SnapshotOf(MACHINE, after))
            && (e == FailedTransfer ==> end.stored.state.nextStage == Some(StageCompensateOnFail))
  {
    hide CallStep, Collect, CurrentStageName, CurrentStepName;
    LastIsCurrent(after.rows, step);
  }

  lemma StoredIsUnfinished(mem: Memory<World>, after: Memory<World>, call: Call)
    requires Shaped(STAGES, after.rows) && |STAGES| == 4 && |STAGES[3].steps| == 4 && |COMPENSATE| == 4
    requires OthersKept(mem, after, 3) && StoppedAt(mem.state.customError, after, call)
    ensures Unfinished(mem.rows, mem.state.customError, SnapshotOf(MACHINE, after), call.context.step)
  {
    TableIsDistinct();
    DistinctPairs(STAGES);
    RestoreCollect(STAGES, after.rows);
  }

  /** What follows the stages keeps what they did. */
  lemma EndKeeps(before: Memory<World>, after: Memory<World>, o: Outcome, plan: seq<StepName>)
    requires Compensated(before, after, o, plan) && (o.Err? ==> o == Err(Plain) || o == Err(FailedTransfer))
    ensures RanPlan(before, EndOfRun(MACHINE, after, o), plan)
  {
    hide Fail, Restore, Collect, Unfinished, StoppedAt;
    var call := after.log[|before.log|..][|after.log| - |before.log| - 1];
    if !o.Done? {
      StoredIsUnfinished(before, after, call);
      StoppedStores(before.state.customError, after, call);
    }
    if o.Err? {
      FailureIs(after, call.context.step, o.error);
    }
  }

  lemma StoppedStores(customError: CustomError, after: Memory<World>, call: Call)
    requires Shaped(STAGES, after.rows) && |STAGES| == 4 && |STAGES[3].steps| == 4 && |COMPENSATE| == 4
    requires StoppedAt(customError, after, call)
    ensures call.outcome.Died? ==> after.stored == SnapshotOf(MACHINE, after)
    ensures LastReached(after.rows, call.context.step)
  {
  }

  predicate Ordinary(o: Outcome) {
    o != Err(SkipStage) && o != Err(BreakStages) && o != Err(ExitWorkflow)
  }

  lemma EndsWell(before: Memory<World>, r: (Memory<World>, Outcome), plan: seq<StepName>)
    requires Ends(before, r, plan)
    ensures Ordinary(r.1) && RanPlan(before, EndOfRun(MACHINE, r.0, r.1), plan)
  {
    EndKeeps(before, r.0, r.1, plan);
  }

  lemma Entered(mem: Memory<World>, end: Memory<World>, plan: seq<StepName>)
    requires RanPlan(Enter(MACHINE, mem, 3), end, plan)
    ensures RanPlan(mem, end, plan)
  {
  }

  ghost predicate RanBy(mem: Memory<World>, end: Memory<World>, plan: seq<StepName>) {
    exists u :: u == end && RanPlan(mem, u, plan)
  }

  lemma RunEnds(mem: Memory<World>, r: (Memory<World>, Outcome), plan: seq<StepName>)
    requires |STAGES| == 4 && STAGES[3] == Stage(StageCompensateOnFail, COMPENSATE) && Shaped(STAGES, mem.rows)
    requires !Stopped(mem.state) && mem.state.nextStage == Some(StageCompensateOnFail)
    requires r == StepsFrom(MACHINE, Enter(MACHINE, mem, 3), 3, 0) && Ends(Enter(MACHINE, mem, 3), r, plan)
    ensures RanBy(mem, Run(MACHINE, mem).0, plan)
  {
    TableIsDistinct();
    EndsWell(Enter(MACHINE, mem, 3), r, plan);
    RunsLast(MACHINE, mem, 3);
    Entered(mem, EndOfRun(MACHINE, r.0, r.1), plan);
  }

  /** The memory a compensating run ends with. */
  lemma RunCompensates(mem: Memory<World>, customError: CustomError)
    requires Up(mem.(state := mem.state.(nextStage := None)), 0, Some(StepDetermineCompensationFlow), customError)
    requires mem.state.nextStage == Some(StageCompensateOnFail)
    ensures RanBy(mem, Run(MACHINE, mem).0, Plan(mem.world.request, customError))
  {
    StepNames();
    var here := mem.(state := mem.state.(nextStage := None));
    assert Enter(MACHINE, mem, 3) == here;
    StageCompensates(here, customError);
    RunEnds(mem, StepsFrom(MACHINE, here, 3, 0), Plan(mem.world.request, customError));
  }

  /** Between two sessions the calls followed the plan of the first. */
  predicate FollowsPlan(s: Session<World>, t: Session<World>) {
    s.log <= t.log && Follows(t.log[|s.log|..], Plan(s.world.request, s.stored.state.customError))
  }

  /** The last call of a session. */
  function Last(t: Session<World>): Call
    requires t.log != []
  {
    t.log[|t.log| - 1]
  }

  /** A run that a redirect sends to the compensation, whatever the statuses of the other steps,
      calls compensation steps only, in the order of the plan, up to the first that does not
      succeed. If all succeed the workflow and the transfer are failed, and no number of later
      runs calls a step or changes anything. If the process dies in one, or it errs, that is stored with
      no jump to the compensation, unless the error is that of a transfer that cannot succeed. */
  lemma TronCompensation(s: Session<World>, k: nat)
    requires SentToCompensate(s.stored)
    ensures var t := RunOnce(MACHINE, s);
            && FollowsPlan(s, t)
            && (Last(t).outcome.Done? ==>
                  && t.stored.state.isFailed && t.world.history == s.world.history + [StatusFailed]
                  && Runs(MACHINE, t, k) == t)
            && (Last(t).outcome == Died || Last(t).outcome == Err(Plain) ==>
                  && t.world.history == s.world.history
                  && Unfinished(Restore(STAGES, s.stored.steps), s.stored.state.customError, t.stored,
                                Last(t).context.step))
            && (Last(t).outcome == Err(FailedTransfer) ==> t.stored.state.nextStage == Some(StageCompensateOnFail))
  {
    hide Run, Runs, Restore, AtLast, Plan;
    var here := Load(MACHINE, s.stored, s.world, s.log);
    RedirectedIsUp(s);
    RunCompensates(here, s.stored.state.customError);
    var t := RunOnce(MACHINE, s);
    if t.stored.state.isFailed {
      StoppedForEver(t, k);
    }
  }

  /** The redirected run starts with the decision of the compensation stage. */
  lemma RedirectedIsUp(s: Session<World>)
    requires SentToCompensate(s.stored)
    ensures var here := Load(MACHINE, s.stored, s.world, s.log);
            Up(here.(state := here.state.(nextStage := None)), 0, Some(StepDetermineCompensationFlow),
               s.stored.state.customError)
  {
    StepNames();
  }

  lemma {:induction false} StoppedForEver(t: Session<World>, k: nat)
    requires t.stored.state.isFailed
    ensures Runs(MACHINE, t, k) == t
  {
    hide RunOnce;
    TableIsDistinct();
    if k > 0 {
      StoppedForEver(t, k - 1);
      StoppedStays(MACHINE, t);
    }
  }
}
