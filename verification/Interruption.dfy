/** What a run does first, and what ends it at once. A run of a workflow whose last stage was left
    unfinished goes back to the first step of the table that is not settled, and that step sees the last
    stage as the current one. */
module Interruption {
  import opened Wrappers
  import opened Engine
  import opened Resumption
  import opened Simulation
  import opened LastStage

  // ---------------------------------------------------------------------- the log only grows

  lemma HandleExtends<W>(m: Machine<W>, mem: Memory<W>, i: nat, j: nat)
    requires Shaped(m.stages, mem.rows) && i < |m.stages| && j < |m.stages[i].steps|
    ensures mem.log <= HandleStep(m, mem, i, j).0.log
  {
  }

  lemma {:induction false} StepsExtend<W>(m: Machine<W>, mem: Memory<W>, i: nat, j: nat)
    requires Shaped(m.stages, mem.rows) && i < |m.stages| && j <= |m.stages[i].steps|
    ensures mem.log <= StepsFrom(m, mem, i, j).0.log
    decreases |m.stages[i].steps| - j
  {
    hide HandleStep;
    if j < |m.stages[i].steps| {
      StepsFromOne(m, mem, i, j);
      HandleExtends(m, mem, i, j);
      var (after, o) := HandleStep(m, mem, i, j);
      if o == Done || o == Err(SkipStep) {
        StepsExtend(m, after, i, j + 1);
      }
    }
  }

  lemma {:induction false} StagesExtend<W>(m: Machine<W>, mem: Memory<W>, i: nat)
    requires Shaped(m.stages, mem.rows) && i <= |m.stages|
    ensures mem.log <= StagesFrom(m, mem, i).0.log
    decreases |m.stages| - i
  {
    hide StepsFrom;
    if i < |m.stages| {
      StagesFromOne(m, mem, i);
      StepsExtend(m, Enter(m, mem, i), i, 0);
      var (after, o) := HandleStage(m, mem, i);
      if o == Done || o == Err(SkipStage) {
        StagesExtend(m, after, i + 1);
      }
    }
  }

  // -------------------------------------------------------------------- settled steps are passed

  lemma {:induction false} PassesSettled<W>(m: Machine<W>, mem: Memory<W>, i: nat, j: nat, k: nat)
    requires Shaped(m.stages, mem.rows) && i < |m.stages| && j <= k <= |m.stages[i].steps|
    requires !Stopped(mem.state) && mem.state.nextStep.None?
    requires forall b :: j <= b < k ==> Settled(mem.rows[i][b])
    ensures StepsFrom(m, mem, i, j) == StepsFrom(m, mem, i, k)
    decreases k - j
  {
    hide ExecuteStep;
    if j < k {
      StepsFromOne(m, mem, i, j);
      PassesSettled(m, mem, i, j + 1, k);
    }
  }

  lemma {:induction false} PassesSettledStages<W>(m: Machine<W>, mem: Memory<W>, a: nat, i: nat)
    requires Shaped(m.stages, mem.rows) && a <= i <= |m.stages|
    requires !Stopped(mem.state) && mem.state.nextStep.None? && mem.state.nextStage.None?
    requires forall c, b :: a <= c < i && 0 <= b < |mem.rows[c]| ==> Settled(mem.rows[c][b])
    ensures StagesFrom(m, mem, a) == StagesFrom(m, mem, i)
    decreases i - a
  {
    hide HandleStep;
    if a < i {
      StagesFromOne(m, mem, a);
      PassesSettled(m, mem, a, 0, |m.stages[a].steps|);
      PassesSettledStages(m, mem, a + 1, i);
    }
  }

  // ------------------------------------------------------------------------- going back

  /** No jump is pending, and all steps before `p` are settled. */
  predicate PassedTo<W>(m: Machine<W>, mem: Memory<W>, p: Pos) {
    && UniqueStepNames(m.stages) && Shaped(m.stages, mem.rows) && InTable(m.stages, p)
    && !Stopped(mem.state) && mem.state.nextStage.None? && mem.state.nextStep.None?
    && SettledBefore(mem.rows, p)
  }

  /** And `p` is the first step that is not. */
  predicate FirstOpen<W>(m: Machine<W>, mem: Memory<W>, p: Pos) {
    PassedTo(m, mem, p) && Waiting(mem.rows[p.stage][p.step])
  }

  /** The memory when the function of the step is called. */
  function StartedAt<W>(m: Machine<W>, mem: Memory<W>, p: Pos): Memory<W>
    requires FirstOpen(m, mem, p)
  {
    Save(m, SetStatus(mem, p.stage, p.step, Processing))
  }

  /** All steps before it are passed. */
  lemma PassesTo<W>(m: Machine<W>, mem: Memory<W>, p: Pos)
    requires PassedTo(m, mem, p)
    ensures StagesFrom(m, mem, 0) == StagesFrom(m, mem, p.stage)
    ensures StepsFrom(m, mem, p.stage, 0) == StepsFrom(m, mem, p.stage, p.step)
  {
    hide HandleStep, StepsFrom, StagesFrom;
    forall c, b | 0 <= c < p.stage && 0 <= b < |mem.rows[c]| ensures Settled(mem.rows[c][b]) {
      assert Before(Pos(c, b), p);
    }
    forall b | 0 <= b < p.step ensures Settled(mem.rows[p.stage][b]) {
      assert Before(Pos(p.stage, b), p);
    }
    PassesSettledStages(m, mem, 0, p.stage);
    PassesSettled(m, mem, p.stage, 0, p.step);
  }

  lemma StepCallsFirst<W>(m: Machine<W>, mem: Memory<W>, p: Pos) returns (call: Call)
    requires FirstOpen(m, mem, p)
    ensures mem.log + [call] <= HandleStep(m, mem, p.stage, p.step).0.log
    ensures call.stage == p.stage && call.step == p.step
    ensures call.context == ContextAt(m, StartedAt(m, mem, p), p.stage, p.step)
  {
    HandlesWaiting(m, mem, p.stage, p.step);
    assert mem.(state := mem.state.(nextStep := None)) == mem;
    var started := StartedAt(m, mem, p);
    var c := ContextAt(m, started, p.stage, p.step);
    var step := m.stages[p.stage].steps[p.step];
    TriedShape(m.call, Untouched(started.world), c, MaxRetries(step));
    var t := Try(m, started.world, c, step);
    call := CallOf(p.stage, p.step, c, started.rows, t.calls[0]);
    ExecuteLogs(m, mem, p, c, t);
    assert (mem.log + CallLog(p.stage, p.step, c, started.rows, t.calls))[|mem.log|] == call;
  }

  lemma ExecuteLogs<W>(m: Machine<W>, mem: Memory<W>, p: Pos, c: Context, t: Tried<W>)
    requires FirstOpen(m, mem, p) && c == ContextAt(m, StartedAt(m, mem, p), p.stage, p.step)
    requires t == Try(m, StartedAt(m, mem, p).world, c, m.stages[p.stage].steps[p.step])
    ensures ExecuteStep(m, mem, p.stage, p.step).0.log ==
            mem.log + CallLog(p.stage, p.step, c, StartedAt(m, mem, p).rows, t.calls)
  {
    hide Try, CallLog, ContextAt;
  }

  /** A run calls the first step that is not settled, before anything else. */
  lemma GoesBack<W>(m: Machine<W>, mem: Memory<W>, p: Pos) returns (call: Call)
    requires FirstOpen(m, mem, p)
    ensures mem.log + [call] <= Run(m, mem).0.log
    ensures call.stage == p.stage && call.step == p.step
    ensures call.context == ContextAt(m, StartedAt(m, mem, p), p.stage, p.step)
  {
    hide HandleStep, StepsFrom, StagesFrom, ContextAt, StartedAt;
    PassesTo(m, mem, p);
    call := StepCallsFirst(m, mem, p);
    StageExtends(m, mem, p);
    assert mem.log + [call] <= StagesFrom(m, mem, 0).0.log;
    RunExtends(m, mem);
  }

  lemma StageExtends<W>(m: Machine<W>, mem: Memory<W>, p: Pos)
    requires FirstOpen(m, mem, p)
    requires StepsFrom(m, mem, p.stage, 0) == StepsFrom(m, mem, p.stage, p.step)
    ensures HandleStep(m, mem, p.stage, p.step).0.log <= StagesFrom(m, mem, p.stage).0.log
  {
    hide HandleStep, StepsFrom, StagesFrom;
    StagesFromOne(m, mem, p.stage);
    StepsFromOne(m, mem, p.stage, p.step);
    assert HandleStage(m, mem, p.stage) == StepsFrom(m, mem, p.stage, 0);
    var (after, o) := HandleStep(m, mem, p.stage, p.step);
    if o == Done || o == Err(SkipStep) {
      StepsExtend(m, after, p.stage, p.step + 1);
    }
    var (end, e) := HandleStage(m, mem, p.stage);
    if e == Done || e == Err(SkipStage) {
      StagesExtend(m, end, p.stage + 1);
    }
  }

  lemma RunExtends<W>(m: Machine<W>, mem: Memory<W>)
    requires Shaped(m.stages, mem.rows) && UniqueStepNames(m.stages) && !Stopped(mem.state)
    ensures Run(m, mem).0.log == StagesFrom(m, mem, 0).0.log
  {
    hide StagesFrom;
  }

  // --------------------------------------------------------------------- failing there again

  /** The memory after the step was called once and failed with an ordinary error, or the process died. */
  ghost predicate FailedAt<W>(m: Machine<W>, mem: Memory<W>, p: Pos, r: Reply<W>, after: Memory<W>)
    requires FirstOpen(m, mem, p)
  {
    var s := if r.outcome.Died? then Processing else Failed;
    && after.rows == mem.rows[p.stage := mem.rows[p.stage][p.step := s]] && Shaped(m.stages, after.rows)
    && after.state == mem.state && after.world == r.world && !after.skipError == !mem.skipError
    && (r.outcome.Died? ==> after.stored == SnapshotOf(m, after))
  }

  /** One call of a step that is tried once. */
  lemma TriesOnce<W>(m: Machine<W>, world: W, c: Context, step: Step)
    requires step.maxRetries <= 1
    ensures var r := m.call(world, c); Try(m, world, c, step) == Tried(r, [r])
  {
    var r := m.call(world, c);
    assert Merge(Untouched(world), r) == r;
  }

  lemma ExecutesOnce<W>(m: Machine<W>, mem: Memory<W>, p: Pos, c: Context, r: Reply<W>)
    requires Plainly(m.stages) && FirstOpen(m, mem, p) && c == ContextAt(m, StartedAt(m, mem, p), p.stage, p.step)
    requires r == m.call(mem.world, c) && (r.outcome == Err(Plain) || r.outcome == Died)
    ensures var called := AfterCalls(StartedAt(m, mem, p), p.stage, p.step, c, Tried(r, [r]));
            && Shaped(m.stages, called.rows)
            && ExecuteStep(m, mem, p.stage, p.step) ==
               if r.outcome.Died? then (called, Died)
               else (SetStatus(Save(m, called), p.stage, p.step, Failed), r.outcome)
  {
    hide Try, ContextAt, CallLog, Effect;
    TriesOnce(m, mem.world, c, m.stages[p.stage].steps[p.step]);
  }

  lemma FailsThere<W>(m: Machine<W>, mem: Memory<W>, p: Pos, r: Reply<W>)
    requires Plainly(m.stages) && FirstOpen(m, mem, p)
    requires r == m.call(mem.world, ContextAt(m, StartedAt(m, mem, p), p.stage, p.step))
    requires Quiet(r) && (r.outcome == Err(Plain) || r.outcome == Died)
    ensures HandleStep(m, mem, p.stage, p.step).1 == r.outcome
    ensures FailedAt(m, mem, p, r, HandleStep(m, mem, p.stage, p.step).0)
  {
    hide ExecuteStep, HandleStep, ContextAt, CallLog, Collect;
    HandlesWaiting(m, mem, p.stage, p.step);
    assert mem.(state := mem.state.(nextStep := None)) == mem;
    ExecutesOnce(m, mem, p, ContextAt(m, StartedAt(m, mem, p), p.stage, p.step), r);
    var row := mem.rows[p.stage];
    assert row[p.step := Processing][p.step := Failed] == row[p.step := Failed];
    forall rows: seq<seq<Status>> | rows == mem.rows[p.stage := row[p.step := Processing]]
      ensures rows[p.stage := rows[p.stage][p.step := Failed]] == mem.rows[p.stage := row[p.step := Failed]]
    {
    }
  }

  /** A run whose first open step fails ends there. */
  lemma EndsThere<W>(m: Machine<W>, mem: Memory<W>, p: Pos, r: Reply<W>) returns (after: Memory<W>)
    requires Plainly(m.stages) && FirstOpen(m, mem, p)
    requires r == m.call(mem.world, ContextAt(m, StartedAt(m, mem, p), p.stage, p.step))
    requires Quiet(r) && (r.outcome == Err(Plain) || r.outcome == Died)
    ensures FailedAt(m, mem, p, r, after) && Run(m, mem).0 == EndOfRun(m, after, r.outcome)
  {
    hide HandleStep, StepsFrom, StagesFrom, ContextAt, StartedAt;
    PassesTo(m, mem, p);
    FailsThere(m, mem, p, r);
    after := HandleStep(m, mem, p.stage, p.step).0;
    StagesFromOne(m, mem, p.stage);
    StepsFromOne(m, mem, p.stage, p.step);
    assert HandleStage(m, mem, p.stage) == StepsFrom(m, mem, p.stage, 0);
  }

  // ----------------------------------------------------------------- what ends a run at once

  /** A suspended step ends the run: no function is called, and the workflow is stored as completed. */
  lemma SuspendedCompletes<W>(m: Machine<W>, mem: Memory<W>, p: Pos)
    requires PassedTo(m, mem, p) && mem.rows[p.stage][p.step] == Suspended
    ensures var (after, o) := Run(m, mem);
            && o == Done && after.log == mem.log && after.world == mem.world && after.rows == mem.rows
            && after.stored == SnapshotOf(m, mem.(state := mem.state.(isCompleted := true)))
  {
    hide ExecuteStep, StepsFrom, StagesFrom;
    PassesTo(m, mem, p);
    StagesFromOne(m, mem, p.stage);
    StepsFromOne(m, mem, p.stage, p.step);
    assert HandleStep(m, mem, p.stage, p.step) == (mem, Err(BreakStages));
  }

  /** A step that stops the workflow ends the run too, wherever it is: whatever follows calls nothing, and
      the error it ends with is none of the run. */
  lemma StoppedEnds<W>(m: Machine<W>, mem: Memory<W>, i: nat, j: nat)
    requires UniqueStepNames(m.stages) && Shaped(m.stages, mem.rows) && Stopped(mem.state)
    requires i < |m.stages| && j < |m.stages[i].steps|
    ensures StepsFrom(m, mem, i, j).1 == StagesFrom(m, mem, i).1 == Err(ExitWorkflow)
    ensures StepsFrom(m, mem, i, j).0.log == StagesFrom(m, mem, i).0.log == mem.log
    ensures StepsFrom(m, mem, i, j).0.world == StagesFrom(m, mem, i).0.world == mem.world
    ensures StepsFrom(m, mem, i, j).0.rows == StagesFrom(m, mem, i).0.rows == mem.rows
  {
    hide ExecuteStep;
  }

  /** A table in which two steps of one stage share a name is refused: nothing is called, and the failure
      callback hears of an ordinary error. */
  lemma TwinsAreRefused<W>(m: Machine<W>, mem: Memory<W>)
    requires Shaped(m.stages, mem.rows) && !UniqueStepNames(m.stages)
    ensures Execute(m, mem) == (mem, Err(Plain)) && Run(m, mem).0 == Fail(m, mem, Plain)
    ensures Run(m, mem).1 == Done <==> Fail(m, mem, Plain).skipError
    ensures Run(m, mem).0.log == mem.log && Run(m, mem).0.rows == mem.rows
  {
  }

  /** The error a run ends with is returned, so that the job comes back, unless the failure callback absorbs
      it or a step asked to keep it quiet; a death is returned, and nothing else is. */
  lemma RunReturns<W>(m: Machine<W>, mem: Memory<W>)
    requires Shaped(m.stages, mem.rows)
    ensures var (after, o) := Execute(m, mem);
            match o
            case Err(e) =>
              var stage, step := CurrentStageName(m.stages, after.rows), CurrentStepName(m.stages, after.rows);
              var absorbed := m.onFailure(after.world, stage, step, e).action == Absorb;
              Run(m, mem).1 == if absorbed || after.skipError then Done else Err(e)
            case _ => Run(m, mem) == (after, o)
  {
    hide Execute;
  }
}
