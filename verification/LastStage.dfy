/** A run that a redirect sends to the last stage of its table: no other step is called. */
module LastStage {
  import opened Wrappers
  import opened Names
  import opened Engine
  import opened Resumption
  import opened Simulation

  /** The last stage `i` is about to handle step `j`; `next` is the jump under way, if any. Nothing
      is known of the other stages. */
  predicate AtLast<W>(m: Machine<W>, mem: Memory<W>, i: nat, j: nat, next: Option<StepName>, customError: CustomError) {
    && |m.stages| == i + 1 && j <= |m.stages[i].steps|
    && Shaped(m.stages, mem.rows)
    && mem.state == CLEAN.(nextStep := next, customError := customError)
    && forall b :: j <= b < |mem.rows[i]| ==> mem.rows[i][b] == NoStatus
  }

  /** What a step sees while it runs as the current one. */
  function Sees<W>(m: Machine<W>, i: nat, j: nat, customError: CustomError): Context
    requires i < |m.stages| && j < |m.stages[i].steps|
  {
    var stage, step := m.stages[i].name, m.stages[i].steps[j].name;
    Context(stage, step, Some(stage), Some(step), customError)
  }

  /** A step that is jumped over is marked skipped. */
  lemma JumpsOver<W>(m: Machine<W>, mem: Memory<W>, i: nat, j: nat, next: StepName, customError: CustomError)
    returns (after: Memory<W>)
    requires AtLast(m, mem, i, j, Some(next), customError) && j < |m.stages[i].steps|
    requires m.stages[i].steps[j].name != next
    ensures AtLast(m, after, i, j + 1, Some(next), customError) && after.log == mem.log && after.world == mem.world
    ensures OthersKept(mem, after, i)
    ensures StepsFrom(m, mem, i, j) == StepsFrom(m, after, i, j + 1)
  {
    StepsFromOne(m, mem, i, j);
    after := HandleStep(m, mem, i, j).0;
  }

  /** The statuses of the other stages are as they were. */
  predicate OthersKept<W>(mem: Memory<W>, after: Memory<W>, i: nat) {
    |after.rows| == |mem.rows| && forall a :: 0 <= a < |mem.rows| && a != i ==> after.rows[a] == mem.rows[a]
  }

  /** The memory after step `j` was called once, as the current step, with the reply `r`. */
  ghost predicate Executed<W>(m: Machine<W>, mem: Memory<W>, i: nat, j: nat, customError: CustomError, r: Reply<W>,
                              after: Memory<W>)
    requires i < |m.stages| && j < |m.stages[i].steps|
  {
    && after.world == r.world
    && (exists call ::
          after.log == mem.log + [call] && call.context == Sees(m, i, j, customError) && call.outcome == r.outcome)
    && after.state == Effect(CLEAN.(customError := customError), r.nextStage, r.nextStep, r.fail)
    && Shaped(m.stages, after.rows)
    && (forall b :: j < b < |after.rows[i]| ==> after.rows[i][b] == NoStatus)
    && OthersKept(mem, after, i) && Valid(after.rows[i][j])
    && (r.outcome.Died? && Quiet(r) ==> after.stored == SnapshotOf(m, after))
  }

  /** While the step runs it is the current one, and it is called once. */
  lemma Executes<W>(m: Machine<W>, mem: Memory<W>, i: nat, j: nat, customError: CustomError)
    requires Plainly(m.stages) && AtLast(m, mem, i, j, None, customError) && j < |m.stages[i].steps|
    ensures var r := m.call(mem.world, Sees(m, i, j, customError));
            && ExecuteStep(m, mem, i, j).1 == r.outcome
            && Executed(m, mem, i, j, customError, r, ExecuteStep(m, mem, i, j).0)
  {
    var started := Save(m, SetStatus(mem, i, j, Processing));
    assert UntouchedAfter(started.rows, Pos(i, j));
    CurrentIs(m.stages, started.rows, Pos(i, j));
    var c := ContextAt(m, started, i, j);
    assert c == Sees(m, i, j, customError);
    var r := m.call(mem.world, c);
    assert Merge(Untouched(started.world), r) == r;
    var t := Try(m, started.world, c, m.stages[i].steps[j]);
    assert t == Tried(r, [r]);
    var call := CallOf(i, j, c, started.rows, r);
    assert CallLog(i, j, c, started.rows, t.calls) == [call];
    assert ExecuteStep(m, mem, i, j).0.log == mem.log + [call];
  }

  /** The step that is up is called once, and the next one follows if it succeeds. */
  lemma Handles<W>(m: Machine<W>, mem: Memory<W>, i: nat, j: nat, next: Option<StepName>, customError: CustomError)
    returns (after: Memory<W>, call: Call)
    requires Plainly(m.stages) && AtLast(m, mem, i, j, next, customError) && j < |m.stages[i].steps|
    requires next.None? || next == Some(m.stages[i].steps[j].name)
    requires m.call(mem.world, Sees(m, i, j, customError)).outcome != Err(SkipStep)
    ensures var r := m.call(mem.world, Sees(m, i, j, customError));
            && Executed(m, mem, i, j, customError, r, after)
            && StepsFrom(m, mem, i, j)
               == (if r.outcome.Done? then StepsFrom(m, after, i, j + 1) else (after, r.outcome))
            && after.log == mem.log + [call] && call.context == Sees(m, i, j, customError) && call.outcome == r.outcome
  {
    var here := mem.(state := mem.state.(nextStep := None));
    StepsFromOne(m, mem, i, j);
    HandlesWaiting(m, mem, i, j);
    Executes(m, here, i, j, customError);
    after := ExecuteStep(m, here, i, j).0;
    call :| after.log == mem.log + [call] && call.context == Sees(m, i, j, customError) &&
      call.outcome == m.call(mem.world, Sees(m, i, j, customError)).outcome;
  }

  /** After a reply that does not fail the workflow the next step is up, and the jump, if there is
      one, is under way. */
  lemma NextUp<W>(m: Machine<W>, mem: Memory<W>, i: nat, j: nat, customError: CustomError, r: Reply<W>,
                  after: Memory<W>)
    requires |m.stages| == i + 1 && j < |m.stages[i].steps|
    requires Executed(m, mem, i, j, customError, r, after) && r.nextStage.None? && !r.fail
    ensures AtLast(m, after, i, j + 1, r.nextStep, customError)
  {
  }

  /** A run whose snapshot jumps to a step of the last stage passes all the stages before it. */
  lemma {:induction false} PassesStages<W>(m: Machine<W>, mem: Memory<W>, k: nat, i: nat)
    requires Shaped(m.stages, mem.rows) && UniqueStageNames(m.stages) && |m.stages| == i + 1 && k <= i
    requires !Stopped(mem.state) && mem.state.nextStage == Some(m.stages[i].name)
    ensures StagesFrom(m, mem, k) == StagesFrom(m, mem, i)
    decreases i - k
  {
    hide StagesFrom, StepsFrom, HandleStep;
    if k < i {
      StagesFromOne(m, mem, k);
      assert m.stages[k].name != m.stages[i].name;
      assert HandleStage(m, mem, k) == (mem, Err(SkipStage));
      PassesStages(m, mem, k + 1, i);
    }
  }

  /** How a run ends after its last stage. */
  function EndOfRun<W>(m: Machine<W>, after: Memory<W>, o: Outcome): Memory<W>
    requires Shaped(m.stages, after.rows)
  {
    match o
    case Died => after
    case Done => Save(m, after.(state := after.state.(isCompleted := true)))
    case Err(e) => Fail(m, Save(m, after), e)
  }

  /** What a run does whose snapshot jumps to the last stage. */
  lemma RunsLast<W>(m: Machine<W>, mem: Memory<W>, i: nat)
    requires Distinct(m.stages) && Shaped(m.stages, mem.rows) && |m.stages| == i + 1 && m.stages[i].steps != []
    requires !Stopped(mem.state) && mem.state.nextStage == Some(m.stages[i].name)
    ensures var (after, o) := StepsFrom(m, Enter(m, mem, i), i, 0);
            o != Err(SkipStage) && o != Err(BreakStages) && o != Err(ExitWorkflow) ==>
              Run(m, mem).0 == EndOfRun(m, after, o)
  {
    PassesStages(m, mem, 0, i);
    StagesFromOne(m, mem, i);
    RunIs(m, mem);
  }
}
