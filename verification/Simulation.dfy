/** One run of a workflow makes a stretch of the driver's calls, and its snapshot is the program
    counter the next run resumes from. */
module Simulation {
  import opened Wrappers
  import opened Names
  import opened Engine
  import opened SnapshotRoundTrip
  import opened Resumption

  /** The log without the recorded statuses. */
  function Bare(log: seq<Call>): (bare: seq<Call>)
    ensures |bare| == |log|
    ensures forall k :: 0 <= k < |log| ==> bare[k] == log[k].(rows := [])
  {
    seq(|log|, k requires 0 <= k < |log| => log[k].(rows := []))
  }

  /** When a step function is called, all earlier steps are completed or skipped, all later ones
      have no status, and the step itself is the current one. */
  predicate Witnessed(stages: seq<Stage>, c: Call) {
    var p := Pos(c.stage, c.step);
    && AtPos(stages, c.rows, p)
    && c.rows[p.stage][p.step] == Processing
    && c.context == ContextOf(stages, p)
  }

  predicate AllWitnessed(stages: seq<Stage>, log: seq<Call>) {
    forall k :: 0 <= k < |log| ==> Witnessed(stages, log[k])
  }

  /** The memory of a run and the driver agree on the world and on the calls made. */
  ghost predicate Same<W>(m: Machine<W>, mem: Memory<W>, a: Driver<W>) {
    mem.world == a.world && Bare(mem.log) == a.log && AllWitnessed(m.stages, mem.log) && !mem.skipError
  }

  predicate Distinct(stages: seq<Stage>) {
    UniqueStepNames(stages) && UniqueStageNames(stages)
  }

  lemma DistinctPairs(stages: seq<Stage>)
    requires Distinct(stages)
    ensures UniquePairs(stages)
  {
  }

  /** The stored snapshot sends the next run to `p`. */
  predicate SnapshotAt(stages: seq<Stage>, stored: Snapshot, p: Pos) {
    stored.state == CLEAN && AtPos(stages, Restore(stages, stored.steps), p)
  }

  predicate UntouchedFrom(rows: seq<seq<Status>>, p: Pos) {
    forall a, b :: 0 <= a < |rows| && 0 <= b < |rows[a]| && !Before(Pos(a, b), p) ==> rows[a][b] == NoStatus
  }

  function NameAt(stages: seq<Stage>, p: Pos): StepName
    requires InTable(stages, p)
  {
    stages[p.stage].steps[p.step].name
  }

  /** Stage `i` is about to handle step `j`, and the step to run next is `p`: either the statuses
      say so, or a jump to `p` is under way. */
  predicate AtStep<W>(m: Machine<W>, mem: Memory<W>, i: nat, j: nat, p: Pos) {
    && i < |m.stages| && j <= |m.stages[i].steps|
    && Shaped(m.stages, mem.rows) && InTable(m.stages, p) && !Before(p, Pos(i, j))
    && (|| (mem.state == CLEAN && AtPos(m.stages, mem.rows, p))
        || (&& SettledBefore(mem.rows, Pos(i, j)) && UntouchedFrom(mem.rows, Pos(i, j))
            && p.stage <= i + 1
            && mem.state == CLEAN.(nextStage := if p.stage == i then None else Some(m.stages[p.stage].name),
                                   nextStep := Some(NameAt(m.stages, p)))
            && (p.stage == i + 1 ==>
                  forall b :: j <= b < |m.stages[i].steps| ==> m.stages[i].steps[b].name != NameAt(m.stages, p))))
  }

  /** Stage `i` is about to be entered, and the step to run next is `p`. */
  predicate AtStage<W>(m: Machine<W>, mem: Memory<W>, i: nat, p: Pos) {
    && Shaped(m.stages, mem.rows) && InTable(m.stages, p) && i <= p.stage
    && (|| (mem.state == CLEAN && AtPos(m.stages, mem.rows, p))
        || (&& SettledBefore(mem.rows, Pos(i, 0)) && UntouchedFrom(mem.rows, Pos(i, 0))
            && p.stage == i
            && mem.state == CLEAN.(nextStage := Some(m.stages[i].name), nextStep := Some(NameAt(m.stages, p)))))
  }

  /** The run stops with outcome `o` at the step of `a`, which stays the step to run. */
  ghost predicate Halted<W>(m: Machine<W>, mem: Memory<W>, a: Driver<W>, o: Outcome)
    requires InTable(m.stages, a.pos)
  {
    && o == StepTried(m, a).reply.outcome && !o.Done?
    && Same(m, mem, Called(m, a))
    && mem.state == CLEAN
    && AtPos(m.stages, mem.rows, a.pos) && Valid(mem.rows[a.pos.stage][a.pos.step])
    && SnapshotAt(m.stages, mem.stored, a.pos)
  }

  /** Every call but the last fails, and the merged reply is that of the last. */
  lemma {:induction false} TriedShape<W>(call: (W, Context) -> Reply<W>, before: Reply<W>, c: Context, n: nat)
    requires n > 0
    ensures var t := Attempts(call, before, c, n);
            var last := t.calls[|t.calls| - 1];
            && 0 < |t.calls| <= n
            && (forall k :: 0 <= k < |t.calls| - 1 ==> t.calls[k].outcome.Err?)
            && t.reply.outcome == last.outcome && t.reply.world == last.world
            && ((Quiet(before) && forall k :: 0 <= k < |t.calls| - 1 ==> Quiet(t.calls[k])) ==> t.reply == last)
    decreases n
  {
    var r := call(before.world, c);
    if r.outcome.Err? && n > 1 {
      TriedShape(call, Merge(before, r), c, n - 1);
      var rest := Attempts(call, Merge(before, r), c, n - 1);
      var t := Attempts(call, before, c, n);
      if Quiet(before) && forall k :: 0 <= k < |t.calls| - 1 ==> Quiet(t.calls[k]) {
        assert Quiet(t.calls[0]);
        forall k | 0 <= k < |rest.calls| - 1 ensures Quiet(rest.calls[k]) {
          assert rest.calls[k] == t.calls[k + 1];
        }
      }
    }
  }

  lemma LogGrows<W>(m: Machine<W>, mem: Memory<W>, a: Driver<W>, c: Context, t: Tried<W>)
    requires InTable(m.stages, a.pos) && t == StepTried(m, a) && c == ContextOf(m.stages, a.pos)
    requires Same(m, mem, a)
    requires AtPos(m.stages, mem.rows, a.pos) && mem.rows[a.pos.stage][a.pos.step] == Processing
    ensures Bare(mem.log + CallLog(a.pos.stage, a.pos.step, c, mem.rows, t.calls)) == Called(m, a).log
    ensures AllWitnessed(m.stages, mem.log + CallLog(a.pos.stage, a.pos.step, c, mem.rows, t.calls))
  {
  }

  /** The memory with which the function of the step that is up is called. */
  function Started<W>(m: Machine<W>, mem: Memory<W>, p: Pos): Memory<W>
    requires Shaped(m.stages, mem.rows) && InTable(m.stages, p)
  {
    Save(m, SetStatus(mem, p.stage, p.step, Processing))
  }

  lemma StaysAt(stages: seq<Stage>, rows: seq<seq<Status>>, p: Pos, s: Status)
    requires AtPos(stages, rows, p) && Waiting(s)
    ensures AtPos(stages, rows[p.stage := rows[p.stage][p.step := s]], p)
  {
  }

  lemma SavedAt<W>(m: Machine<W>, mem: Memory<W>, p: Pos)
    requires Distinct(m.stages) && AtPos(m.stages, mem.rows, p) && mem.state == CLEAN
    ensures SnapshotAt(m.stages, SnapshotOf(m, mem), p)
  {
    DistinctPairs(m.stages);
    RestoreCollect(m.stages, mem.rows);
  }

  lemma StepStarts<W>(m: Machine<W>, mem: Memory<W>, p: Pos)
    requires Distinct(m.stages)
    requires AtPos(m.stages, mem.rows, p) && mem.state == CLEAN
    ensures var s := Started(m, mem, p);
            && AtPos(m.stages, s.rows, p) && s.rows[p.stage][p.step] == Processing
            && SnapshotAt(m.stages, s.stored, p)
            && ContextAt(m, s, p.stage, p.step) == ContextOf(m.stages, p)
  {
    var s := Started(m, mem, p);
    StaysAt(m.stages, mem.rows, p, Processing);
    CurrentIs(m.stages, s.rows, p);
    SavedAt(m, s, p);
  }

  /** A call that fails sets nothing. */
  lemma FailsQuietly<W>(m: Machine<W>, a: Driver<W>)
    requires a.phase == Live && ForwardAt(m, a) && !StepTried(m, a).reply.outcome.Done?
    ensures Quiet(StepTried(m, a).reply)
  {
    var t := StepTried(m, a);
    TriedShape(m.call, Untouched(a.world), ContextOf(m.stages, a.pos),
      MaxRetries(m.stages[a.pos.stage].steps[a.pos.step]));
    assert Quiet(t.calls[|t.calls| - 1]);
  }

  lemma StepCalls<W>(m: Machine<W>, mem: Memory<W>, a: Driver<W>)
    requires Distinct(m.stages) && a.phase == Live && ForwardAt(m, a)
    requires AtPos(m.stages, mem.rows, a.pos) && mem.state == CLEAN && Same(m, mem, a)
    ensures var s := Started(m, mem, a.pos);
            var t := StepTried(m, a);
            var called := AfterCalls(s, a.pos.stage, a.pos.step, ContextOf(m.stages, a.pos), t);
            && Same(m, called, Called(m, a))
            && called.state == CLEAN.(nextStage := t.reply.nextStage, nextStep := t.reply.nextStep)
  {
    StepStarts(m, mem, a.pos);
    LogGrows(m, Started(m, mem, a.pos), a, ContextOf(m.stages, a.pos), StepTried(m, a));
    if !StepTried(m, a).reply.outcome.Done? {
      FailsQuietly(m, a);
    }
  }

  /** What the functions of a step leave behind. */
  ghost function AfterStep<W>(m: Machine<W>, mem: Memory<W>, a: Driver<W>): Memory<W>
    requires Shaped(m.stages, mem.rows) && InTable(m.stages, a.pos)
  {
    AfterCalls(Started(m, mem, a.pos), a.pos.stage, a.pos.step, ContextOf(m.stages, a.pos), StepTried(m, a))
  }

  /** How a step ends, given how its function ended. */
  function StepOutcome(step: Step, o: Outcome): Outcome {
    if o.Done? && step.finishWorkflow then Err(BreakStages) else o
  }

  lemma ExecuteStepIs<W>(m: Machine<W>, mem: Memory<W>, a: Driver<W>)
    requires Distinct(m.stages)
    requires AtPos(m.stages, mem.rows, a.pos) && mem.state == CLEAN && Same(m, mem, a)
    ensures var p := a.pos;
            var called := AfterStep(m, mem, a);
            var t := StepTried(m, a);
            var o := StepOutcome(m.stages[p.stage].steps[p.step], t.reply.outcome);
            ExecuteStep(m, mem, p.stage, p.step) ==
            if t.reply.outcome.Died? then (called, Died)
            else (SetStatus(Save(m, called), p.stage, p.step, FinalStatus(o)), o)
  {
    StepStarts(m, mem, a.pos);
  }

  /** A step that succeeds: the driver's calls, and the jump it may have set. */
  lemma StepSucceeds<W>(m: Machine<W>, mem: Memory<W>, a: Driver<W>)
    requires Distinct(m.stages) && a.phase == Live && ForwardAt(m, a)
    requires AtPos(m.stages, mem.rows, a.pos) && mem.state == CLEAN && Same(m, mem, a)
    requires StepTried(m, a).reply.outcome.Done?
    ensures var p := a.pos;
            var t := StepTried(m, a);
            var (after, o) := ExecuteStep(m, mem, p.stage, p.step);
            && o == StepOutcome(m.stages[p.stage].steps[p.step], Done)
            && Same(m, after, Called(m, a))
            && after.rows == mem.rows[p.stage := mem.rows[p.stage][p.step := FinalStatus(o)]]
            && after.state == CLEAN.(nextStage := t.reply.nextStage, nextStep := t.reply.nextStep)
  {
    var p := a.pos;
    ExecuteStepIs(m, mem, a);
    StepCalls(m, mem, a);
    var (after, o) := ExecuteStep(m, mem, p.stage, p.step);
    assert mem.rows[p.stage][p.step := Processing][p.step := FinalStatus(o)]
           == mem.rows[p.stage][p.step := FinalStatus(o)];
  }

  /** A step that does not succeed stops the run, and stays the step to run next. */
  lemma StepHalts<W>(m: Machine<W>, mem: Memory<W>, a: Driver<W>)
    requires Distinct(m.stages) && a.phase == Live && ForwardAt(m, a)
    requires AtPos(m.stages, mem.rows, a.pos) && mem.state == CLEAN && Same(m, mem, a)
    requires !StepTried(m, a).reply.outcome.Done?
    ensures var (after, o) := ExecuteStep(m, mem, a.pos.stage, a.pos.step);
            Halted(m, after, a, o)
  {
    var p := a.pos;
    ExecuteStepIs(m, mem, a);
    StepStarts(m, mem, p);
    StepCalls(m, mem, a);
    FailsQuietly(m, a);
    var called := AfterStep(m, mem, a);
    if !StepTried(m, a).reply.outcome.Died? {
      SavedAt(m, called, p);
      StaysAt(m.stages, called.rows, p, Failed);
      var (after, o) := ExecuteStep(m, mem, p.stage, p.step);
      assert after == SetStatus(Save(m, called), p.stage, p.step, FinalStatus(o)) && FinalStatus(o) == Failed;
      assert after.rows == called.rows[p.stage := called.rows[p.stage][p.step := Failed]];
    }
  }

  // --------------------------------------------------- handling one step

  /** A step that is not up yet is passed. */
  lemma PassesStep<W>(m: Machine<W>, mem: Memory<W>, i: nat, j: nat, a: Driver<W>)
    requires Distinct(m.stages) && AtStep(m, mem, i, j, a.pos) && Same(m, mem, a)
    requires j < |m.stages[i].steps| && a.pos != Pos(i, j)
    ensures var (after, o) := HandleStep(m, mem, i, j);
            o == Err(SkipStep) && AtStep(m, after, i, j + 1, a.pos) && Same(m, after, a)
  {
    if mem.state == CLEAN {
      assert Before(Pos(i, j), a.pos) && Settled(mem.rows[i][j]);
    } else {
      assert mem.rows[i][j] == NoStatus;
      assert NameAt(m.stages, a.pos) != m.stages[i].steps[j].name;
    }
  }

  /** A step that waits, and that no jump leads past, is run. */
  lemma HandlesWaiting<W>(m: Machine<W>, mem: Memory<W>, i: nat, j: nat)
    requires Shaped(m.stages, mem.rows) && InTable(m.stages, Pos(i, j))
    requires !Stopped(mem.state) && Waiting(mem.rows[i][j])
    requires mem.state.nextStep in {None, Some(m.stages[i].steps[j].name)}
    ensures HandleStep(m, mem, i, j) == ExecuteStep(m, mem.(state := mem.state.(nextStep := None)), i, j)
  {
    hide ExecuteStep;
    assert mem.state.nextStep == None ==> mem.(state := mem.state.(nextStep := None)) == mem;
  }

  /** When the step that is up is reached no jump is pending any more. */
  lemma ReachesStep<W>(m: Machine<W>, mem: Memory<W>, i: nat, j: nat, p: Pos)
    requires AtStep(m, mem, i, j, p) && p == Pos(i, j)
    ensures !Stopped(mem.state) && AtPos(m.stages, mem.rows, p)
    ensures mem.state.nextStep in {None, Some(m.stages[i].steps[j].name)}
    ensures mem.state.(nextStep := None) == CLEAN
  {
    if mem.state != CLEAN {
      forall c, d | 0 <= c < |mem.rows| && 0 <= d < |mem.rows[c]|
        ensures Before(p, Pos(c, d)) || p == Pos(c, d) ==> mem.rows[c][d] == NoStatus
      {
        if Before(p, Pos(c, d)) || p == Pos(c, d) {
          assert !Before(Pos(c, d), Pos(i, j));
        }
      }
    }
  }

  /** After a success the driver's next step is up. */
  lemma LeavesStep<W>(m: Machine<W>, rows: seq<seq<Status>>, after: Memory<W>, a: Driver<W>)
    requires Distinct(m.stages) && a.phase == Live && ForwardAt(m, a)
    requires AtPos(m.stages, rows, a.pos)
    requires StepTried(m, a).reply.outcome.Done? && !m.stages[a.pos.stage].steps[a.pos.step].finishWorkflow
    requires after.rows == rows[a.pos.stage := rows[a.pos.stage][a.pos.step := Completed]]
    requires var r := StepTried(m, a).reply;
             after.state == CLEAN.(nextStage := r.nextStage, nextStep := r.nextStep)
    ensures var b := DriveStep(m, a);
            var i, j := a.pos.stage, a.pos.step + 1;
            && (b.phase == Live ==> AtStep(m, after, i, j, b.pos))
            && (b.phase != Live ==>
               b.phase == Finished && after.state == CLEAN && !InTable(m.stages, StepAt(m.stages, i, j)))
  {
    hide StepTried, UniqueStageNames;
    var r := StepTried(m, a).reply;
    var i, j := a.pos.stage, a.pos.step + 1;
    var target := Target(m.stages, a.pos, r.nextStage, r.nextStep);
    assert SettledBefore(after.rows, Pos(i, j)) && UntouchedFrom(after.rows, Pos(i, j)) by {
      forall c, d | 0 <= c < |after.rows| && 0 <= d < |after.rows[c]|
        ensures Before(Pos(c, d), Pos(i, j)) ==> Settled(after.rows[c][d])
        ensures !Before(Pos(c, d), Pos(i, j)) ==> after.rows[c][d] == NoStatus
      {
        assert Before(Pos(c, d), a.pos) || Pos(c, d) == a.pos || Before(a.pos, Pos(c, d));
      }
    }
    if r.nextStep.None? && InTable(m.stages, target) {
      UpNext(m.stages, after.rows, i, j, target);
    }
  }

  lemma UpNext(stages: seq<Stage>, rows: seq<seq<Status>>, i: nat, j: nat, p: Pos)
    requires Shaped(stages, rows) && i < |stages| && j <= |stages[i].steps|
    requires SettledBefore(rows, Pos(i, j)) && UntouchedFrom(rows, Pos(i, j))
    requires p == StepAt(stages, i, j) && InTable(stages, p)
    ensures AtPos(stages, rows, p)
  {
    forall c, d | 0 <= c < |rows| && 0 <= d < |rows[c]| && Before(Pos(c, d), p)
      ensures Settled(rows[c][d])
    {
      assert Before(Pos(c, d), Pos(i, j));
    }
  }

  // ------------------------------------------------- handling the steps of a stage

  /** How the handling of the rest of a stage ends, seen from the driver. */
  ghost predicate StepsEnd<W>(m: Machine<W>, after: Memory<W>, o: Outcome, i: nat, b: Driver<W>) {
    match o
    case Done =>
      && Same(m, after, b)
      && if b.phase == Live then i + 1 <= b.pos.stage && AtStage(m, after, i + 1, b.pos)
         else b.phase == Finished && after.state == CLEAN && !InTable(m.stages, StepAt(m.stages, i + 1, 0))
    case Died => b.phase == Live && InTable(m.stages, b.pos) && Halted(m, after, b, o)
    case Err(e) =>
      if e == BreakStages then b.phase == Finished && Same(m, after, b)
      else b.phase == Live && InTable(m.stages, b.pos) && Halted(m, after, b, o)
  }

  /** The step that is up is run, with no jump pending. */
  lemma HandlesStep<W>(m: Machine<W>, mem: Memory<W>, i: nat, j: nat, a: Driver<W>)
    requires AtStep(m, mem, i, j, a.pos) && Same(m, mem, a) && a.pos == Pos(i, j)
    ensures var here := mem.(state := CLEAN);
            && HandleStep(m, mem, i, j) == ExecuteStep(m, here, i, j)
            && AtPos(m.stages, here.rows, a.pos) && Same(m, here, a)
  {
    ReachesStep(m, mem, i, j, a.pos);
    HandlesWaiting(m, mem, i, j);
  }

  /** The step that is up, handled: the driver takes one step, or the run halts. */
  lemma RunsStep<W>(m: Machine<W>, mem: Memory<W>, i: nat, j: nat, a: Driver<W>)
    requires Distinct(m.stages) && a.phase == Live && ForwardAt(m, a)
    requires AtStep(m, mem, i, j, a.pos) && Same(m, mem, a) && a.pos == Pos(i, j)
    ensures var (after, o) := HandleStep(m, mem, i, j);
            var b := DriveStep(m, a);
            if !StepTried(m, a).reply.outcome.Done?
            then Halted(m, after, a, o) && o in {Err(Plain), Err(FailedTransfer), Err(ExitWorkflow), Died}
            else
              && Same(m, after, b)
              && o == StepOutcome(m.stages[i].steps[j], Done)
              && (o != Done ==> b.phase == Finished)
              && (o == Done && b.phase == Live ==> AtStep(m, after, i, j + 1, b.pos))
              && (o == Done && b.phase != Live ==>
                    b.phase == Finished && after.state == CLEAN && !InTable(m.stages, StepAt(m.stages, i, j + 1)))
  {
    hide ExecuteStep, Target, ForwardJump, Halted, Restore;
    HandlesStep(m, mem, i, j, a);
    var here := mem.(state := CLEAN);
    if !StepTried(m, a).reply.outcome.Done? {
      StepHalts(m, here, a);
    } else {
      StepSucceeds(m, here, a);
      var (after, o) := ExecuteStep(m, here, i, j);
      if o == Done {
        LeavesStep(m, here.rows, after, a);
      }
    }
  }

  /** Some stretch of the driver's steps ends as the handling of the rest of a stage did. */
  ghost predicate StepsSimulated<W>(m: Machine<W>, after: Memory<W>, o: Outcome, i: nat, a: Driver<W>) {
    exists n: nat :: StepsEnd(m, after, o, i, Drive(m, a, n))
  }

  lemma StepsSimulatedNow<W>(m: Machine<W>, end: Memory<W>, e: Outcome, i: nat, b: Driver<W>)
    requires StepsEnd(m, end, e, i, b)
    ensures StepsSimulated(m, end, e, i, b)
  {
    assert Drive(m, b, 0) == b;
  }

  lemma StepsSimulatedEarlier<W>(m: Machine<W>, end: Memory<W>, e: Outcome, i: nat, a: Driver<W>, k: nat)
    requires StepsSimulated(m, end, e, i, Drive(m, a, k))
    ensures StepsSimulated(m, end, e, i, a)
  {
    var b := Drive(m, a, k);
    var more: nat :| StepsEnd(m, end, e, i, Drive(m, b, more));
    DriveSplit(m, a, k, more);
    assert Drive(m, b, more) == Drive(m, a, k + more);
  }

  lemma NoStepLeft<W>(m: Machine<W>, mem: Memory<W>, i: nat, j: nat, a: Driver<W>)
    requires Distinct(m.stages) && AtStep(m, mem, i, j, a.pos) && Same(m, mem, a)
    requires a.phase == Live && j == |m.stages[i].steps|
    ensures StepsFrom(m, mem, i, j) == (mem, Done) && StepsSimulated(m, mem, Done, i, a)
  {
    StepsSimulatedNow(m, mem, Done, i, a);
  }

  lemma {:induction false} StepsSimulate<W>(m: Machine<W>, mem: Memory<W>, i: nat, j: nat, a: Driver<W>)
    requires Distinct(m.stages) && AlwaysForward(m, a) && a.phase == Live
    requires AtStep(m, mem, i, j, a.pos) && Same(m, mem, a)
    ensures StepsSimulated(m, StepsFrom(m, mem, i, j).0, StepsFrom(m, mem, i, j).1, i, a)
    decreases |m.stages[i].steps| - j
  {
    if j == |m.stages[i].steps| {
      NoStepLeft(m, mem, i, j, a);
    } else {
      StepsFromOne(m, mem, i, j);
      if a.pos != Pos(i, j) {
        PassesStep(m, mem, i, j, a);
        StepsSimulate(m, HandleStep(m, mem, i, j).0, i, j + 1, a);
      } else {
        StepsGoOn(m, mem, i, j, a);
      }
    }
  }

  lemma {:induction false} StepsGoOn<W>(m: Machine<W>, mem: Memory<W>, i: nat, j: nat, a: Driver<W>)
    requires Distinct(m.stages) && AlwaysForward(m, a) && a.phase == Live
    requires AtStep(m, mem, i, j, a.pos) && Same(m, mem, a) && a.pos == Pos(i, j)
    ensures var (after, o) := HandleStep(m, mem, i, j);
            var (end, e) := if o == Done || o == Err(SkipStep) then StepsFrom(m, after, i, j + 1) else (after, o);
            StepsSimulated(m, end, e, i, a)
    decreases |m.stages[i].steps| - j, 1
  {
    var (after, o) := HandleStep(m, mem, i, j);
    ForwardFrom(m, a, 0);
    RunsStep(m, mem, i, j, a);
    if !StepTried(m, a).reply.outcome.Done? {
      HaltsStage(m, after, o, i, a);
    } else {
      ForwardFrom(m, a, 1);
      DriveOne(m, a);
      StepsMoveOn(m, after, o, i, j, DriveStep(m, a));
      StepsSimulatedEarlier(m, if o == Done then StepsFrom(m, after, i, j + 1).0 else after,
                            if o == Done then StepsFrom(m, after, i, j + 1).1 else o, i, a, 1);
    }
  }

  lemma HaltsStage<W>(m: Machine<W>, after: Memory<W>, o: Outcome, i: nat, a: Driver<W>)
    requires a.phase == Live && InTable(m.stages, a.pos) && Halted(m, after, a, o)
    requires o in {Err(Plain), Err(FailedTransfer), Err(ExitWorkflow), Died}
    ensures StepsSimulated(m, after, o, i, a)
  {
    StepsSimulatedNow(m, after, o, i, a);
  }

  lemma DriveOne<W>(m: Machine<W>, a: Driver<W>)
    ensures Drive(m, a, 0) == a && Drive(m, a, 1) == DriveStep(m, a)
  {
    assert Drive(m, a, 0) == a;
  }

  /** After a success, which took the driver to `b`, the rest of the stage is simulated. */
  lemma {:induction false} StepsMoveOn<W>(m: Machine<W>, after: Memory<W>, o: Outcome, i: nat, j: nat, b: Driver<W>)
    requires Distinct(m.stages) && AlwaysForward(m, b)
    requires i < |m.stages| && j < |m.stages[i].steps| && Shaped(m.stages, after.rows)
    requires Same(m, after, b)
    requires o == Done || (o == Err(BreakStages) && b.phase == Finished)
    requires o == Done && b.phase == Live ==> AtStep(m, after, i, j + 1, b.pos)
    requires o == Done && b.phase != Live ==>
               b.phase == Finished && after.state == CLEAN && !InTable(m.stages, StepAt(m.stages, i, j + 1))
    ensures var (end, e) := if o == Done then StepsFrom(m, after, i, j + 1) else (after, o);
            StepsSimulated(m, end, e, i, b)
    decreases |m.stages[i].steps| - j, 0
  {
    hide ExecuteStep, HandleStep, StepsFrom, DriveStep;
    if o == Done && b.phase == Live {
      StepsSimulate(m, after, i, j + 1, b);
    } else {
      if o == Done {
        NothingLeft(m, after, i, j + 1);
      }
      StepsSimulatedNow(m, after, o, i, b);
    }
  }

  /** When no step is left the rest of the stage is empty. */
  lemma NothingLeft<W>(m: Machine<W>, mem: Memory<W>, i: nat, j: nat)
    requires Shaped(m.stages, mem.rows) && i < |m.stages| && j <= |m.stages[i].steps|
    requires !InTable(m.stages, StepAt(m.stages, i, j))
    ensures StepsFrom(m, mem, i, j) == (mem, Done)
    ensures !InTable(m.stages, StepAt(m.stages, i + 1, 0))
  {
  }

  // --------------------------------------------------- stages and whole runs

  /** How the handling of the rest of the stages ends, seen from the driver. */
  ghost predicate StagesEnd<W>(m: Machine<W>, after: Memory<W>, o: Outcome, b: Driver<W>) {
    if o == Done then b.phase == Finished && Same(m, after, b)
    else
      && b.phase == Live && InTable(m.stages, b.pos) && Halted(m, after, b, o)
      && o in {Err(Plain), Err(FailedTransfer), Err(ExitWorkflow), Died}
  }

  /** A stage that holds the next step, or that a settled history leads through, is handled step
      by step; a stage without steps is skipped. */
  lemma EntersStage<W>(m: Machine<W>, mem: Memory<W>, i: nat, a: Driver<W>)
    requires AtStage(m, mem, i, a.pos) && Same(m, mem, a)
    ensures var here := Enter(m, mem, i);
            Same(m, here, a)
            && if m.stages[i].steps == [] then HandleStage(m, mem, i) == (mem, Err(SkipStage)) &&
               AtStage(m, mem, i + 1, a.pos)
               else AtStep(m, here, i, 0, a.pos) && HandleStage(m, mem, i) == StepsFrom(m, here, i, 0)
  {
  }

  lemma StagesFromOne<W>(m: Machine<W>, mem: Memory<W>, i: nat)
    requires Shaped(m.stages, mem.rows) && i < |m.stages|
    ensures var (after, o) := HandleStage(m, mem, i);
            StagesFrom(m, mem, i) ==
            if o == Done || o == Err(SkipStage) then StagesFrom(m, after, i + 1)
            else if o == Err(BreakStages) then (after, Done)
            else (after, o)
  {
  }

  /** Stages without steps are passed one after the other. */
  lemma {:induction false} OnlyEmptyStages<W>(m: Machine<W>, mem: Memory<W>, i: nat)
    requires Shaped(m.stages, mem.rows) && i <= |m.stages|
    requires mem.state == CLEAN && !InTable(m.stages, StepAt(m.stages, i, 0))
    ensures StagesFrom(m, mem, i) == (mem, Done)
    decreases |m.stages| - i
  {
    if i < |m.stages| {
      StagesFromOne(m, mem, i);
      OnlyEmptyStages(m, mem, i + 1);
    }
  }

  lemma StageSimulates<W>(m: Machine<W>, mem: Memory<W>, i: nat, a: Driver<W>)
    requires Distinct(m.stages) && AlwaysForward(m, a) && a.phase == Live
    requires AtStage(m, mem, i, a.pos) && Same(m, mem, a) && m.stages[i].steps != []
    ensures StepsSimulated(m, HandleStage(m, mem, i).0, HandleStage(m, mem, i).1, i, a)
  {
    EntersStage(m, mem, i, a);
    StepsSimulate(m, Enter(m, mem, i), i, 0, a);
  }

  /** Some stretch of the driver's steps ends as a pass over stages did. */
  ghost predicate StagesSimulated<W>(m: Machine<W>, after: Memory<W>, o: Outcome, a: Driver<W>) {
    exists n: nat :: StagesEnd(m, after, o, Drive(m, a, n))
  }

  lemma SimulatedNow<W>(m: Machine<W>, end: Memory<W>, e: Outcome, b: Driver<W>)
    requires StagesEnd(m, end, e, b)
    ensures StagesSimulated(m, end, e, b)
  {
    assert Drive(m, b, 0) == b;
  }

  lemma SimulatedEarlier<W>(m: Machine<W>, end: Memory<W>, e: Outcome, a: Driver<W>, k: nat)
    requires StagesSimulated(m, end, e, Drive(m, a, k))
    ensures StagesSimulated(m, end, e, a)
  {
    var b := Drive(m, a, k);
    var more: nat :| StagesEnd(m, end, e, Drive(m, b, more));
    DriveSplit(m, a, k, more);
    assert Drive(m, b, more) == Drive(m, a, k + more);
  }

  lemma {:induction false} StagesSimulate<W>(m: Machine<W>, mem: Memory<W>, i: nat, a: Driver<W>)
    requires Distinct(m.stages) && AlwaysForward(m, a) && a.phase == Live
    requires AtStage(m, mem, i, a.pos) && Same(m, mem, a)
    ensures StagesSimulated(m, StagesFrom(m, mem, i).0, StagesFrom(m, mem, i).1, a)
    decreases |m.stages| - i
  {
    hide HandleStep, DriveStep, Halted, AllWitnessed, Bare;
    StagesFromOne(m, mem, i);
    if m.stages[i].steps == [] {
      EntersStage(m, mem, i, a);
      StagesSimulate(m, mem, i + 1, a);
    } else {
      StageSimulates(m, mem, i, a);
      var k: nat :| StepsEnd(m, HandleStage(m, mem, i).0, HandleStage(m, mem, i).1, i, Drive(m, a, k));
      ForwardFrom(m, a, k);
      StagesMoveOn(m, HandleStage(m, mem, i).0, HandleStage(m, mem, i).1, i, Drive(m, a, k));
      SimulatedEarlier(m, StagesFrom(m, mem, i).0, StagesFrom(m, mem, i).1, a, k);
    }
  }

  /** After one stage, which took the driver to `b`, the rest of them is simulated. */
  lemma {:induction false} StagesMoveOn<W>(m: Machine<W>, after: Memory<W>, o: Outcome, i: nat, b: Driver<W>)
    requires Distinct(m.stages) && Shaped(m.stages, after.rows) && i < |m.stages|
    requires AlwaysForward(m, b) && ForwardAt(m, b) && StepsEnd(m, after, o, i, b)
    ensures var (end, e) := if o == Done || o == Err(SkipStage) then StagesFrom(m, after, i + 1)
                            else if o == Err(BreakStages) then (after, Done)
                            else (after, o);
            StagesSimulated(m, end, e, b)
    decreases |m.stages| - i, 0
  {
    hide StepTried, ExecuteStep;
    if o == Done && b.phase == Live {
      StagesSimulate(m, after, i + 1, b);
    } else {
      StagesStop(m, after, o, i, b);
      SimulatedNow(m, after, if o == Err(BreakStages) then Done else o, b);
    }
  }

  /** A stage after which no step is left, or that halted, ends the pass over the stages. */
  lemma StagesStop<W>(m: Machine<W>, after: Memory<W>, o: Outcome, i: nat, b: Driver<W>)
    requires Shaped(m.stages, after.rows) && i < |m.stages| && ForwardAt(m, b)
    requires StepsEnd(m, after, o, i, b) && !(o == Done && b.phase == Live)
    ensures o == Done ==> StagesFrom(m, after, i + 1) == (after, Done)
    ensures o != Err(SkipStage)
    ensures StagesEnd(m, after, if o == Err(BreakStages) then Done else o, b)
  {
    if o == Done {
      OnlyEmptyStages(m, after, i + 1);
    } else if o != Err(BreakStages) {
      HaltsOrdinarily(m, after, b, o);
    }
  }

  lemma HaltsOrdinarily<W>(m: Machine<W>, mem: Memory<W>, a: Driver<W>, o: Outcome)
    requires a.phase == Live && ForwardAt(m, a) && Halted(m, mem, a, o)
    ensures o in {Err(Plain), Err(FailedTransfer), Err(ExitWorkflow), Died}
  {
  }

  /** Between two runs: what is stored sends the next run to the driver's step, or stops it. */
  ghost predicate Between<W>(m: Machine<W>, s: Session<W>, a: Driver<W>) {
    && s.world == a.world && Bare(s.log) == a.log && AllWitnessed(m.stages, s.log)
    && match a.phase
       case Live => SnapshotAt(m.stages, s.stored, a.pos)
       case Finished => s.stored.state.isCompleted
       case Aborted => s.stored.state.isFailed
       case Redirected(stage, step, customError) =>
         && s.stored.state == CLEAN.(nextStage := Some(stage), nextStep := Some(step), customError := customError)
         && AtPos(m.stages, Restore(m.stages, s.stored.steps), a.pos)
  }

  /** The failure callback, after a run that halted with an ordinary error. */
  lemma FailureSimulates<W>(m: Machine<W>, mem: Memory<W>, a: Driver<W>, e: Error)
    requires Distinct(m.stages) && a.phase == Live && InTable(m.stages, a.pos)
    requires Halted(m, mem, a, Err(e)) && e != ExitWorkflow
    requires Valid(mem.rows[a.pos.stage][a.pos.step]) && mem.stored == SnapshotOf(m, mem)
    ensures var after := Fail(m, mem, e);
            Between(m, Session(after.stored, after.world, after.log), DriveStep(m, a))
  {
    CurrentIs(m.stages, mem.rows, a.pos);
    DistinctPairs(m.stages);
    RestoreCollect(m.stages, mem.rows);
    FailIs(m, mem, a, e);
    var after := Fail(m, mem, e);
    assert Restore(m.stages, after.stored.steps) == mem.rows;
  }

  /** What the callback does to the memory, and what the driver makes of it. */
  lemma FailIs<W>(m: Machine<W>, mem: Memory<W>, a: Driver<W>, e: Error)
    requires a.phase == Live && InTable(m.stages, a.pos) && e != ExitWorkflow && Halted(m, mem, a, Err(e))
    requires CurrentStageName(m.stages, mem.rows) == ContextOf(m.stages, a.pos).currentStage
    requires CurrentStepName(m.stages, mem.rows) == ContextOf(m.stages, a.pos).currentStep
    requires mem.stored == SnapshotOf(m, mem)
    ensures var after, b := Fail(m, mem, e), DriveStep(m, a);
            && after.log == mem.log && after.world == b.world && b.pos == a.pos && b.log == Called(m, a).log
            && after.stored.steps == Collect(m.stages, mem.rows)
            && match b.phase
               case Live => after.stored.state == mem.state
               case Aborted => after.stored.state.isFailed
               case Redirected(stage, step, customError) =>
                 after.stored.state == mem.state.(nextStage := Some(stage), nextStep := Some(step),
                   customError := if e == FailedTransfer then Decodable else mem.state.customError)
                 && customError == KeptError(e)
               case Finished => false
  {
  }

  /** The step at which a run halted is the step the next run resumes from. */
  lemma HaltSimulates<W>(m: Machine<W>, mem: Memory<W>, a: Driver<W>, o: Outcome)
    requires a.phase == Live && InTable(m.stages, a.pos)
    requires Halted(m, mem, a, o) && o in {Err(ExitWorkflow), Died}
    ensures Between(m, Session(mem.stored, mem.world, mem.log), DriveStep(m, a))
  {
  }

  /** What a run does after its stages. */
  lemma RunIs<W>(m: Machine<W>, mem: Memory<W>)
    requires Distinct(m.stages) && Shaped(m.stages, mem.rows) && !Stopped(mem.state)
    ensures var (after, o) := StagesFrom(m, mem, 0);
            Run(m, mem).0 ==
            match o
            case Died => after
            case Done => Save(m, after.(state := after.state.(isCompleted := true)))
            case Err(e) => if e == ExitWorkflow then after else Fail(m, Save(m, after), e)
  {
  }

  lemma FailedRunEnds<W>(m: Machine<W>, after: Memory<W>, b: Driver<W>, e: Error)
    requires Distinct(m.stages) && Shaped(m.stages, after.rows)
    requires b.phase == Live && InTable(m.stages, b.pos) && Halted(m, after, b, Err(e)) && e != ExitWorkflow
    ensures var end := Fail(m, Save(m, after), e);
            Between(m, Session(end.stored, end.world, end.log), DriveStep(m, b))
  {
    SavedAt(m, after, b.pos);
    FailureSimulates(m, Save(m, after), b, e);
  }

  /** The end of a run: the snapshot it leaves, after the stages ended. */
  lemma RunEnds<W>(m: Machine<W>, mem: Memory<W>, b: Driver<W>)
    requires Distinct(m.stages) && Shaped(m.stages, mem.rows) && !Stopped(mem.state)
    requires var (after, o) := StagesFrom(m, mem, 0); StagesEnd(m, after, o, b)
    ensures var after := Run(m, mem).0;
            Between(m, Session(after.stored, after.world, after.log),
                    if StagesFrom(m, mem, 0).1 == Done then b else DriveStep(m, b))
  {
    var (after, o) := StagesFrom(m, mem, 0);
    RunIs(m, mem);
    if o in {Err(ExitWorkflow), Died} {
      HaltSimulates(m, after, b, o);
    } else if o.Err? {
      FailedRunEnds(m, after, b, o.error);
    }
  }

  /** A run that starts at the driver's step makes a stretch of the driver's steps. */
  lemma LiveRunSimulates<W>(m: Machine<W>, mem: Memory<W>, a: Driver<W>) returns (n: nat)
    requires Distinct(m.stages) && AlwaysForward(m, a) && a.phase == Live
    requires AtStage(m, mem, 0, a.pos) && Same(m, mem, a) && !Stopped(mem.state)
    ensures var after := Run(m, mem).0;
            Between(m, Session(after.stored, after.world, after.log), Drive(m, a, n))
    ensures n > 0
  {
    StagesSimulate(m, mem, 0, a);
    n :| StagesEnd(m, StagesFrom(m, mem, 0).0, StagesFrom(m, mem, 0).1, Drive(m, a, n));
    RunEnds(m, mem, Drive(m, a, n));
    if StagesFrom(m, mem, 0).1 != Done {
      n := n + 1;
    }
  }

  /** What is stored between two runs of a live transfer starts the next run at the driver's step. */
  lemma LoadedAt<W>(m: Machine<W>, s: Session<W>, a: Driver<W>)
    requires Between(m, s, a) && a.phase == Live
    ensures var mem := Load(m, s.stored, s.world, s.log);
            AtStage(m, mem, 0, a.pos) && Same(m, mem, a) && !Stopped(mem.state)
  {
  }

  /** One run makes a stretch of the driver's steps, and leaves a snapshot that resumes there. */
  lemma RunSimulates<W>(m: Machine<W>, s: Session<W>, a: Driver<W>) returns (n: nat)
    requires Distinct(m.stages) && AlwaysForward(m, a) && !a.phase.Redirected? && Between(m, s, a)
    ensures Between(m, RunOnce(m, s), Drive(m, a, n))
    ensures a.phase == Live ==> n > 0
  {
    if a.phase == Live {
      LoadedAt(m, s, a);
      n := LiveRunSimulates(m, Load(m, s.stored, s.world, s.log), a);
    } else {
      n := 0;
    }
  }
}
