/** What the statuses of the steps say about the calls that were made: over any number of runs, jumps
    and redirects, and without the driver, a status is what the last call of its step left. */
module StatusLog {
  import opened Wrappers
  import opened Engine
  import opened SnapshotRoundTrip
  import opened Resumption
  import opened Simulation
  import opened History

  predicate IsOf(c: Call, i: nat, j: nat) {
    c.stage == i && c.step == j
  }

  /** How the last call of a step ended. */
  function LastOutcome(log: seq<Call>, i: nat, j: nat): Option<Outcome> {
    if log == [] then None
    else if IsOf(log[|log| - 1], i, j) then Some(log[|log| - 1].outcome)
    else LastOutcome(log[..|log| - 1], i, j)
  }

  /** The status a step has after its last call: a step that was never called was not reached, or
      passed over; one that exits the workflow is stored while it is running; and one that failed or
      died may be passed over later. */
  predicate Tells(step: Step, s: Status, last: Option<Outcome>) {
    match last
    case None => s == NoStatus || s == Skipped
    case Some(Done) => s == if step.finishWorkflow then Skipped else Completed
    case Some(Err(e)) =>
      s == Skipped || (e != SkipStep && e != BreakStages && (s == Failed || (e == ExitWorkflow && s == Processing)))
    case Some(Died) => s == Processing || s == Skipped
  }

  predicate RowsTell(stages: seq<Stage>, rows: seq<seq<Status>>, log: seq<Call>) {
    && Shaped(stages, rows)
    && forall i, j :: 0 <= i < |rows| && 0 <= j < |rows[i]| ==>
         Tells(stages[i].steps[j], rows[i][j], LastOutcome(log, i, j))
  }

  /** No function is called again after it succeeded. */
  predicate DoneOnce(log: seq<Call>) {
    forall x, y :: 0 <= x < y < |log| && log[x].outcome.Done? ==> PosOf(log[x]) != PosOf(log[y])
  }

  /** A step that was completed or skipped when some function was called has that status still. */
  predicate SettledKept(rows: seq<seq<Status>>, log: seq<Call>) {
    forall y :: 0 <= y < |log| ==> KeptSince(log[y].rows, rows)
  }

  predicate KeptAt(before: seq<seq<Status>>, rows: seq<seq<Status>>, i: nat, j: nat)
    requires i < |before| && i < |rows| && j < |rows[i]|
  {
    j < |before[i]| && (Settled(before[i][j]) ==> rows[i][j] == before[i][j])
  }

  predicate KeptSince(before: seq<seq<Status>>, rows: seq<seq<Status>>) {
    && |before| == |rows|
    && forall i, j :: 0 <= i < |rows| && 0 <= j < |rows[i]| ==> KeptAt(before, rows, i, j)
  }

  predicate Told(stages: seq<Stage>, rows: seq<seq<Status>>, log: seq<Call>) {
    RowsTell(stages, rows, log) && DoneOnce(log) && SettledKept(rows, log)
  }

  // ------------------------------------------------------------------- calls of one step

  lemma {:induction false} CallsOfOthers(log: seq<Call>, more: seq<Call>, i: nat, j: nat, a: nat, b: nat)
    requires (forall k :: 0 <= k < |more| ==> IsOf(more[k], i, j)) && (a != i || b != j)
    ensures LastOutcome(log + more, a, b) == LastOutcome(log, a, b)
  {
    if more == [] {
      assert log + more == log;
    } else {
      var n := |more| - 1;
      assert (log + more)[..|log| + n] == log + more[..n];
      CallsOfOthers(log, more[..n], i, j, a, b);
    }
  }

  lemma CallsOfIt(log: seq<Call>, more: seq<Call>, i: nat, j: nat)
    requires more != [] && IsOf(more[|more| - 1], i, j)
    ensures LastOutcome(log + more, i, j) == Some(more[|more| - 1].outcome)
  {
    assert (log + more)[|log + more| - 1] == more[|more| - 1];
  }

  /** The last call tells whether one succeeded, because none follows a success. */
  lemma {:induction false} LastIsDone(log: seq<Call>, i: nat, j: nat)
    requires DoneOnce(log)
    ensures LastOutcome(log, i, j) == Some(Done) <==>
            exists x :: 0 <= x < |log| && IsOf(log[x], i, j) && log[x].outcome.Done?
    ensures LastOutcome(log, i, j) == None <==> forall x :: 0 <= x < |log| ==> !IsOf(log[x], i, j)
  {
    if log != [] {
      var n := |log| - 1;
      var before := log[..n];
      LastIsDone(before, i, j);
      if IsOf(log[n], i, j) {
        forall x | 0 <= x < n && IsOf(log[x], i, j) ensures !log[x].outcome.Done? {
          assert PosOf(log[x]) == PosOf(log[n]);
        }
      } else if x :| 0 <= x < n && IsOf(log[x], i, j) && log[x].outcome.Done? {
        assert before[x] == log[x];
      }
      assert forall x :: 0 <= x < n ==> before[x] == log[x];
    }
  }

  // -------------------------------------------------------------------- one step

  /** A step may be called: its last call, if there was one, did not succeed. */
  predicate MayRun(s: Status) {
    s == NoStatus || s == Processing || s == Failed || s == Pending
  }

  /** The calls of a step, with the status it is left with. */
  lemma RowsStillTell(stages: seq<Stage>, rows: seq<seq<Status>>, log: seq<Call>, i: nat, j: nat, more: seq<Call>,
                      s: Status)
    requires RowsTell(stages, rows, log) && i < |rows| && j < |rows[i]|
    requires more != [] && forall k :: 0 <= k < |more| ==> IsOf(more[k], i, j)
    requires Tells(stages[i].steps[j], s, Some(more[|more| - 1].outcome))
    ensures RowsTell(stages, rows[i := rows[i][j := s]], log + more)
  {
    CallsOfIt(log, more, i, j);
    var after := rows[i := rows[i][j := s]];
    forall a, b | 0 <= a < |after| && 0 <= b < |after[a]|
      ensures Tells(stages[a].steps[b], after[a][b], LastOutcome(log + more, a, b))
    {
      if a != i || b != j {
        CallsOfOthers(log, more, i, j, a, b);
      }
    }
  }

  lemma StillDoneOnce(log: seq<Call>, i: nat, j: nat, more: seq<Call>)
    requires DoneOnce(log) && LastOutcome(log, i, j) != Some(Done)
    requires forall k :: 0 <= k < |more| ==> IsOf(more[k], i, j)
    requires forall k :: 0 <= k < |more| - 1 ==> !more[k].outcome.Done?
    ensures DoneOnce(log + more)
  {
    LastIsDone(log, i, j);
    var all := log + more;
    forall x, y | 0 <= x < y < |all| && all[x].outcome.Done? ensures PosOf(all[x]) != PosOf(all[y]) {
      if x < |log| <= y {
        assert IsOf(all[y], i, j) && all[x] == log[x];
      }
    }
  }

  /** Changing a status that was not settled keeps those that were. */
  lemma OneRowKept(before: seq<seq<Status>>, rows: seq<seq<Status>>, i: nat, j: nat, s: Status)
    requires KeptSince(before, rows) && i < |rows| && j < |rows[i]| && !Settled(rows[i][j])
    ensures KeptSince(before, rows[i := rows[i][j := s]])
  {
    var after := rows[i := rows[i][j := s]];
    forall a, b | 0 <= a < |after| && 0 <= b < |after[a]| ensures KeptAt(before, after, a, b) {
      assert KeptAt(before, rows, a, b);
    }
  }

  /** Two changes of one status differ there only. */
  lemma StartedIsKept(rows: seq<seq<Status>>, i: nat, j: nat, s: Status)
    requires i < |rows| && j < |rows[i]|
    ensures KeptSince(rows[i := rows[i][j := Processing]], rows[i := rows[i][j := s]])
  {
    var before, after := rows[i := rows[i][j := Processing]], rows[i := rows[i][j := s]];
    forall a, b | 0 <= a < |after| && 0 <= b < |after[a]| ensures KeptAt(before, after, a, b) {
    }
  }

  lemma StillKept(rows: seq<seq<Status>>, log: seq<Call>, i: nat, j: nat, more: seq<Call>, s: Status)
    requires SettledKept(rows, log) && i < |rows| && j < |rows[i]| && MayRun(rows[i][j])
    requires forall k :: 0 <= k < |more| ==> more[k].rows == rows[i := rows[i][j := Processing]]
    ensures SettledKept(rows[i := rows[i][j := s]], log + more)
  {
    var after := rows[i := rows[i][j := s]];
    var all := log + more;
    forall y | 0 <= y < |all| ensures KeptSince(all[y].rows, after) {
      if y < |log| {
        assert all[y] == log[y] && KeptSince(log[y].rows, rows);
        OneRowKept(log[y].rows, rows, i, j, s);
      } else {
        assert all[y] == more[y - |log|];
        StartedIsKept(rows, i, j, s);
      }
    }
  }

  /** A step that was called, with a status that tells how the call ended. */
  lemma ToldAfterCalls(stages: seq<Stage>, rows: seq<seq<Status>>, log: seq<Call>, i: nat, j: nat, more: seq<Call>,
                       s: Status)
    requires Told(stages, rows, log) && i < |rows| && j < |rows[i]| && MayRun(rows[i][j])
    requires more != [] && forall k :: 0 <= k < |more| ==> IsOf(more[k], i, j)
    requires forall k :: 0 <= k < |more| - 1 ==> !more[k].outcome.Done?
    requires forall k :: 0 <= k < |more| ==> more[k].rows == rows[i := rows[i][j := Processing]]
    requires Tells(stages[i].steps[j], s, Some(more[|more| - 1].outcome))
    ensures Told(stages, rows[i := rows[i][j := s]], log + more)
  {
    hide LastOutcome, SettledKept, DoneOnce;
    RowsStillTell(stages, rows, log, i, j, more, s);
    StillDoneOnce(log, i, j, more);
    StillKept(rows, log, i, j, more, s);
  }

  /** A step that a jump passes over. */
  lemma ToldAfterPassing(stages: seq<Stage>, rows: seq<seq<Status>>, log: seq<Call>, i: nat, j: nat)
    requires Told(stages, rows, log) && i < |rows| && j < |rows[i]| && MayRun(rows[i][j])
    ensures Told(stages, rows[i := rows[i][j := Skipped]], log)
  {
    var after := rows[i := rows[i][j := Skipped]];
    assert LastOutcome(log, i, j) != Some(Done) && !Settled(rows[i][j]);
    hide LastOutcome, DoneOnce, MayRun;
    forall y | 0 <= y < |log| ensures KeptSince(log[y].rows, after) {
      assert KeptSince(log[y].rows, rows);
      OneRowKept(log[y].rows, rows, i, j, Skipped);
    }
  }

  // ----------------------------------------------------------- what a run makes of the statuses

  /** The statuses in memory tell of the calls made so far. */
  predicate MemoryTold<W>(m: Machine<W>, mem: Memory<W>) {
    Told(m.stages, mem.rows, mem.log)
  }

  /** And so do the stored ones. */
  predicate StoredTold<W>(m: Machine<W>, mem: Memory<W>) {
    Told(m.stages, Restore(m.stages, mem.stored.steps), mem.log)
  }

  lemma SavedIsTold<W>(m: Machine<W>, mem: Memory<W>)
    requires Distinct(m.stages) && MemoryTold(m, mem)
    ensures MemoryTold(m, Save(m, mem)) && StoredTold(m, Save(m, mem))
  {
    hide Told;
    DistinctPairs(m.stages);
    assert Shaped(m.stages, mem.rows) by {
      IsShaped(m, mem);
    }
    RestoreCollect(m.stages, mem.rows);
  }

  lemma IsShaped<W>(m: Machine<W>, mem: Memory<W>)
    requires MemoryTold(m, mem)
    ensures Shaped(m.stages, mem.rows)
  {
  }

  /** The function of a step marks the workflow failed. */
  predicate MayFail<W>(m: Machine<W>, w: W, c: Context, i: nat, j: nat) {
    && i < |m.stages| && j < |m.stages[i].steps|
    && c.stage == m.stages[i].name && c.step == m.stages[i].steps[j].name && m.call(w, c).fail
  }

  /** Only the function of the last step of the table does. */
  ghost predicate FailsLast<W(!new)>(m: Machine<W>) {
    forall w, c, i: nat, j: nat :: MayFail(m, w, c, i, j) ==> i + 1 == |m.stages| && j + 1 == |m.stages[i].steps|
  }

  // ----------------------------------------------------------------------- one call

  /** The calls made for a step end with its outcome, and only the last may succeed. */
  lemma CallsShaped<W>(m: Machine<W>, mem: Memory<W>, i: nat, j: nat, c: Context, t: Tried<W>)
    requires i < |m.stages| && j < |m.stages[i].steps| && t == Try(m, mem.world, c, m.stages[i].steps[j])
    ensures var more := CallLog(i, j, c, mem.rows, t.calls);
            && more != [] && more[|more| - 1].outcome == t.reply.outcome
            && forall k :: 0 <= k < |more| - 1 ==> !more[k].outcome.Done?
  {
    TriedShape(m.call, Untouched(mem.world), c, MaxRetries(m.stages[i].steps[j]));
  }

  /** The statuses while the function of a step runs. */
  lemma StartedIsTold<W>(m: Machine<W>, mem: Memory<W>, i: nat, j: nat, s: Memory<W>, c: Context, t: Tried<W>,
                         u: Status)
    requires MemoryTold(m, mem) && i < |m.stages| && j < |m.stages[i].steps| && MayRun(mem.rows[i][j])
    requires s.rows == mem.rows[i := mem.rows[i][j := Processing]] && s.log == mem.log
    requires t == Try(m, s.world, c, m.stages[i].steps[j])
    requires Tells(m.stages[i].steps[j], u, Some(t.reply.outcome))
    ensures Told(m.stages, mem.rows[i := mem.rows[i][j := u]], mem.log + CallLog(i, j, c, s.rows, t.calls))
  {
    hide Told, Tells, Attempts;
    IsShaped(m, mem);
    CallsShaped(m, s, i, j, c, t);
    ToldAfterCalls(m.stages, mem.rows, mem.log, i, j, CallLog(i, j, c, s.rows, t.calls), u);
  }

  /** What a call leaves in memory, and in the store if it ends the run without storing more. */
  lemma ExecuteTells<W>(m: Machine<W>, mem: Memory<W>, i: nat, j: nat)
    requires Distinct(m.stages) && MemoryTold(m, mem) && Shaped(m.stages, mem.rows)
    requires i < |m.stages| && j < |m.stages[i].steps| && MayRun(mem.rows[i][j])
    ensures var (after, o) := ExecuteStep(m, mem, i, j);
            MemoryTold(m, after) && (o == Died || o == Err(ExitWorkflow) ==> StoredTold(m, after))
  {
    hide Told, Attempts, Collect, Restore, Tells, ContextAt, UniqueStepNames, UniqueStageNames;
    var started := Save(m, SetStatus(mem, i, j, Processing));
    var step := m.stages[i].steps[j];
    var c := ContextAt(m, started, i, j);
    var t := Try(m, started.world, c, step);
    var called := AfterCalls(started, i, j, c, t);
    var (after, o) := ExecuteStep(m, mem, i, j);
    FinalTells(step, t.reply.outcome);
    DistinctPairs(m.stages);
    RestoreCollect(m.stages, started.rows);
    if t.reply.outcome.Died? {
      StartedIsTold(m, mem, i, j, started, c, t, Processing);
    } else {
      StartedIsTold(m, mem, i, j, started, c, t, FinalStatus(o));
      assert mem.rows[i][j := Processing][j := FinalStatus(o)] == mem.rows[i][j := FinalStatus(o)];
      assert after.rows == mem.rows[i := mem.rows[i][j := FinalStatus(o)]];
      if o == Err(ExitWorkflow) {
        StartedIsTold(m, mem, i, j, started, c, t, Processing);
      }
    }
  }

  lemma FinalTells(step: Step, o: Outcome)
    ensures Tells(step, FinalStatus(StepOutcome(step, o)), Some(o))
    ensures o == Died || o == Err(ExitWorkflow) ==> Tells(step, Processing, Some(o))
  {
  }

  /** Attempts that never mark the workflow failed do not together. */
  lemma {:induction false} NoneFails<W(!new)>(call: (W, Context) -> Reply<W>, before: Reply<W>, c: Context, n: nat)
    requires n > 0 && !before.fail && forall w :: !call(w, c).fail
    ensures !Attempts(call, before, c, n).reply.fail
    decreases n
  {
    var r := call(before.world, c);
    if r.outcome.Err? && n > 1 {
      NoneFails(call, Merge(before, r), c, n - 1);
    }
  }

  /** Only the last step of the table may stop the workflow. */
  lemma ExecuteGoesOn<W(!new)>(m: Machine<W>, mem: Memory<W>, i: nat, j: nat)
    requires Distinct(m.stages) && FailsLast(m) && Shaped(m.stages, mem.rows) && !Stopped(mem.state)
    requires i < |m.stages| && j < |m.stages[i].steps| && (i + 1 < |m.stages| || j + 1 < |m.stages[i].steps|)
    ensures !Stopped(ExecuteStep(m, mem, i, j).0.state)
  {
    var started := Save(m, SetStatus(mem, i, j, Processing));
    var c := ContextAt(m, started, i, j);
    forall w ensures !m.call(w, c).fail {
      assert !MayFail(m, w, c, i, j);
    }
    NoneFails(m.call, Untouched(started.world), c, MaxRetries(m.stages[i].steps[j]));
  }

  // ------------------------------------------------------------------ steps, stages and runs

  /** The workflow is stopped at most after the last step of the table. */
  predicate GoesTo<W>(m: Machine<W>, mem: Memory<W>, i: nat, j: nat) {
    Stopped(mem.state) ==> i >= |m.stages| || (i + 1 == |m.stages| && j >= |m.stages[i].steps| > 0)
  }

  /** What the handling of steps leaves: statuses that tell, in memory, and in the store if the run
      ends without storing more. */
  predicate Left<W>(m: Machine<W>, r: (Memory<W>, Outcome)) {
    && Shaped(m.stages, r.0.rows) && MemoryTold(m, r.0)
    && (r.1 == Died || r.1 == Err(ExitWorkflow) ==> StoredTold(m, r.0))
  }

  lemma HandleTells<W(!new)>(m: Machine<W>, mem: Memory<W>, i: nat, j: nat)
    requires Distinct(m.stages) && FailsLast(m) && MemoryTold(m, mem) && Shaped(m.stages, mem.rows)
    requires i < |m.stages| && j < |m.stages[i].steps| && GoesTo(m, mem, i, j)
    ensures Left(m, HandleStep(m, mem, i, j)) && GoesTo(m, HandleStep(m, mem, i, j).0, i, j + 1)
  {
    hide ExecuteStep, Restore, LastOutcome, DoneOnce, SettledKept, UniqueStepNames, UniqueStageNames;
    var name, next := m.stages[i].steps[j].name, mem.state.nextStep;
    var here := if next == Some(name) then mem.(state := mem.state.(nextStep := None)) else mem;
    assert Tells(m.stages[i].steps[j], mem.rows[i][j], LastOutcome(mem.log, i, j));
    if MayRun(mem.rows[i][j]) {
      if next.Some? && next.value != name {
        ToldAfterPassing(m.stages, mem.rows, mem.log, i, j);
      } else {
        ExecuteTells(m, here, i, j);
        if i + 1 < |m.stages| || j + 1 < |m.stages[i].steps| {
          ExecuteGoesOn(m, here, i, j);
        }
      }
    }
  }

  lemma {:induction false} StepsTell<W(!new)>(m: Machine<W>, mem: Memory<W>, i: nat, j: nat)
    requires Distinct(m.stages) && FailsLast(m) && MemoryTold(m, mem) && Shaped(m.stages, mem.rows)
    requires i < |m.stages| && j <= |m.stages[i].steps| && GoesTo(m, mem, i, j)
    ensures Left(m, StepsFrom(m, mem, i, j))
    ensures StepsFrom(m, mem, i, j).1 in {Done, Err(SkipStage)} ==> GoesTo(m, StepsFrom(m, mem, i, j).0, i + 1, 0)
    decreases |m.stages[i].steps| - j
  {
    hide HandleStep, Told, Restore, FailsLast, UniqueStepNames, UniqueStageNames;
    if j < |m.stages[i].steps| {
      HandleTells(m, mem, i, j);
      StepsFromOne(m, mem, i, j);
      var (after, o) := HandleStep(m, mem, i, j);
      if o == Done || o == Err(SkipStep) {
        StepsTell(m, after, i, j + 1);
      }
    }
  }

  lemma StageTells<W(!new)>(m: Machine<W>, mem: Memory<W>, i: nat)
    requires Distinct(m.stages) && FailsLast(m) && MemoryTold(m, mem) && Shaped(m.stages, mem.rows)
    requires i < |m.stages| && GoesTo(m, mem, i, 0)
    ensures var r := HandleStage(m, mem, i);
            && Left(m, r) && (r.1 in {Done, Err(SkipStage)} ==> GoesTo(m, r.0, i + 1, 0))
  {
    hide StepsFrom, Told, Restore, FailsLast, UniqueStepNames, UniqueStageNames;
    StepsTell(m, Enter(m, mem, i), i, 0);
  }

  lemma {:induction false} StagesTell<W(!new)>(m: Machine<W>, mem: Memory<W>, i: nat)
    requires Distinct(m.stages) && FailsLast(m) && MemoryTold(m, mem) && Shaped(m.stages, mem.rows)
    requires i <= |m.stages| && GoesTo(m, mem, i, 0)
    ensures Left(m, StagesFrom(m, mem, i))
    decreases |m.stages| - i
  {
    hide HandleStage, Told, Restore, FailsLast, UniqueStepNames, UniqueStageNames;
    if i < |m.stages| {
      StageTells(m, mem, i);
      StagesFromOne(m, mem, i);
      var (after, o) := HandleStage(m, mem, i);
      if o == Done || o == Err(SkipStage) {
        StagesTell(m, after, i + 1);
      }
    }
  }

  /** The failure callback stores the statuses as they are, or leaves what is stored. */
  lemma FailTells<W>(m: Machine<W>, mem: Memory<W>, e: Error)
    requires Distinct(m.stages) && Shaped(m.stages, mem.rows) && MemoryTold(m, mem)
    ensures StoredTold(m, Fail(m, Save(m, mem), e))
  {
    hide Told, Restore, UniqueStepNames, UniqueStageNames, CurrentStageName, CurrentStepName;
    SavedIsTold(m, mem);
    DistinctPairs(m.stages);
    RestoreCollect(m.stages, mem.rows);
  }

  /** Between two runs the stored statuses tell of all the calls made so far. */
  predicate SessionTold<W>(m: Machine<W>, s: Session<W>) {
    Told(m.stages, Restore(m.stages, s.stored.steps), s.log)
  }

  lemma RunTells<W(!new)>(m: Machine<W>, s: Session<W>)
    requires Distinct(m.stages) && FailsLast(m) && SessionTold(m, s)
    ensures SessionTold(m, RunOnce(m, s))
  {
    hide StagesFrom, Told, Restore, Fail, FailsLast;
    var mem := Load(m, s.stored, s.world, s.log);
    if !Stopped(mem.state) {
      StagesTell(m, mem, 0);
      RunIs(m, mem);
      var (after, o) := StagesFrom(m, mem, 0);
      match o
      case Died =>
      case Done => SavedIsTold(m, after.(state := after.state.(isCompleted := true)));
      case Err(e) => FailTells(m, after, e);
    }
  }

  lemma FreshIsTold<W>(m: Machine<W>, world: W)
    ensures SessionTold(m, Fresh(world))
  {
  }

  lemma {:induction false} RunsTell<W(!new)>(m: Machine<W>, world: W, k: nat)
    requires Distinct(m.stages) && FailsLast(m)
    ensures SessionTold(m, Runs(m, Fresh(world), k))
  {
    hide SessionTold, RunOnce, FailsLast;
    if k == 0 {
      FreshIsTold(m, world);
    } else {
      RunsTell(m, world, k - 1);
      RunTells(m, Runs(m, Fresh(world), k - 1));
    }
  }

  predicate Succeeded(log: seq<Call>, i: nat, j: nat) {
    exists x :: 0 <= x < |log| && log[x].stage == i && log[x].step == j && log[x].outcome.Done?
  }

  predicate Called(log: seq<Call>, i: nat, j: nat) {
    exists x :: 0 <= x < |log| && log[x].stage == i && log[x].step == j
  }

  /** The status says which function succeeded, and which was never called. */
  predicate StatusExact(step: Step, status: Status, succeeded: bool, called: bool) {
    && (status == Completed <==> succeeded && !step.finishWorkflow)
    && (!called ==> status == NoStatus || status == Skipped)
    && (status == NoStatus ==> !called)
  }

  /** The stored statuses of all steps do. */
  predicate StoredExactly(stages: seq<Stage>, rows: seq<seq<Status>>, log: seq<Call>) {
    && Shaped(stages, rows)
    && forall i, j :: 0 <= i < |rows| && 0 <= j < |rows[i]| ==>
         StatusExact(stages[i].steps[j], rows[i][j], Succeeded(log, i, j), Called(log, i, j))
  }

  lemma TellsExactly(step: Step, status: Status, log: seq<Call>, i: nat, j: nat)
    requires DoneOnce(log) && Tells(step, status, LastOutcome(log, i, j))
    ensures StatusExact(step, status, Succeeded(log, i, j), Called(log, i, j))
  {
    hide DoneOnce, LastOutcome;
    LastIsDone(log, i, j);
  }

  lemma ToldExactly(stages: seq<Stage>, rows: seq<seq<Status>>, log: seq<Call>)
    requires Told(stages, rows, log)
    ensures StoredExactly(stages, rows, log)
  {
    hide Succeeded, Called, StatusExact, Tells, DoneOnce, LastOutcome, SettledKept;
    forall i, j | 0 <= i < |rows| && 0 <= j < |rows[i]|
      ensures StatusExact(stages[i].steps[j], rows[i][j], Succeeded(log, i, j), Called(log, i, j))
    {
      TellsExactly(stages[i].steps[j], rows[i][j], log, i, j);
    }
  }

  /** Over any number of runs, whatever the functions answer and the failure callback does, what is
      stored says exactly which functions succeeded: a step is stored as completed if and only if a
      call of it succeeded and it does not end the workflow; a step that was never called was not
      reached or is skipped; a status tells how the last call of its step ended; and no function is
      called again after it succeeded. */
  lemma CompletedIff<W(!new)>(m: Machine<W>, world: W, k: nat)
    requires Distinct(m.stages) && FailsLast(m)
    ensures var s := Runs(m, Fresh(world), k);
            var rows := Restore(m.stages, s.stored.steps);
            StoredExactly(m.stages, rows, s.log) && RowsTell(m.stages, rows, s.log) && DoneOnce(s.log)
  {
    hide StoredExactly, Runs, Restore, RowsTell, FailsLast;
    RunsTell(m, world, k);
    var s := Runs(m, Fresh(world), k);
    ToldExactly(m.stages, Restore(m.stages, s.stored.steps), s.log);
  }

  /** Of the steps before one that was called, those that succeeded are completed, and the others,
      which a jump passed over, are skipped. */
  ghost predicate PassedExactly(stages: seq<Stage>, rows: seq<seq<Status>>, log: seq<Call>) {
    forall y, i, j ::
      0 <= y < |log| && 0 <= i < |stages| && 0 <= j < |stages[i].steps| && Before(Pos(i, j), PosOf(log[y])) ==>
        i < |rows| && j < |rows[i]| &&
        rows[i][j] == if Succeeded(log, i, j) && !stages[i].steps[j].finishWorkflow then Completed else Skipped
  }

  lemma PassedOne(stages: seq<Stage>, rows: seq<seq<Status>>, log: seq<Call>, y: nat, i: nat, j: nat)
    requires Told(stages, rows, log) && StoredExactly(stages, rows, log) && AllWitnessed(stages, log)
    requires y < |log| && i < |stages| && j < |stages[i].steps| && Before(Pos(i, j), PosOf(log[y]))
    ensures i < |rows| && j < |rows[i]|
    ensures rows[i][j] == if Succeeded(log, i, j) && !stages[i].steps[j].finishWorkflow then Completed else Skipped
  {
    hide Succeeded, Called, RowsTell, DoneOnce;
    assert Witnessed(stages, log[y]);
    assert Settled(log[y].rows[i][j]);
    assert KeptSince(log[y].rows, rows);
    assert i < |rows| && j < |rows[i]| && KeptAt(log[y].rows, rows, i, j);
    assert StatusExact(stages[i].steps[j], rows[i][j], Succeeded(log, i, j), Called(log, i, j));
  }

  /** As long as no failure redirects it, a workflow skips exactly the steps its jumps pass over: of
      the steps before one that was called, each is completed or skipped, by whether it succeeded. */
  lemma SkippedIff<W(!new)>(m: Machine<W>, world: W, k: nat) returns (n: nat, j: nat)
    requires Distinct(m.stages) && FailsLast(m) && InTable(m.stages, StepAt(m.stages, 0, 0))
    requires AlwaysForward(m, Start(m, world))
    ensures j <= k && (j < k ==> Drive(m, Start(m, world), n).phase.Redirected?)
    ensures var s := Runs(m, Fresh(world), j);
            PassedExactly(m.stages, Restore(m.stages, s.stored.steps), s.log)
  {
    hide StoredExactly, Runs, Restore, RowsTell, FailsLast, AllWitnessed, Told, Succeeded;
    n, j := RunsRefineDriver(m, world, k);
    RunsTell(m, world, j);
    CompletedIff(m, world, j);
    var s := Runs(m, Fresh(world), j);
    var rows := Restore(m.stages, s.stored.steps);
    forall y, i, b | 0 <= y < |s.log| && 0 <= i < |m.stages| && 0 <= b < |m.stages[i].steps|
                     && Before(Pos(i, b), PosOf(s.log[y]))
      ensures i < |rows| && b < |rows[i]|
      ensures rows[i][b] == if Succeeded(s.log, i, b) && !m.stages[i].steps[b].finishWorkflow then Completed
              else Skipped
    {
      PassedOne(m.stages, rows, s.log, y, i, b);
    }
  }
}
