/** The workflow object: its fields, updated in place by loops over stages and steps.

    Every method that changes the object states its whole new state through the functions of
    Engine.dfy; the fields a method does not name are part of `Memory()` and so fixed too. */
module WorkflowRun {
  import opened Wrappers
  import opened Names
  import opened Engine

  /** Statuses are determined entry by entry. */
  lemma SameRows(stages: seq<Stage>, a: seq<seq<Status>>, b: seq<seq<Status>>)
    requires Shaped(stages, a) && Shaped(stages, b)
    requires forall i, j :: 0 <= i < |stages| && 0 <= j < |stages[i].steps| ==> a[i][j] == b[i][j]
    ensures a == b
  {
    forall i | 0 <= i < |stages| ensures a[i] == b[i] {
      assert |a[i]| == |b[i]| == |stages[i].steps|;
    }
  }

  /** The result of a retry loop that made the calls `t` so far and has `n` attempts left. */
  ghost function Remaining<W>(call: (W, Context) -> Reply<W>, t: Tried<W>, c: Context, n: nat): Tried<W> {
    if n == 0 then t
    else
      var rest := Attempts(call, t.reply, c, n);
      Tried(rest.reply, t.calls + rest.calls)
  }

  lemma RemainingStep<W>(call: (W, Context) -> Reply<W>, t: Tried<W>, c: Context, n: nat)
    requires n > 0
    ensures var r := call(t.reply.world, c);
            var u := Tried(Merge(t.reply, r), t.calls + [r]);
            Remaining(call, t, c, n) == if r.outcome.Err? then Remaining(call, u, c, n - 1) else u
  {
    var r := call(t.reply.world, c);
    if r.outcome.Err? && n > 1 {
      var rest := Attempts(call, Merge(t.reply, r), c, n - 1);
      assert t.calls + ([r] + rest.calls) == (t.calls + [r]) + rest.calls;
    }
  }

  lemma AfterCallsAppend<W>(mem: Memory<W>, i: nat, j: nat, c: Context, t: Tried<W>, r: Reply<W>)
    ensures AfterCalls(mem, i, j, c, Tried(Merge(t.reply, r), t.calls + [r])) ==
            AfterCalls(AfterCalls(mem, i, j, c, t), i, j, c, Tried(r, [r]))
  {
    var one := CallLog(i, j, c, mem.rows, [r]);
    var some := CallLog(i, j, c, mem.rows, t.calls);
    assert CallLog(i, j, c, mem.rows, t.calls + [r]) == some + one;
    assert mem.log + (some + one) == (mem.log + some) + one;
  }

  class Workflow<W> {
    const machine: Machine<W>
    var state: State
    var rows: seq<seq<Status>>
    var world: W
    var stored: Snapshot
    var skipError: bool
    var log: seq<Call>

    ghost predicate Good()
      reads this
    {
      Shaped(machine.stages, rows)
    }

    ghost function Memory(): Memory<W>
      reads this
    {
      Engine.Memory(state, rows, world, stored, skipError, log)
    }

    /** A workflow object with a snapshot restored into it. */
    constructor (machine: Machine<W>, snapshot: Snapshot, world: W, log: seq<Call>)
      ensures Good()
      ensures this.machine == machine
      ensures Memory() == Load(machine, snapshot, world, log)
    {
      this.machine := machine;
      this.rows := seq(|machine.stages|, i requires 0 <= i < |machine.stages| =>
        seq(|machine.stages[i].steps|, _ => NoStatus));
      this.state := CLEAN;
      this.world := world;
      this.stored := snapshot;
      this.skipError := false;
      this.log := log;
      new;
      SameRows(machine.stages, rows, Restore(machine.stages, []));
      SetSnapshot(snapshot);
    }

    /** Restores the status of every step that the snapshot names. */
    method SetSnapshot(snapshot: Snapshot)
      requires Good()
      requires rows == Restore(machine.stages, [])
      modifies this`rows, this`state
      ensures Good()
      ensures rows == Restore(machine.stages, snapshot.steps) && state == snapshot.state
    {
      var stages, records := machine.stages, snapshot.steps;
      for k := 0 to |records|
        invariant rows == Restore(stages, records[..k])
      {
        var r := records[k];
        ghost var before := rows;
        assert records[..k + 1][..k] == records[..k];
        for i := 0 to |stages|
          invariant Good()
          invariant forall a, b :: 0 <= a < |stages| && 0 <= b < |stages[a].steps| ==>
                      rows[a][b] == if a < i then StatusIn(records[..k + 1], stages[a].name, stages[a].steps[b].name)
                                    else before[a][b]
        {
          for j := 0 to |stages[i].steps|
            invariant Good()
            invariant forall a, b :: 0 <= a < |stages| && 0 <= b < |stages[a].steps| ==>
                        rows[a][b] == if a < i || (a == i && b < j)
                                      then StatusIn(records[..k + 1], stages[a].name, stages[a].steps[b].name)
                                      else before[a][b]
          {
            if stages[i].name == r.stage && stages[i].steps[j].name == r.step {
              rows := rows[i := rows[i][j := r.status]];
            }
          }
        }
        SameRows(stages, rows, Restore(stages, records[..k + 1]));
      }
      assert records[..|records|] == records;
      state := snapshot.state;
    }

    /** The records of the steps that have a status. */
    method StepStates() returns (states: seq<StepRecord>)
      requires Good()
      ensures states == Collect(machine.stages, rows)
    {
      var stages := machine.stages;
      states := [];
      for i := 0 to |stages|
        invariant states == Collect(stages[..i], rows[..i])
      {
        assert stages[..i + 1][..i] == stages[..i] && rows[..i + 1][..i] == rows[..i];
        ghost var before := states;
        var steps, row := stages[i].steps, rows[i];
        assert steps[..0] == [] && row[..0] == [];
        for j := 0 to |steps|
          invariant states == before + CollectRow(Stage(stages[i].name, steps[..j]), row[..j])
        {
          assert steps[..j + 1][..j] == steps[..j] && row[..j + 1][..j] == row[..j];
          if Valid(row[j]) {
            states := states + [StepRecord(stages[i].name, steps[j].name, row[j])];
          }
        }
        assert steps[..|steps|] == steps && row[..|row|] == row;
        assert stages[i] == Stage(stages[i].name, steps);
      }
      assert stages[..|stages|] == stages && rows[..|rows|] == rows;
    }

    method GetSnapshot() returns (snapshot: Snapshot)
      requires Good()
      ensures snapshot == SnapshotOf(machine, Memory())
    {
      var states := StepStates();
      snapshot := Snapshot(states, state);
    }

    /** The index of the current stage: the last one that holds a step with a status. */
    method FindCurrentStage() returns (k: int)
      requires Good()
      ensures k == CurrentStage(machine.stages, rows)
    {
      k := if |machine.stages| > 0 then 0 else -1;
      assert rows[..|rows|] == rows;
      for i := |machine.stages| downto 0
        invariant LastTouched(rows) == LastTouched(rows[..i])
      {
        assert rows[..i + 1][..i] == rows[..i];
        var last := FindLastValid(rows[i]);
        if last >= 0 {
          return i;
        }
      }
    }

    /** The name of the current step: the last one with a status in the current stage. */
    method FindCurrentStep() returns (name: Option<StepName>)
      requires Good()
      ensures name == CurrentStepName(machine.stages, rows)
    {
      var k := FindCurrentStage();
      if k < 0 {
        return None;
      }
      var last := FindLastValid(rows[k]);
      var steps := machine.stages[k].steps;
      name := if last >= 0 then Some(steps[last].name) else if |steps| > 0 then Some(steps[0].name) else None;
    }

    method FindCurrentStageName() returns (name: Option<StageName>)
      requires Good()
      ensures name == CurrentStageName(machine.stages, rows)
    {
      var k := FindCurrentStage();
      name := if k >= 0 then Some(machine.stages[k].name) else None;
    }

    /** Saves the snapshot, as the callbacks around every step do. */
    method SaveSnapshot()
      requires Good()
      modifies this`stored
      ensures Memory() == Save(machine, old(Memory()))
    {
      stored := GetSnapshot();
    }

    /** One call of a step function, with its effects on the workflow. */
    method CallFunc(i: nat, j: nat, c: Context) returns (r: Reply<W>)
      modifies this`state, this`world, this`skipError, this`log
      ensures r == machine.call(old(world), c)
      ensures Memory() == AfterCalls(old(Memory()), i, j, c, Tried(r, [r]))
    {
      r := machine.call(world, c);
      world := r.world;
      state := Effect(state, r.nextStage, r.nextStep, r.fail);
      skipError := skipError || r.skipError;
      log := log + [CallOf(i, j, c, rows, r)];
      assert CallLog(i, j, c, rows, [r]) == [CallOf(i, j, c, rows, r)];
    }

    /** Calls a step function until it succeeds or its attempts run out. */
    method RunWithLinear(i: nat, j: nat, c: Context) returns (outcome: Outcome)
      requires i < |machine.stages| && j < |machine.stages[i].steps|
      modifies this`state, this`world, this`skipError, this`log
      ensures var t := Try(machine, old(world), c, machine.stages[i].steps[j]);
              outcome == t.reply.outcome && Memory() == AfterCalls(old(Memory()), i, j, c, t)
    {
      var max := MaxRetries(machine.stages[i].steps[j]);
      var retries := 0;
      ghost var t := Tried(Untouched(world), []);
      outcome := Done;
      assert CallLog(i, j, c, rows, t.calls) == [];
      while retries < max
        invariant 0 <= retries <= max
        invariant outcome == t.reply.outcome
        invariant Try(machine, old(world), c, machine.stages[i].steps[j])
                  == Remaining(machine.call, t, c, max - retries)
        invariant Memory() == AfterCalls(old(Memory()), i, j, c, t)
      {
        RemainingStep(machine.call, t, c, max - retries);
        var r := CallFunc(i, j, c);
        AfterCallsAppend(old(Memory()), i, j, c, t, r);
        outcome := r.outcome;
        t := Tried(Merge(t.reply, r), t.calls + [r]);
        if !r.outcome.Err? {
          return;
        }
        retries := retries + 1;
      }
    }

    /** Runs the function of a step between two saves of the snapshot, and sets its status. */
    method CallStep(i: nat, j: nat) returns (o: Outcome)
      requires Good() && i < |machine.stages| && j < |machine.stages[i].steps|
      modifies this
      ensures Good()
      ensures (Memory(), o) == ExecuteStep(machine, old(Memory()), i, j)
    {
      var step := machine.stages[i].steps[j];
      rows := rows[i := rows[i][j := Processing]];
      SaveSnapshot();
      var currentStage := FindCurrentStageName();
      var currentStep := FindCurrentStep();
      var c := Context(machine.stages[i].name, step.name, currentStage, currentStep, state.customError);
      o := RunWithLinear(i, j, c);
      if o.Died? {
        return;
      }
      SaveSnapshot();
      if o.Done? && step.finishWorkflow {
        o := Err(BreakStages);
      }
      rows := rows[i := rows[i][j := FinalStatus(o)]];
    }

    method RunStep(i: nat, j: nat) returns (o: Outcome)
      requires Good() && i < |machine.stages| && j < |machine.stages[i].steps|
      modifies this
      ensures Good()
      ensures (Memory(), o) == HandleStep(machine, old(Memory()), i, j)
    {
      var name := machine.stages[i].steps[j].name;
      var next := state.nextStep;
      if next == Some(name) {
        state := state.(nextStep := None);
      }
      var status := rows[i][j];
      if Stopped(state) {
        return Err(ExitWorkflow);
      }
      if status == Completed || status == Skipped {
        return Err(SkipStep);
      }
      if status == Suspended {
        return Err(BreakStages);
      }
      if next.Some? && next.value != name {
        rows := rows[i := rows[i][j := Skipped]];
        return Err(SkipStep);
      }
      o := CallStep(i, j);
    }

    method RunSteps(i: nat) returns (o: Outcome)
      requires Good() && i < |machine.stages|
      modifies this
      ensures Good()
      ensures (Memory(), o) == StepsFrom(machine, old(Memory()), i, 0)
    {
      ghost var whole := StepsFrom(machine, Memory(), i, 0);
      var steps := machine.stages[i].steps;
      for j := 0 to |steps|
        invariant Good()
        invariant whole == StepsFrom(machine, Memory(), i, j)
      {
        ghost var before := Memory();
        StepsFromOne(machine, before, i, j);
        var r := RunStep(i, j);
        assert (Memory(), r) == HandleStep(machine, before, i, j);
        if r != Done && r != Err(SkipStep) {
          return r;
        }
      }
      o := Done;
    }

    method RunStage(i: nat) returns (o: Outcome)
      requires Good() && i < |machine.stages|
      modifies this
      ensures Good()
      ensures (Memory(), o) == HandleStage(machine, old(Memory()), i)
    {
      var next := state.nextStage;
      var steps := machine.stages[i].steps;
      if next == Some(machine.stages[i].name) {
        state := state.(nextStage := None);
      }
      if Stopped(state) {
        return Err(ExitWorkflow);
      }
      if next.Some? && next.value != machine.stages[i].name {
        return Err(SkipStage);
      }
      if steps == [] {
        return Err(SkipStage);
      }
      o := RunSteps(i);
    }

    method RunStages() returns (o: Outcome)
      requires Good()
      modifies this
      ensures Good()
      ensures (Memory(), o) == Engine.Execute(machine, old(Memory()))
    {
      if !UniqueStepNames(machine.stages) {
        return Err(Plain);
      }
      if Stopped(state) {
        return Done;
      }
      var failure := None;
      var i := 0;
      while i < |machine.stages| && failure.None?
        invariant i <= |machine.stages| && Good()
        decreases |machine.stages| - i, failure.None?
        invariant failure.None? ==> StagesFrom(machine, old(Memory()), 0) == StagesFrom(machine, Memory(), i)
        invariant failure.Some? ==>
                    failure.value != ExitWorkflow
                    && StagesFrom(machine, old(Memory()), 0) == (Memory(), Err(failure.value))
      {
        var r := RunStage(i);
        if r.Died? || r == Err(ExitWorkflow) {
          return if r.Died? then Died else Done;
        }
        if r == Err(BreakStages) {
          i := |machine.stages|;
        } else if r == Done || r == Err(SkipStage) {
          i := i + 1;
        } else {
          failure := Some(r.error);
        }
      }
      if failure.None? {
        state := state.(isCompleted := true);
      }
      SaveSnapshot();
      o := if failure.Some? then Err(failure.value) else Done;
    }

    /** Asks the failure callback what to do about an error, and does it. */
    method OnFailure(e: Error)
      requires Good()
      modifies this
      ensures Good()
      ensures Memory() == Fail(machine, old(Memory()), e)
    {
      var currentStage := FindCurrentStageName();
      var currentStep := FindCurrentStep();
      var reaction := machine.onFailure(world, currentStage, currentStep, e);
      world := reaction.world;
      match reaction.action
      case Ignore =>
      case Absorb =>
        state := state.(isFailed := true);
        skipError := true;
        SaveSnapshot();
      case Redirect(stage, step) =>
        if e == FailedTransfer {
          state := state.(customError := Decodable);
        }
        state := state.(nextStage := Some(stage), nextStep := Some(step));
        SaveSnapshot();
    }

    method Run() returns (o: Outcome)
      requires Good()
      modifies this
      ensures Good()
      ensures (Memory(), o) == Engine.Run(machine, old(Memory()))
    {
      o := RunStages();
      if o.Err? {
        OnFailure(o.error);
        if skipError {
          o := Done;
        }
      }
    }
  }

  /** The last index of a row of statuses that holds a status. */
  method FindLastValid(row: seq<Status>) returns (k: int)
    ensures k == LastValid(row)
  {
    assert row[..|row|] == row;
    for j := |row| downto 0
      invariant LastValid(row) == LastValid(row[..j])
    {
      assert row[..j + 1][..j] == row[..j];
      if Valid(row[j]) {
        return j;
      }
    }
    k := -1;
  }

  /** One job of the queue: a workflow object built from the stored snapshot, and one run of it. */
  method Work<W>(machine: Machine<W>, s: Session<W>) returns (t: Session<W>)
    ensures t == RunOnce(machine, s)
  {
    var w := new Workflow(machine, s.stored, s.world, s.log);
    var _ := w.Run();
    t := Session(w.stored, w.world, w.log);
  }

  /** A job that comes back `k` times. */
  method WorkTimes<W>(machine: Machine<W>, s: Session<W>, k: nat) returns (t: Session<W>)
    ensures t == Runs(machine, s, k)
  {
    t := s;
    for n := 0 to k
      invariant t == Runs(machine, s, n)
    {
      t := Work(machine, t);
    }
  }
}
