/** What one run of a workflow means, on values.

    `Run` takes everything a run can read or change, a `Memory`, to the memory it leaves behind.
    The class in WorkflowRun.dfy does the same work in place and is proved to agree with it. */
module Engine {
  import opened Wrappers
  import opened Names

  /** The status of a step; `NoStatus` is the empty string of a step that was never reached. */
  datatype Status = NoStatus | Pending | Processing | Completed | Failed | Suspended | Skipped

  /** The stored details of a failed transfer: none, bytes that do not decode, or bytes that do. */
  datatype CustomError = Absent | Garbled | Decodable

  datatype State = State(
    isSuspended: bool,
    isCompleted: bool,
    isFailed: bool,
    customError: CustomError,
    nextStage: Option<StageName>,
    nextStep: Option<StepName>)

  /** The state of a workflow that was never touched. */
  const CLEAN := State(false, false, false, Absent, None, None)

  datatype Step = Step(name: StepName, maxRetries: nat, finishWorkflow: bool)

  datatype Stage = Stage(name: StageName, steps: seq<Step>)

  datatype Error = SkipStep | SkipStage | BreakStages | ExitWorkflow | Plain | FailedTransfer

  /** How a call ends; `Died` is the death of the process inside it. */
  datatype Outcome = Done | Err(error: Error) | Died

  /** What a step function can see of the workflow: which function it is, the step the workflow
      takes for the current one, and the stored failure details. */
  datatype Context = Context(
    stage: StageName,
    step: StepName,
    currentStage: Option<StageName>,
    currentStep: Option<StepName>,
    customError: CustomError)

  /** What a step function does: to the outside world, to the workflow, and its outcome. */
  datatype Reply<W> = Reply(
    world: W,
    outcome: Outcome,
    nextStage: Option<StageName>,
    nextStep: Option<StepName>,
    fail: bool,
    skipError: bool)

  /** What the failure callback does: nothing, mark the transfer failed for good, or send the
      next run to another step. */
  datatype Action = Ignore | Absorb | Redirect(stage: StageName, step: StepName)

  datatype Reaction<W> = Reaction(world: W, action: Action)

  datatype Machine<!W> = Machine(
    stages: seq<Stage>,
    call: (W, Context) -> Reply<W>,
    onFailure: (W, Option<StageName>, Option<StepName>, Error) -> Reaction<W>)

  datatype StepRecord = StepRecord(stage: StageName, step: StepName, status: Status)

  datatype Snapshot = Snapshot(steps: seq<StepRecord>, state: State)

  /** One entry of the call log: which step function was called, what it saw, the statuses of all
      steps at that moment, and what came of it. */
  datatype Call = Call(
    stage: nat,
    step: nat,
    context: Context,
    rows: seq<seq<Status>>,
    outcome: Outcome,
    nextStage: Option<StageName>,
    nextStep: Option<StepName>)

  /** Everything a run reads and writes; `stored` is the snapshot column of the transfer. */
  datatype Memory<W> = Memory(
    state: State,
    rows: seq<seq<Status>>,
    world: W,
    stored: Snapshot,
    skipError: bool,
    log: seq<Call>)

  predicate Valid(s: Status) {
    !s.NoStatus?
  }

  predicate Stopped(s: State) {
    s.isCompleted || s.isSuspended || s.isFailed
  }

  /** One status for every step of the table. */
  predicate Shaped(stages: seq<Stage>, rows: seq<seq<Status>>) {
    |rows| == |stages| && forall i :: 0 <= i < |stages| ==> |rows[i]| == |stages[i].steps|
  }

  predicate UniqueSteps(steps: seq<Step>) {
    forall a, b :: 0 <= a < b < |steps| ==> steps[a].name != steps[b].name
  }

  /** No two steps of one stage share a name: what a workflow checks before it runs. */
  predicate UniqueStepNames(stages: seq<Stage>) {
    forall i :: 0 <= i < |stages| ==> UniqueSteps(stages[i].steps)
  }

  predicate UniqueStageNames(stages: seq<Stage>) {
    forall a, b :: 0 <= a < b < |stages| ==> stages[a].name != stages[b].name
  }

  // ---------------------------------------------------------------- snapshots

  /** The records of the steps of one stage that have a status, in order. */
  function CollectRow(stage: Stage, row: seq<Status>): seq<StepRecord>
    requires |row| == |stage.steps|
    decreases |row|
  {
    if row == [] then []
    else
      var n := |row| - 1;
      CollectRow(Stage(stage.name, stage.steps[..n]), row[..n]) +
      if Valid(row[n]) then [StepRecord(stage.name, stage.steps[n].name, row[n])] else []
  }

  function Collect(stages: seq<Stage>, rows: seq<seq<Status>>): seq<StepRecord>
    requires Shaped(stages, rows)
  {
    if stages == [] then []
    else
      var n := |stages| - 1;
      Collect(stages[..n], rows[..n]) + CollectRow(stages[n], rows[n])
  }

  /** The status a list of records leaves on a step: that of the last record that names it. */
  function StatusIn(records: seq<StepRecord>, stage: StageName, step: StepName): Status {
    if records == [] then NoStatus
    else
      var r := records[|records| - 1];
      if r.stage == stage && r.step == step then r.status
      else StatusIn(records[..|records| - 1], stage, step)
  }

  function Restore(stages: seq<Stage>, records: seq<StepRecord>): (rows: seq<seq<Status>>)
    ensures Shaped(stages, rows)
    ensures forall i, j :: 0 <= i < |rows| && 0 <= j < |rows[i]| ==>
              rows[i][j] == StatusIn(records, stages[i].name, stages[i].steps[j].name)
  {
    seq(|stages|, i requires 0 <= i < |stages| =>
      seq(|stages[i].steps|, j requires 0 <= j < |stages[i].steps| =>
        StatusIn(records, stages[i].name, stages[i].steps[j].name)))
  }

  /** A fresh workflow with a snapshot restored into it. */
  function Load<W>(m: Machine<W>, stored: Snapshot, world: W, log: seq<Call>): Memory<W> {
    Memory(stored.state, Restore(m.stages, stored.steps), world, stored, false, log)
  }

  function SnapshotOf<W>(m: Machine<W>, mem: Memory<W>): Snapshot
    requires Shaped(m.stages, mem.rows)
  {
    Snapshot(Collect(m.stages, mem.rows), mem.state)
  }

  function Save<W>(m: Machine<W>, mem: Memory<W>): Memory<W>
    requires Shaped(m.stages, mem.rows)
  {
    mem.(stored := SnapshotOf(m, mem))
  }

  // ------------------------------------------------------------- current step

  /** The last index with a status, or -1. */
  function LastValid(row: seq<Status>): (k: int)
    ensures -1 <= k < |row|
    ensures k >= 0 ==> Valid(row[k])
    ensures forall b :: k < b < |row| ==> !Valid(row[b])
  {
    if row == [] then -1
    else if Valid(row[|row| - 1]) then |row| - 1
    else LastValid(row[..|row| - 1])
  }

  /** The last stage that holds a step with a status, or -1. */
  function LastTouched(rows: seq<seq<Status>>): (k: int)
    ensures -1 <= k < |rows|
    ensures k >= 0 ==> LastValid(rows[k]) >= 0
    ensures forall a :: k < a < |rows| ==> LastValid(rows[a]) < 0
  {
    if rows == [] then -1
    else if LastValid(rows[|rows| - 1]) >= 0 then |rows| - 1
    else LastTouched(rows[..|rows| - 1])
  }

  /** The index of the stage the workflow takes for the current one, or -1 if it has none. */
  function CurrentStage(stages: seq<Stage>, rows: seq<seq<Status>>): (k: int)
    requires Shaped(stages, rows)
    ensures -1 <= k < |stages|
  {
    if LastTouched(rows) >= 0 then LastTouched(rows) else if |stages| > 0 then 0 else -1
  }

  function CurrentStageName(stages: seq<Stage>, rows: seq<seq<Status>>): Option<StageName>
    requires Shaped(stages, rows)
  {
    var k := CurrentStage(stages, rows);
    if k >= 0 then Some(stages[k].name) else None
  }

  function CurrentStepName(stages: seq<Stage>, rows: seq<seq<Status>>): Option<StepName>
    requires Shaped(stages, rows)
  {
    var k := CurrentStage(stages, rows);
    if k < 0 then None
    else if LastValid(rows[k]) >= 0 then Some(stages[k].steps[LastValid(rows[k])].name)
    else if |rows[k]| > 0 then Some(stages[k].steps[0].name)
    else None
  }

  // -------------------------------------------------------------------- steps

  /** The result of calling a step function until it succeeds or its attempts run out. */
  datatype Tried<W> = Tried(reply: Reply<W>, calls: seq<Reply<W>>)

  /** The effects of two calls in a row on the workflow. */
  function Merge<W>(first: Reply<W>, second: Reply<W>): Reply<W> {
    second.(nextStage := if second.nextStage.Some? then second.nextStage else first.nextStage,
            nextStep := if second.nextStep.Some? then second.nextStep else first.nextStep,
            fail := first.fail || second.fail,
            skipError := first.skipError || second.skipError)
  }

  /** The linear retry policy with `n` attempts left; `before` is the merged effect so far. */
  function Attempts<W>(call: (W, Context) -> Reply<W>, before: Reply<W>, c: Context, n: nat): Tried<W>
    requires n > 0
    decreases n
  {
    var r := call(before.world, c);
    var merged := Merge(before, r);
    if r.outcome.Err? && n > 1 then
      var rest := Attempts(call, merged, c, n - 1);
      Tried(rest.reply, [r] + rest.calls)
    else
      Tried(merged, [r])
  }

  function Untouched<W>(world: W): Reply<W> {
    Reply(world, Done, None, None, false, false)
  }

  function MaxRetries(step: Step): (n: nat)
    ensures n > 0
  {
    if step.maxRetries == 0 then 1 else step.maxRetries
  }

  function Try<W>(m: Machine<W>, world: W, c: Context, step: Step): Tried<W> {
    Attempts(m.call, Untouched(world), c, MaxRetries(step))
  }

  function CallOf<W>(i: nat, j: nat, c: Context, rows: seq<seq<Status>>, r: Reply<W>): Call {
    Call(i, j, c, rows, r.outcome, r.nextStage, r.nextStep)
  }

  function CallLog<W>(i: nat, j: nat, c: Context, rows: seq<seq<Status>>, calls: seq<Reply<W>>): (log: seq<Call>)
    ensures |log| == |calls|
    ensures forall k :: 0 <= k < |log| ==> log[k] == CallOf(i, j, c, rows, calls[k])
  {
    seq(|calls|, k requires 0 <= k < |calls| => CallOf(i, j, c, rows, calls[k]))
  }

  function ContextAt<W>(m: Machine<W>, mem: Memory<W>, i: nat, j: nat): Context
    requires Shaped(m.stages, mem.rows) && i < |m.stages| && j < |m.stages[i].steps|
  {
    Context(m.stages[i].name, m.stages[i].steps[j].name,
            CurrentStageName(m.stages, mem.rows), CurrentStepName(m.stages, mem.rows),
            mem.state.customError)
  }

  function Effect(s: State, nextStage: Option<StageName>, nextStep: Option<StepName>, fail: bool): State {
    s.(nextStage := if nextStage.Some? then nextStage else s.nextStage,
       nextStep := if nextStep.Some? then nextStep else s.nextStep,
       isFailed := s.isFailed || fail)
  }

  /** The memory after the calls made for one step. */
  function AfterCalls<W>(mem: Memory<W>, i: nat, j: nat, c: Context, t: Tried<W>): Memory<W> {
    mem.(state := Effect(mem.state, t.reply.nextStage, t.reply.nextStep, t.reply.fail),
         world := t.reply.world,
         skipError := mem.skipError || t.reply.skipError,
         log := mem.log + CallLog(i, j, c, mem.rows, t.calls))
  }

  function SetStatus<W>(mem: Memory<W>, i: nat, j: nat, s: Status): Memory<W>
    requires i < |mem.rows| && j < |mem.rows[i]|
  {
    mem.(rows := mem.rows[i := mem.rows[i][j := s]])
  }

  /** The status a step is left with when its handling ends. */
  function FinalStatus(o: Outcome): Status {
    match o
    case Done => Completed
    case Err(e) => if e == SkipStep || e == BreakStages then Skipped else Failed
    case Died => Processing
  }

  /** Runs the function of a step that has to run. */
  function ExecuteStep<W>(m: Machine<W>, mem: Memory<W>, i: nat, j: nat): (r: (Memory<W>, Outcome))
    requires Shaped(m.stages, mem.rows) && i < |m.stages| && j < |m.stages[i].steps|
    ensures Shaped(m.stages, r.0.rows)
  {
    var started := Save(m, SetStatus(mem, i, j, Processing));
    var step := m.stages[i].steps[j];
    var c := ContextAt(m, started, i, j);
    var t := Try(m, started.world, c, step);
    var called := AfterCalls(started, i, j, c, t);
    if t.reply.outcome.Died? then
      (called, Died)
    else
      var o := if t.reply.outcome.Done? && step.finishWorkflow then Err(BreakStages) else t.reply.outcome;
      (SetStatus(Save(m, called), i, j, FinalStatus(o)), o)
  }

  function HandleStep<W>(m: Machine<W>, mem: Memory<W>, i: nat, j: nat): (r: (Memory<W>, Outcome))
    requires Shaped(m.stages, mem.rows) && i < |m.stages| && j < |m.stages[i].steps|
    ensures Shaped(m.stages, r.0.rows)
  {
    var name := m.stages[i].steps[j].name;
    var next := mem.state.nextStep;
    var here := if next == Some(name) then mem.(state := mem.state.(nextStep := None)) else mem;
    var status := mem.rows[i][j];
    if Stopped(mem.state) then (here, Err(ExitWorkflow))
    else if status == Completed || status == Skipped then (here, Err(SkipStep))
    else if status == Suspended then (here, Err(BreakStages))
    else if next.Some? && next.value != name then (SetStatus(here, i, j, Skipped), Err(SkipStep))
    else ExecuteStep(m, here, i, j)
  }

  // ------------------------------------------------------------------- stages

  /** Handles the steps of stage `i` from step `j` on. */
  function StepsFrom<W>(m: Machine<W>, mem: Memory<W>, i: nat, j: nat): (r: (Memory<W>, Outcome))
    requires Shaped(m.stages, mem.rows) && i < |m.stages| && j <= |m.stages[i].steps|
    ensures Shaped(m.stages, r.0.rows)
    decreases |m.stages[i].steps| - j
  {
    if j == |m.stages[i].steps| then (mem, Done)
    else
      var (after, o) := HandleStep(m, mem, i, j);
      if o == Done || o == Err(SkipStep) then StepsFrom(m, after, i, j + 1) else (after, o)
  }

  lemma StepsFromOne<W>(m: Machine<W>, mem: Memory<W>, i: nat, j: nat)
    requires Shaped(m.stages, mem.rows) && i < |m.stages| && j < |m.stages[i].steps|
    ensures var (after, o) := HandleStep(m, mem, i, j);
            StepsFrom(m, mem, i, j) ==
            if o == Done || o == Err(SkipStep) then StepsFrom(m, after, i, j + 1) else (after, o)
  {
  }

  /** The memory with which stage `i` is entered. */
  function Enter<W>(m: Machine<W>, mem: Memory<W>, i: nat): Memory<W>
    requires i < |m.stages|
  {
    if mem.state.nextStage == Some(m.stages[i].name)
    then mem.(state := mem.state.(nextStage := None)) else mem
  }

  function HandleStage<W>(m: Machine<W>, mem: Memory<W>, i: nat): (r: (Memory<W>, Outcome))
    requires Shaped(m.stages, mem.rows) && i < |m.stages|
    ensures Shaped(m.stages, r.0.rows)
  {
    var next := mem.state.nextStage;
    var here := Enter(m, mem, i);
    if Stopped(mem.state) then (here, Err(ExitWorkflow))
    else if next.Some? && next.value != m.stages[i].name then (here, Err(SkipStage))
    else if m.stages[i].steps == [] then (here, Err(SkipStage))
    else StepsFrom(m, here, i, 0)
  }

  /** Handles the stages from stage `i` on. */
  function StagesFrom<W>(m: Machine<W>, mem: Memory<W>, i: nat): (r: (Memory<W>, Outcome))
    requires Shaped(m.stages, mem.rows) && i <= |m.stages|
    ensures Shaped(m.stages, r.0.rows)
    decreases |m.stages| - i
  {
    if i == |m.stages| then (mem, Done)
    else
      var (after, o) := HandleStage(m, mem, i);
      if o == Done || o == Err(SkipStage) then StagesFrom(m, after, i + 1)
      else if o == Err(BreakStages) then (after, Done)
      else (after, o)
  }

  // --------------------------------------------------------------------- runs

  /** One pass over the stages, with the snapshot saved at its end. */
  function Execute<W>(m: Machine<W>, mem: Memory<W>): (r: (Memory<W>, Outcome))
    requires Shaped(m.stages, mem.rows)
    ensures Shaped(m.stages, r.0.rows)
  {
    if !UniqueStepNames(m.stages) then (mem, Err(Plain))
    else if Stopped(mem.state) then (mem, Done)
    else
      var (after, o) := StagesFrom(m, mem, 0);
      match o
      case Died => (after, Died)
      case Done => (Save(m, after.(state := after.state.(isCompleted := true))), Done)
      case Err(e) => if e == ExitWorkflow then (after, Done) else (Save(m, after), o)
  }

  /** The failure callback: its own effect, and the snapshot it stores. */
  function Fail<W>(m: Machine<W>, mem: Memory<W>, e: Error): (r: Memory<W>)
    requires Shaped(m.stages, mem.rows)
    ensures r.rows == mem.rows
  {
    var stage, step := CurrentStageName(m.stages, mem.rows), CurrentStepName(m.stages, mem.rows);
    var reaction := m.onFailure(mem.world, stage, step, e);
    var after := mem.(world := reaction.world);
    match reaction.action
    case Ignore => after
    case Absorb => Save(m, after.(state := after.state.(isFailed := true), skipError := true))
    case Redirect(stage, step) =>
      Save(m, after.(state := after.state.(
        customError := if e == FailedTransfer then Decodable else after.state.customError,
        nextStage := Some(stage),
        nextStep := Some(step))))
  }

  function Run<W>(m: Machine<W>, mem: Memory<W>): (r: (Memory<W>, Outcome))
    requires Shaped(m.stages, mem.rows)
    ensures Shaped(m.stages, r.0.rows)
  {
    var (after, o) := Execute(m, mem);
    if o.Err? then
      var failed := Fail(m, after, o.error);
      (failed, if failed.skipError then Done else o)
    else (after, o)
  }

  // ----------------------------------------------------------------- sessions

  /** What is left of a transfer between two runs. */
  datatype Session<W> = Session(stored: Snapshot, world: W, log: seq<Call>)

  function RunOnce<W>(m: Machine<W>, s: Session<W>): Session<W> {
    var after := Run(m, Load(m, s.stored, s.world, s.log)).0;
    Session(after.stored, after.world, after.log)
  }

  /** `k` runs, each from the snapshot the one before left. */
  function Runs<W>(m: Machine<W>, s: Session<W>, k: nat): Session<W> {
    if k == 0 then s else RunOnce(m, Runs(m, s, k - 1))
  }

  /** A transfer whose workflow has not run yet. */
  function Fresh<W>(world: W): Session<W> {
    Session(Snapshot([], CLEAN), world, [])
  }
}
