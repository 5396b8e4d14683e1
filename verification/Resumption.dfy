/** Resuming from snapshots refines one uninterrupted run.

    The driver below is a program counter that moves only when a step succeeds. A chain of runs,
    each restored from the snapshot the one before stored, makes exactly the calls of the driver,
    as long as every call jumps forward: within its stage, or into the next one. */
module Resumption {
  import opened Wrappers
  import opened Names
  import opened Engine

  datatype Pos = Pos(stage: nat, step: nat)

  datatype Phase = Live | Finished | Aborted | Redirected(stage: StageName, step: StepName, customError: CustomError)

  datatype Driver<W> = Driver(pos: Pos, world: W, log: seq<Call>, phase: Phase)

  predicate InTable(stages: seq<Stage>, p: Pos) {
    p.stage < |stages| && p.step < |stages[p.stage].steps|
  }

  predicate Before(p: Pos, q: Pos) {
    p.stage < q.stage || (p.stage == q.stage && p.step < q.step)
  }

  /** The first step at or after step `j` of stage `i`; past the table if there is none. */
  function StepAt(stages: seq<Stage>, i: nat, j: nat): (p: Pos)
    ensures InTable(stages, p) || p == Pos(|stages|, 0)
    ensures i < |stages| && j < |stages[i].steps| ==> p == Pos(i, j)
    ensures i < |stages| ==> p == Pos(i, j) || i < p.stage
    ensures i < p.stage && i < |stages| ==> |stages[i].steps| <= j
    ensures forall a :: i < a < p.stage && a < |stages| ==> stages[a].steps == []
    ensures i < p.stage ==> p.step == 0
    decreases |stages| - i
  {
    if i >= |stages| then Pos(|stages|, 0)
    else if j < |stages[i].steps| then Pos(i, j)
    else StepAt(stages, i + 1, 0)
  }

  /** The first index of a step name; the length if it is not there. */
  function IndexOf(steps: seq<Step>, name: StepName): (k: nat)
    ensures k <= |steps|
    ensures k < |steps| ==> steps[k].name == name
    ensures forall a :: 0 <= a < k ==> steps[a].name != name
  {
    if steps == [] then 0
    else if steps[0].name == name then 0
    else 1 + IndexOf(steps[1..], name)
  }

  /** Where a step sends the workflow when it succeeds. */
  function Target(stages: seq<Stage>, p: Pos, nextStage: Option<StageName>, nextStep: Option<StepName>): Pos
    requires InTable(stages, p)
  {
    if nextStep.None? then StepAt(stages, p.stage, p.step + 1)
    else if nextStage.None? then StepAt(stages, p.stage, IndexOf(stages[p.stage].steps, nextStep.value))
    else if p.stage + 1 < |stages| then StepAt(stages, p.stage + 1, IndexOf(stages[p.stage + 1].steps, nextStep.value))
    else Pos(|stages|, 0)
  }

  /** A jump to a later step of the same stage, or to a step of the next stage; or no jump. */
  predicate ForwardJump(stages: seq<Stage>, p: Pos, nextStage: Option<StageName>, nextStep: Option<StepName>)
    requires InTable(stages, p)
  {
    match nextStep
    case None => nextStage.None?
    case Some(s) =>
      var steps := stages[p.stage].steps;
      if nextStage.None? then p.step < IndexOf(steps, s) < |steps|
      else
        && p.stage + 1 < |stages|
        && stages[p.stage + 1].name == nextStage.value
        && IndexOf(stages[p.stage + 1].steps, s) < |stages[p.stage + 1].steps|
        && forall b :: p.step < b < |steps| ==> steps[b].name != s
  }

  predicate Quiet<W>(r: Reply<W>) {
    r.nextStage.None? && r.nextStep.None? && !r.fail && !r.skipError
  }

  /** Only a success sets a jump, the jump goes forward, and an error is an ordinary one. */
  predicate Forward<W>(stages: seq<Stage>, p: Pos, t: Tried<W>)
    requires InTable(stages, p)
  {
    && (forall k :: 0 <= k < |t.calls| && !t.calls[k].outcome.Done? ==> Quiet(t.calls[k]))
    && !t.reply.fail && !t.reply.skipError
    && match t.reply.outcome
       case Done => ForwardJump(stages, p, t.reply.nextStage, t.reply.nextStep)
       case Err(e) => e in {Plain, FailedTransfer, ExitWorkflow}
       case Died => true
  }

  // ------------------------------------------------------------- the driver

  function ContextOf(stages: seq<Stage>, p: Pos): Context
    requires InTable(stages, p)
  {
    var stage, step := stages[p.stage].name, stages[p.stage].steps[p.step].name;
    Context(stage, step, Some(stage), Some(step), Absent)
  }

  function StepTried<W>(m: Machine<W>, a: Driver<W>): Tried<W>
    requires InTable(m.stages, a.pos)
  {
    Try(m, a.world, ContextOf(m.stages, a.pos), m.stages[a.pos.stage].steps[a.pos.step])
  }

  /** The driver after the calls made for its step, before it moves. */
  function Called<W>(m: Machine<W>, a: Driver<W>): Driver<W>
    requires InTable(m.stages, a.pos)
  {
    var t := StepTried(m, a);
    a.(world := t.reply.world,
       log := a.log + CallLog(a.pos.stage, a.pos.step, ContextOf(m.stages, a.pos), [], t.calls))
  }

  /** The details a redirect stores: only a failed transfer has any. */
  function KeptError(e: Error): CustomError {
    if e == FailedTransfer then Decodable else Absent
  }

  /** One step of the driver: it moves on success, stays on an error the failure callback
      ignores, and ends or leaves the table when the callback says so. */
  function DriveStep<W>(m: Machine<W>, a: Driver<W>): Driver<W> {
    if a.phase != Live || !InTable(m.stages, a.pos) then a
    else
      var t := StepTried(m, a);
      var b := Called(m, a);
      match t.reply.outcome
      case Died => b
      case Done =>
        var target := Target(m.stages, a.pos, t.reply.nextStage, t.reply.nextStep);
        if m.stages[a.pos.stage].steps[a.pos.step].finishWorkflow || !InTable(m.stages, target)
        then b.(phase := Finished)
        else b.(pos := target)
      case Err(e) =>
        if e == ExitWorkflow then b
        else
          var c := ContextOf(m.stages, a.pos);
          var reaction := m.onFailure(b.world, c.currentStage, c.currentStep, e);
          b.(world := reaction.world, phase := match reaction.action
                                               case Ignore => Live
                                               case Absorb => Aborted
                                               case Redirect(g, s) => Redirected(g, s, KeptError(e)))
  }

  /** The driver after `n` steps. */
  function Drive<W>(m: Machine<W>, a: Driver<W>, n: nat): Driver<W> {
    if n == 0 then a else DriveStep(m, Drive(m, a, n - 1))
  }

  function Start<W>(m: Machine<W>, world: W): Driver<W> {
    Driver(StepAt(m.stages, 0, 0), world, [], Live)
  }

  /** Every step the driver ever takes from here jumps forward. */
  ghost predicate AlwaysForward<W>(m: Machine<W>, a: Driver<W>) {
    forall n: nat {:trigger ForwardAt(m, Drive(m, a, n))} :: ForwardAt(m, Drive(m, a, n))
  }

  predicate ForwardAt<W>(m: Machine<W>, a: Driver<W>) {
    a.phase == Live ==> InTable(m.stages, a.pos) && Forward(m.stages, a.pos, StepTried(m, a))
  }

  lemma {:induction false} DriveSplit<W>(m: Machine<W>, a: Driver<W>, n: nat, k: nat)
    ensures Drive(m, Drive(m, a, n), k) == Drive(m, a, n + k)
  {
    if k > 0 {
      DriveSplit(m, a, n, k - 1);
    }
  }

  lemma ForwardFrom<W>(m: Machine<W>, a: Driver<W>, n: nat)
    requires AlwaysForward(m, a)
    ensures AlwaysForward(m, Drive(m, a, n))
    ensures ForwardAt(m, Drive(m, a, n))
  {
    forall k: nat ensures ForwardAt(m, Drive(m, Drive(m, a, n), k)) {
      DriveSplit(m, a, n, k);
    }
  }

  // ------------------------------------------------ statuses around a position

  predicate Settled(s: Status) {
    s == Completed || s == Skipped
  }

  predicate Waiting(s: Status) {
    s == NoStatus || s == Processing || s == Failed
  }

  /** All steps before `p` are completed or skipped. */
  predicate SettledBefore(rows: seq<seq<Status>>, p: Pos) {
    forall a, b :: 0 <= a < |rows| && 0 <= b < |rows[a]| && Before(Pos(a, b), p) ==> Settled(rows[a][b])
  }

  /** No step after `p` was ever reached. */
  predicate UntouchedAfter(rows: seq<seq<Status>>, p: Pos) {
    forall a, b :: 0 <= a < |rows| && 0 <= b < |rows[a]| && Before(p, Pos(a, b)) ==> rows[a][b] == NoStatus
  }

  /** The statuses name `p`, and nothing else, as the step to run. */
  predicate AtPos(stages: seq<Stage>, rows: seq<seq<Status>>, p: Pos) {
    && Shaped(stages, rows)
    && InTable(stages, p)
    && SettledBefore(rows, p)
    && UntouchedAfter(rows, p)
    && Waiting(rows[p.stage][p.step])
  }

  /** While a step runs it is the current one: the last with a status. */
  lemma CurrentIs(stages: seq<Stage>, rows: seq<seq<Status>>, p: Pos)
    requires Shaped(stages, rows) && InTable(stages, p)
    requires UntouchedAfter(rows, p) && Valid(rows[p.stage][p.step])
    ensures CurrentStageName(stages, rows) == Some(stages[p.stage].name)
    ensures CurrentStepName(stages, rows) == Some(stages[p.stage].steps[p.step].name)
  {
    forall b | p.step < b < |rows[p.stage]| ensures rows[p.stage][b] == NoStatus {
      assert Before(p, Pos(p.stage, b));
    }
    forall a | p.stage < a < |rows| ensures LastValid(rows[a]) < 0 {
      forall b | 0 <= b < |rows[a]| ensures rows[a][b] == NoStatus {
        assert Before(p, Pos(a, b));
      }
    }
  }

  // ------------------------------------------------------ tables without retries

  /** Steps are tried once a run, and none of them finishes the workflow early. */
  predicate Plainly(stages: seq<Stage>) {
    forall i, j :: 0 <= i < |stages| && 0 <= j < |stages[i].steps| ==>
      stages[i].steps[j].maxRetries <= 1 && !stages[i].steps[j].finishWorkflow
  }

  /** The reply of the step the driver is at. */
  function ReplyAt<W>(m: Machine<W>, a: Driver<W>): Reply<W>
    requires InTable(m.stages, a.pos)
  {
    m.call(a.world, ContextOf(m.stages, a.pos))
  }

  /** Without retries a step of the driver is one call. */
  lemma PlainStep<W>(m: Machine<W>, a: Driver<W>)
    requires Plainly(m.stages) && a.phase == Live && InTable(m.stages, a.pos)
    ensures StepTried(m, a) == Tried(ReplyAt(m, a), [ReplyAt(m, a)])
    ensures var r := ReplyAt(m, a);
            var b := DriveStep(m, a);
            match r.outcome
            case Died => b.pos == a.pos && b.phase == Live && b.world == r.world
            case Done =>
              var target := Target(m.stages, a.pos, r.nextStage, r.nextStep);
              b.world == r.world
              && if InTable(m.stages, target) then b.phase == Live && b.pos == target else b.phase == Finished
            case Err(e) =>
              b.pos == a.pos &&
              if e == ExitWorkflow then b.phase == Live && b.world == r.world
              else
                var c := ContextOf(m.stages, a.pos);
                var reaction := m.onFailure(r.world, c.currentStage, c.currentStep, e);
                b.world == reaction.world && b.phase == match reaction.action
                                                        case Ignore => Live
                                                        case Absorb => Aborted
                                                        case Redirect(g, s) => Redirected(g, s, KeptError(e))
  {
    var r := ReplyAt(m, a);
    assert Merge(Untouched(a.world), r) == r;
  }

  /** A driver that is not live stays where it is. */
  lemma StopsMoving<W>(m: Machine<W>, a: Driver<W>)
    requires a.phase != Live
    ensures DriveStep(m, a) == a
  {
  }

  /** Then a step that fails quietly, with an error of its own or a death, jumps nowhere. */
  lemma FailsForward<W>(m: Machine<W>, a: Driver<W>)
    requires Plainly(m.stages) && a.phase == Live && InTable(m.stages, a.pos)
    requires var r := ReplyAt(m, a);
             Quiet(r) && !r.fail && !r.skipError &&
               r.outcome in {Died, Err(Plain), Err(FailedTransfer), Err(ExitWorkflow)}
    ensures ForwardAt(m, a)
  {
    PlainStep(m, a);
  }
}
