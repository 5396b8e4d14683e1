/** Whole histories of runs: the calls of any number of runs follow one path of the routing graph. */
module History {
  import opened Wrappers
  import opened Names
  import opened Engine
  import opened Resumption
  import opened Simulation

  function PosOf(c: Call): Pos {
    Pos(c.stage, c.step)
  }

  /** The step a history of calls leads to: the first one, moved by every success. */
  function PosAfter(stages: seq<Stage>, log: seq<Call>): Pos {
    if log == [] then StepAt(stages, 0, 0)
    else
      var c := log[|log| - 1];
      if c.outcome.Done? && InTable(stages, PosOf(c))
      then Target(stages, PosOf(c), c.nextStage, c.nextStep)
      else PosAfter(stages, log[..|log| - 1])
  }

  /** A call is made to step `p`, and if it succeeds it goes forward. */
  predicate Fits(stages: seq<Stage>, c: Call, p: Pos) {
    && InTable(stages, PosOf(c)) && PosOf(c) == p
    && (c.outcome.Done? ==> ForwardJump(stages, PosOf(c), c.nextStage, c.nextStep))
  }

  /** Every call is made to the step the calls before it lead to, and every success goes forward. */
  ghost predicate OnPath(stages: seq<Stage>, log: seq<Call>) {
    forall x {:trigger log[x]} :: 0 <= x < |log| ==> Fits(stages, log[x], PosAfter(stages, log[..x]))
  }

  /** No step function is called again once it, or a later one, returned without an error. */
  ghost predicate NeverRepeats(log: seq<Call>) {
    forall x, y :: 0 <= x < y < |log| && log[x].outcome.Done? ==> Before(PosOf(log[x]), PosOf(log[y]))
  }

  lemma {:induction false} FailuresStay(stages: seq<Stage>, log: seq<Call>, more: seq<Call>)
    requires forall k :: 0 <= k < |more| ==> !more[k].outcome.Done?
    ensures PosAfter(stages, log + more) == PosAfter(stages, log)
  {
    if more == [] {
      assert log + more == log;
    } else {
      var n := |more| - 1;
      assert (log + more)[..|log + more| - 1] == log + more[..n];
      FailuresStay(stages, log, more[..n]);
    }
  }

  /** The calls made for one step extend the path. */
  lemma PathGrows(stages: seq<Stage>, log: seq<Call>, p: Pos, more: seq<Call>)
    requires OnPath(stages, log) && PosAfter(stages, log) == p
    requires more != [] && forall k :: 0 <= k < |more| ==> Fits(stages, more[k], p)
    requires forall k :: 0 <= k < |more| - 1 ==> !more[k].outcome.Done?
    ensures OnPath(stages, log + more)
  {
    hide PosAfter, Fits;
    var all := log + more;
    forall x | 0 <= x < |all| ensures Fits(stages, all[x], PosAfter(stages, all[..x])) {
      if x < |log| {
        assert all[..x] == log[..x] && all[x] == log[x];
      } else {
        assert all[..x] == log + more[..x - |log|] && all[x] == more[x - |log|];
        FailuresStay(stages, log, more[..x - |log|]);
      }
    }
  }

  lemma PathLeads(stages: seq<Stage>, log: seq<Call>, p: Pos, more: seq<Call>)
    requires PosAfter(stages, log) == p && InTable(stages, p)
    requires more != [] && PosOf(more[|more| - 1]) == p
    requires forall k :: 0 <= k < |more| - 1 ==> !more[k].outcome.Done?
    ensures var last := more[|more| - 1];
            PosAfter(stages, log + more) == if last.outcome.Done? then Target(stages, p, last.nextStage, last.nextStep)
              else p
  {
    var all := log + more;
    assert all[..|all| - 1] == log + more[..|more| - 1];
    FailuresStay(stages, log, more[..|more| - 1]);
  }

  /** The entries the log gets when the driver takes a step. */
  lemma StepCallsFit<W>(m: Machine<W>, a: Driver<W>)
    requires a.phase == Live && ForwardAt(m, a)
    ensures var t := StepTried(m, a);
            var more := CallLog(a.pos.stage, a.pos.step, ContextOf(m.stages, a.pos), [], t.calls);
            && more != [] && (forall k :: 0 <= k < |more| ==> Fits(m.stages, more[k], a.pos))
            && (forall k :: 0 <= k < |more| - 1 ==> !more[k].outcome.Done?)
            && var last := more[|more| - 1];
               last.outcome == t.reply.outcome && last.nextStage == t.reply.nextStage &&
                 last.nextStep == t.reply.nextStep
  {
    TriedShape(m.call, Untouched(a.world), ContextOf(m.stages, a.pos),
      MaxRetries(m.stages[a.pos.stage].steps[a.pos.step]));
  }

  /** What a step of the driver adds to its log, and where it leads. */
  ghost predicate StepExtends<W>(m: Machine<W>, a: Driver<W>, b: Driver<W>)
    requires InTable(m.stages, a.pos)
  {
    var t := StepTried(m, a);
    && b.log == a.log + CallLog(a.pos.stage, a.pos.step, ContextOf(m.stages, a.pos), [], t.calls)
    && (b.phase == Live ==>
          b.pos == if t.reply.outcome.Done? then Target(m.stages, a.pos, t.reply.nextStage, t.reply.nextStep)
            else a.pos)
  }

  lemma DriveStepExtends<W>(m: Machine<W>, a: Driver<W>)
    requires a.phase == Live && ForwardAt(m, a)
    ensures StepExtends(m, a, DriveStep(m, a))
  {
  }

  /** Without retries the log gets the one call of the step. */
  lemma StepLogs<W>(m: Machine<W>, a: Driver<W>)
    requires Plainly(m.stages) && a.phase == Live && InTable(m.stages, a.pos) && ForwardAt(m, a)
    ensures var r, c := ReplyAt(m, a), ContextOf(m.stages, a.pos);
            DriveStep(m, a).log == a.log + [CallOf(a.pos.stage, a.pos.step, c, [], r)]
  {
    DriveStepExtends(m, a);
    PlainStep(m, a);
    var r, c := ReplyAt(m, a), ContextOf(m.stages, a.pos);
    assert CallLog(a.pos.stage, a.pos.step, c, [], [r]) == [CallOf(a.pos.stage, a.pos.step, c, [], r)];
  }

  /** The calls of one step extend the path and lead on. */
  lemma PathGoesOn(stages: seq<Stage>, log: seq<Call>, p: Pos, more: seq<Call>, last: Call)
    requires OnPath(stages, log) && PosAfter(stages, log) == p && InTable(stages, p)
    requires more != [] && last == more[|more| - 1]
    requires forall k :: 0 <= k < |more| ==> Fits(stages, more[k], p)
    requires forall k :: 0 <= k < |more| - 1 ==> !more[k].outcome.Done?
    ensures OnPath(stages, log + more)
    ensures PosAfter(stages, log + more) == if last.outcome.Done? then Target(stages, p, last.nextStage, last.nextStep)
            else p
  {
    PathGrows(stages, log, p, more);
    PathLeads(stages, log, p, more);
  }

  /** So does a driver whose log gets those calls. */
  lemma LeadsOn<W>(stages: seq<Stage>, a: Driver<W>, b: Driver<W>, more: seq<Call>, last: Call)
    requires OnPath(stages, a.log) && PosAfter(stages, a.log) == a.pos && InTable(stages, a.pos)
    requires more != [] && last == more[|more| - 1] && b.log == a.log + more
    requires forall k :: 0 <= k < |more| ==> Fits(stages, more[k], a.pos)
    requires forall k :: 0 <= k < |more| - 1 ==> !more[k].outcome.Done?
    requires b.phase == Live ==>
             b.pos == if last.outcome.Done? then Target(stages, a.pos, last.nextStage, last.nextStep) else a.pos
    ensures OnPath(stages, b.log) && (b.phase == Live ==> PosAfter(stages, b.log) == b.pos)
  {
    PathGoesOn(stages, a.log, a.pos, more, last);
  }

  lemma DriverStepOnPath<W>(m: Machine<W>, a: Driver<W>, b: Driver<W>)
    requires a.phase == Live && ForwardAt(m, a) && StepExtends(m, a, b)
    requires OnPath(m.stages, a.log) && PosAfter(m.stages, a.log) == a.pos
    ensures OnPath(m.stages, b.log) && (b.phase == Live ==> PosAfter(m.stages, b.log) == b.pos)
  {
    hide InTable;
    var more := CallLog(a.pos.stage, a.pos.step, ContextOf(m.stages, a.pos), [], StepTried(m, a).calls);
    StepCallsFit(m, a);
    LeadsOn(m.stages, a, b, more, more[|more| - 1]);
  }

  ghost predicate PathOk<W>(m: Machine<W>, a: Driver<W>) {
    OnPath(m.stages, a.log) && (a.phase == Live ==> PosAfter(m.stages, a.log) == a.pos)
  }

  lemma StepKeepsPath<W>(m: Machine<W>, a: Driver<W>)
    requires ForwardAt(m, a) && PathOk(m, a)
    ensures PathOk(m, DriveStep(m, a))
  {
    if a.phase == Live {
      DriveStepExtends(m, a);
      DriverStepOnPath(m, a, DriveStep(m, a));
    }
  }

  /** The calls of the driver follow the path, and lead to the step it is at. */
  lemma {:induction false} DriverOnPath<W>(m: Machine<W>, world: W, n: nat)
    requires AlwaysForward(m, Start(m, world))
    ensures PathOk(m, Drive(m, Start(m, world), n))
  {
    hide Target;
    if n > 0 {
      DriverOnPath(m, world, n - 1);
      ForwardFrom(m, Start(m, world), n - 1);
      StepKeepsPath(m, Drive(m, Start(m, world), n - 1));
    }
  }

  /** A jump, or its absence, leads to a later step. */
  lemma TargetIsLater(stages: seq<Stage>, p: Pos, nextStage: Option<StageName>, nextStep: Option<StepName>)
    requires InTable(stages, p) && ForwardJump(stages, p, nextStage, nextStep)
    ensures Before(p, Target(stages, p, nextStage, nextStep))
  {
  }

  /** Along a path the position never goes back, and a success moves it forward. */
  lemma {:induction false} PathClimbs(stages: seq<Stage>, log: seq<Call>, x: nat, y: nat)
    requires OnPath(stages, log) && x < y < |log|
    ensures !Before(PosOf(log[y]), PosOf(log[x]))
    ensures log[x].outcome.Done? ==> Before(PosOf(log[x]), PosOf(log[y]))
    decreases y
  {
    var before := log[y - 1];
    assert log[..y][..y - 1] == log[..y - 1];
    if before.outcome.Done? {
      TargetIsLater(stages, PosOf(before), before.nextStage, before.nextStep);
    }
    if x < y - 1 {
      PathClimbs(stages, log, x, y - 1);
    }
  }

  lemma {:induction false} BarePosAfter(stages: seq<Stage>, log: seq<Call>)
    ensures PosAfter(stages, Bare(log)) == PosAfter(stages, log)
    decreases |log|
  {
    if log != [] {
      assert Bare(log)[..|log| - 1] == Bare(log[..|log| - 1]);
      BarePosAfter(stages, log[..|log| - 1]);
    }
  }

  lemma BareOnPath(stages: seq<Stage>, log: seq<Call>)
    requires OnPath(stages, Bare(log))
    ensures OnPath(stages, log) && NeverRepeats(log)
  {
    forall x | 0 <= x < |log| ensures PosAfter(stages, log[..x]) == PosAfter(stages, Bare(log)[..x]) {
      assert Bare(log)[..x] == Bare(log[..x]);
      BarePosAfter(stages, log[..x]);
    }
    forall x | 0 <= x < |log| ensures Fits(stages, log[x], PosAfter(stages, log[..x])) {
      assert Fits(stages, Bare(log)[x], PosAfter(stages, Bare(log)[..x]));
    }
    assert OnPath(stages, log);
    forall x, y | 0 <= x < y < |log| && log[x].outcome.Done?
      ensures Before(PosOf(log[x]), PosOf(log[y]))
    {
      PathClimbs(stages, log, x, y);
    }
  }

  /** What is stored after `j` runs matches the driver after some number of its steps, no less than `j`
      while it is live. */
  ghost predicate Matched<W>(m: Machine<W>, s: Session<W>, a: Driver<W>, j: nat) {
    exists n: nat :: (Drive(m, a, n).phase == Live ==> n >= j) && Between(m, s, Drive(m, a, n))
  }

  /** One more run makes more steps of the same driver. */
  lemma OneMoreRun<W>(m: Machine<W>, s: Session<W>, a: Driver<W>, n: nat, j: nat)
    requires Distinct(m.stages) && AlwaysForward(m, a)
    requires !Drive(m, a, n).phase.Redirected? && Between(m, s, Drive(m, a, n))
    requires Drive(m, a, n).phase == Live ==> n >= j
    ensures Matched(m, RunOnce(m, s), a, j + 1)
  {
    ForwardFrom(m, a, n);
    var more := RunSimulates(m, s, Drive(m, a, n));
    DriveSplit(m, a, n, more);
    assert Drive(m, Drive(m, a, n), more) == Drive(m, a, n + more);
    if Drive(m, a, n).phase != Live {
      StoppedDriver(m, Drive(m, a, n), more);
    }
  }

  lemma {:induction false} StoppedDriver<W>(m: Machine<W>, a: Driver<W>, n: nat)
    requires a.phase != Live
    ensures Drive(m, a, n) == a
  {
    if n > 0 {
      StoppedDriver(m, a, n - 1);
    }
  }

  lemma FreshIsAtStart<W>(m: Machine<W>, world: W)
    requires InTable(m.stages, StepAt(m.stages, 0, 0))
    ensures Between(m, Fresh(world), Start(m, world))
  {
  }

  /** The first `j` of `k` runs make the calls of the driver; a redirect ends the rest. */
  ghost predicate MatchedUpTo<W>(m: Machine<W>, world: W, k: nat) {
    exists j: nat, n: nat ::
      j <= k && (j < k ==> Drive(m, Start(m, world), n).phase.Redirected?) &&
      (Drive(m, Start(m, world), n).phase == Live ==> n >= j) &&
      Between(m, Runs(m, Fresh(world), j), Drive(m, Start(m, world), n))
  }

  lemma NextRunMatches<W>(m: Machine<W>, world: W, j: nat)
    requires Matched(m, RunOnce(m, Runs(m, Fresh(world), j)), Start(m, world), j + 1)
    ensures MatchedUpTo(m, world, j + 1)
  {
    var s := RunOnce(m, Runs(m, Fresh(world), j));
    var n: nat :| (Drive(m, Start(m, world), n).phase == Live ==> n >= j + 1) &&
      Between(m, s, Drive(m, Start(m, world), n));
    assert s == Runs(m, Fresh(world), j + 1);
  }

  lemma NoRunMatches<W>(m: Machine<W>, world: W)
    requires InTable(m.stages, StepAt(m.stages, 0, 0))
    ensures MatchedUpTo(m, world, 0)
  {
    FreshIsAtStart(m, world);
    assert Between(m, Runs(m, Fresh(world), 0), Drive(m, Start(m, world), 0));
  }

  /** Any number of runs make the calls of one driver, up to a redirect. */
  lemma {:induction false} RunsSimulate<W>(m: Machine<W>, world: W, k: nat)
    requires Distinct(m.stages) && InTable(m.stages, StepAt(m.stages, 0, 0))
    requires AlwaysForward(m, Start(m, world))
    ensures MatchedUpTo(m, world, k)
  {
    var a := Start(m, world);
    if k == 0 {
      NoRunMatches(m, world);
    } else {
      RunsSimulate(m, world, k - 1);
      var j: nat, n: nat :| j <= k - 1 && (j < k - 1 ==> Drive(m, a, n).phase.Redirected?) &&
        (Drive(m, a, n).phase == Live ==> n >= j) && Between(m, Runs(m, Fresh(world), j), Drive(m, a, n));
      if !Drive(m, a, n).phase.Redirected? {
        OneMoreRun(m, Runs(m, Fresh(world), j), a, n, j);
        NextRunMatches(m, world, j);
      }
    }
  }

  /** Resumption refines one uninterrupted run. Take a fresh transfer and any number of runs, each
      from the snapshot the one before left, with steps failing, snoozing or dying as they like.
      The runs make the calls of one driver; what is stored names the driver's step, or stops every
      later run; the calls follow one path of the routing graph; no function is called again once it
      returned without an error; and whenever a function is called, all earlier steps are completed
      or skipped, no later one was reached, and the workflow takes that step for the current one.
      Only a redirect by the failure callback ends this regime early. */
  lemma RunsRefineDriver<W>(m: Machine<W>, world: W, k: nat) returns (n: nat, j: nat)
    requires Distinct(m.stages) && InTable(m.stages, StepAt(m.stages, 0, 0))
    requires AlwaysForward(m, Start(m, world))
    ensures j <= k && (j < k ==> Drive(m, Start(m, world), n).phase.Redirected?)
    ensures Drive(m, Start(m, world), n).phase == Live ==> n >= j
    ensures Between(m, Runs(m, Fresh(world), j), Drive(m, Start(m, world), n))
    ensures OnPath(m.stages, Runs(m, Fresh(world), j).log)
    ensures NeverRepeats(Runs(m, Fresh(world), j).log)
    ensures AllWitnessed(m.stages, Runs(m, Fresh(world), j).log)
  {
    RunsSimulate(m, world, k);
    j, n :| j <= k && (j < k ==> Drive(m, Start(m, world), n).phase.Redirected?) &&
      (Drive(m, Start(m, world), n).phase == Live ==> n >= j) &&
      Between(m, Runs(m, Fresh(world), j), Drive(m, Start(m, world), n));
    DriverOnPath(m, world, n);
    BareOnPath(m.stages, Runs(m, Fresh(world), j).log);
  }

  /** Once the stored workflow is completed or failed, a run calls no function and changes nothing. */
  lemma StoppedStays<W>(m: Machine<W>, s: Session<W>)
    requires Stopped(s.stored.state) && UniqueStepNames(m.stages)
    ensures RunOnce(m, s) == s
  {
  }
}
