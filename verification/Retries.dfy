/** What the linear retry policy does, without recursion: how often a step function is called, in which
    world, and which of its effects on the workflow last. */
module Retries {
  import opened Wrappers
  import opened Names
  import opened Engine

  /** The last value that was set, or the one from before if none was. */
  ghost predicate LastSet<T>(found: Option<T>, before: Option<T>, all: seq<Option<T>>) {
    if forall x :: 0 <= x < |all| ==> all[x].None? then found == before
    else exists x :: 0 <= x < |all| && all[x].Some? && found == all[x] && forall y :: x < y < |all| ==> all[y].None?
  }

  function NextStages<W>(calls: seq<Reply<W>>): (all: seq<Option<StageName>>)
    ensures |all| == |calls| && forall x :: 0 <= x < |calls| ==> all[x] == calls[x].nextStage
  {
    seq(|calls|, x requires 0 <= x < |calls| => calls[x].nextStage)
  }

  function NextSteps<W>(calls: seq<Reply<W>>): (all: seq<Option<StepName>>)
    ensures |all| == |calls| && forall x :: 0 <= x < |calls| ==> all[x] == calls[x].nextStep
  {
    seq(|calls|, x requires 0 <= x < |calls| => calls[x].nextStep)
  }

  /** Each call finds the world the one before left. */
  ghost predicate Chained<W>(call: (W, Context) -> Reply<W>, world: W, c: Context, calls: seq<Reply<W>>) {
    && (calls != [] ==> calls[0] == call(world, c))
    && forall x :: 0 < x < |calls| ==> calls[x] == call(calls[x - 1].world, c)
  }

  ghost predicate AnyFails<W>(calls: seq<Reply<W>>) {
    exists x :: 0 <= x < |calls| && calls[x].fail
  }

  ghost predicate AnySkipsError<W>(calls: seq<Reply<W>>) {
    exists x :: 0 <= x < |calls| && calls[x].skipError
  }

  /** The effects of the calls together: those of the last on the world, the last jumps, and any failure. */
  ghost predicate Together<W>(before: Reply<W>, calls: seq<Reply<W>>, r: Reply<W>)
    requires calls != []
  {
    && r.outcome == calls[|calls| - 1].outcome && r.world == calls[|calls| - 1].world
    && LastSet(r.nextStage, before.nextStage, NextStages(calls))
    && LastSet(r.nextStep, before.nextStep, NextSteps(calls))
    && (r.fail <==> before.fail || AnyFails(calls))
    && (r.skipError <==> before.skipError || AnySkipsError(calls))
  }

  lemma LastSetMore<T>(found: Option<T>, before: Option<T>, first: Option<T>, rest: seq<Option<T>>)
    requires LastSet(found, if first.Some? then first else before, rest)
    ensures LastSet(found, before, [first] + rest)
  {
    var all := [first] + rest;
    assert forall x :: 0 <= x < |rest| ==> all[x + 1] == rest[x];
    if forall x :: 0 <= x < |rest| ==> rest[x].None? {
      assert all[0] == first;
    } else {
      var x :| 0 <= x < |rest| && rest[x].Some? && found == rest[x] && forall y :: x < y < |rest| ==> rest[y].None?;
      assert all[x + 1] == rest[x];
    }
  }

  lemma ChainedMore<W>(call: (W, Context) -> Reply<W>, world: W, c: Context, rest: seq<Reply<W>>)
    requires Chained(call, call(world, c).world, c, rest)
    ensures Chained(call, world, c, [call(world, c)] + rest)
  {
  }

  lemma JumpsMore<W>(r: Reply<W>, rest: seq<Reply<W>>)
    ensures NextStages([r] + rest) == [r.nextStage] + NextStages(rest)
    ensures NextSteps([r] + rest) == [r.nextStep] + NextSteps(rest)
  {
  }

  lemma FlagsMore<W>(r: Reply<W>, rest: seq<Reply<W>>)
    ensures AnyFails([r] + rest) <==> r.fail || AnyFails(rest)
    ensures AnySkipsError([r] + rest) <==> r.skipError || AnySkipsError(rest)
  {
    var calls := [r] + rest;
    assert calls[0] == r && forall x :: 0 <= x < |rest| ==> calls[x + 1] == rest[x];
  }

  lemma TogetherMore<W>(before: Reply<W>, r: Reply<W>, rest: seq<Reply<W>>, all: Reply<W>)
    requires rest != [] && Together(Merge(before, r), rest, all)
    ensures Together(before, [r] + rest, all)
  {
    hide LastSet, NextStages, NextSteps, AnyFails, AnySkipsError;
    JumpsMore(r, rest);
    FlagsMore(r, rest);
    LastSetMore(all.nextStage, before.nextStage, r.nextStage, NextStages(rest));
    LastSetMore(all.nextStep, before.nextStep, r.nextStep, NextSteps(rest));
  }

  /** A step function is called until it does not err, and no more than `n` times; each call finds the
      world the one before left; a jump stays until a later call jumps elsewhere, and a failure stays. */
  lemma {:induction false} AttemptsAre<W>(call: (W, Context) -> Reply<W>, before: Reply<W>, c: Context, n: nat)
    requires n > 0
    ensures var t := Attempts(call, before, c, n);
            var k := |t.calls|;
            && 1 <= k <= n && Chained(call, before.world, c, t.calls)
            && (forall x :: 0 <= x < k - 1 ==> t.calls[x].outcome.Err?)
            && (t.calls[k - 1].outcome.Err? ==> k == n)
            && Together(before, t.calls, t.reply)
    decreases n
  {
    hide Chained, Together;
    var r := call(before.world, c);
    if r.outcome.Err? && n > 1 {
      var t := Attempts(call, Merge(before, r), c, n - 1);
      AttemptsAre(call, Merge(before, r), c, n - 1);
      ChainedMore(call, before.world, c, t.calls);
      TogetherMore(before, r, t.calls, t.reply);
    } else {
      OneAttempt(call, before, c);
    }
  }

  lemma OneAttempt<W>(call: (W, Context) -> Reply<W>, before: Reply<W>, c: Context)
    ensures var r := call(before.world, c);
            Chained(call, before.world, c, [r]) && Together(before, [r], Merge(before, r))
  {
    var r := call(before.world, c);
    assert [r][0] == r;
  }

  /** A step without retries is called once, and else at most as often as it says; it errs only after
      that many calls. */
  lemma TryIs<W>(m: Machine<W>, world: W, c: Context, step: Step)
    ensures var t := Try(m, world, c, step);
            var n := if step.maxRetries == 0 then 1 else step.maxRetries;
            && 1 <= |t.calls| <= n && Chained(m.call, world, c, t.calls)
            && (forall x :: 0 <= x < |t.calls| - 1 ==> t.calls[x].outcome.Err?)
            && (t.reply.outcome.Err? ==> |t.calls| == n)
            && Together(Reply(world, Done, None, None, false, false), t.calls, t.reply)
  {
    hide Chained, Attempts;
    AttemptsAre(m.call, Untouched(world), c, MaxRetries(step));
    var t := Try(m, world, c, step);
    assert t.reply.outcome == t.calls[|t.calls| - 1].outcome;
  }

  /** What the calls of a step leave on the workflow: the last jumps that were set, or those from before; a
      failure, or a wish for silence, if any call asked for it; and the world of the last call. */
  ghost predicate LeftBy<W>(mem: Memory<W>, after: Memory<W>, calls: seq<Reply<W>>)
    requires calls != []
  {
    && after.world == calls[|calls| - 1].world
    && LastSet(after.state.nextStage, mem.state.nextStage, NextStages(calls))
    && LastSet(after.state.nextStep, mem.state.nextStep, NextSteps(calls))
    && (after.state.isFailed <==> mem.state.isFailed || AnyFails(calls))
    && (after.skipError <==> mem.skipError || AnySkipsError(calls))
    && after.state.isCompleted == mem.state.isCompleted && after.state.isSuspended == mem.state.isSuspended
    && after.state.customError == mem.state.customError
  }

  lemma LastSetAfter<T>(found: Option<T>, before: Option<T>, all: seq<Option<T>>)
    requires LastSet(found, None, all)
    ensures LastSet(if found.Some? then found else before, before, all)
  {
  }

  /** The step that is run leaves the effects of its calls. */
  lemma EffectsAre<W>(m: Machine<W>, mem: Memory<W>, i: nat, j: nat) returns (calls: seq<Reply<W>>)
    requires Shaped(m.stages, mem.rows) && i < |m.stages| && j < |m.stages[i].steps|
    ensures calls != [] && LeftBy(mem, ExecuteStep(m, mem, i, j).0, calls)
    ensures |ExecuteStep(m, mem, i, j).0.log| == |mem.log| + |calls|
  {
    hide LastSet, NextStages, NextSteps, AnyFails, AnySkipsError, Try, Chained;
    var started := Save(m, SetStatus(mem, i, j, Processing));
    var c := ContextAt(m, started, i, j);
    var step := m.stages[i].steps[j];
    TryIs(m, started.world, c, step);
    var t := Try(m, started.world, c, step);
    calls := t.calls;
    LastSetAfter(t.reply.nextStage, mem.state.nextStage, NextStages(calls));
    LastSetAfter(t.reply.nextStep, mem.state.nextStep, NextSteps(calls));
  }
}
