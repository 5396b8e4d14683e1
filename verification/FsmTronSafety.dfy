/** What holds of a Tron transfer after any number of runs, until a failure redirects it. */
module FsmTronSafety {
  import opened Wrappers
  import opened Names
  import opened Engine
  import opened Resumption
  import opened Simulation
  import opened History
  import opened Transfers
  import opened FsmTron
  import opened FsmTronRouting
  import opened FsmTronCalls

  /** Only steps the transfer may reach were called, none of them a compensation. */
  predicate Routed(q: Request, log: seq<Call>) {
    forall x :: 0 <= x < |log| ==> Reaches(q, PosOf(log[x]))
  }

  ghost predicate Funded(q: Request, log: seq<Call>) {
    exists y :: 0 <= y < |log| && log[y].outcome.Done? && Funds(q, PosOf(log[y]))
  }

  /** The funding of the transfer was completed before the transfer was sent, or anything after. */
  ghost predicate FundedFirst(q: Request, log: seq<Call>) {
    forall x :: 0 <= x < |log| && PosOf(log[x]).stage >= 1 ==> Funded(q, log[..x])
  }

  ghost predicate Inv(a: Driver<World>) {
    var q := a.world.request;
    && Routed(q, a.log) && FundedFirst(q, a.log)
    && InTable(STAGES, a.pos) && a.pos.stage < 3
    && match a.phase
       case Live => At(a.world, a.pos) && (a.pos.stage >= 1 ==> Funded(q, a.log))
       case Redirected(stage, step, _) =>
         stage == StageCompensateOnFail && step == StepDetermineCompensationFlow && Safe(a.world)
       case _ => false
  }

  /** One more call, at a step the transfer may reach. */
  lemma LogGrowsWith(q: Request, log: seq<Call>, c: Call)
    requires Routed(q, log) && FundedFirst(q, log) && Reaches(q, PosOf(c))
    requires PosOf(c).stage >= 1 ==> Funded(q, log)
    ensures Routed(q, log + [c]) && FundedFirst(q, log + [c])
    ensures Funded(q, log) || (c.outcome.Done? && Funds(q, PosOf(c))) ==> Funded(q, log + [c])
  {
    var all := log + [c];
    forall x | 0 <= x < |all| && PosOf(all[x]).stage >= 1 ensures Funded(q, all[..x]) {
      if x < |log| {
        assert all[..x] == log[..x] && all[x] == log[x];
      } else {
        assert all[..x] == log;
      }
    }
    if Funded(q, log) {
      var y :| 0 <= y < |log| && log[y].outcome.Done? && Funds(q, PosOf(log[y]));
      assert all[y] == log[y];
    } else if c.outcome.Done? && Funds(q, PosOf(c)) {
      assert all[|log|] == c;
    }
  }

  /** Where the driver goes when the reply of its step advances. */
  lemma Goes(a: Driver<World>, r: Reply<World>)
    requires a.phase == Live && InTable(STAGES, a.pos) && a.pos.stage < 3
    requires r == ReplyAt(MACHINE, a) && Advances(a.world, a.pos, r)
    ensures ForwardAt(MACHINE, a)
    ensures var b := DriveStep(MACHINE, a);
            && b.world == r.world
            && match r.outcome
               case Done => b.phase == Live && b.pos == Goal(a.pos, r) && InTable(STAGES, b.pos) && b.pos.stage < 3
               case Err(e) =>
                 b.pos == a.pos &&
                 if Retried(a.pos, e) then b.phase == Live
                 else b.phase == Redirected(StageCompensateOnFail, StepDetermineCompensationFlow, KeptError(e))
               case Died => b.phase == Live && b.pos == a.pos
  {
    hide CallStep, ReplyAt, At, DriveStep;
    Table();
    PlainStep(MACHINE, a);
    FatalSteps(a.pos);
    if r.outcome == Done {
      Targets(a.pos, r);
    }
  }

  lemma InvFollows(a: Driver<World>, r: Reply<World>)
    requires Inv(a) && a.phase == Live && r == ReplyAt(MACHINE, a) && Advances(a.world, a.pos, r)
    ensures ForwardAt(MACHINE, a) && Inv(DriveStep(MACHINE, a)) && SameSetup(a.world, DriveStep(MACHINE, a).world)
  {
    hide CallStep, ReplyAt, DriveStep, Reaches, Funds, HistoryAt, Spent, DiedByAnswer, AllSeen, Checked, Safe, JumpOk,
         Goal;
    Table();
    Goes(a, r);
    StepLogs(MACHINE, a);
    LogGrowsWith(a.world.request, a.log, CallOf(a.pos.stage, a.pos.step, ContextOf(STAGES, a.pos), [], r));
  }

  lemma InvStep(a: Driver<World>)
    requires Inv(a) && a.phase == Live
    ensures ForwardAt(MACHINE, a) && Inv(DriveStep(MACHINE, a)) && SameSetup(a.world, DriveStep(MACHINE, a).world)
  {
    hide CallStep, At, DriveStep;
    CallAdvances(a.world, a.pos);
    var r :| r == CallStep(a.world, ContextOf(STAGES, a.pos)) && Advances(Taken(a.world), a.pos, r);
    InvFollows(a, r);
  }

  lemma InvGoesOn(a: Driver<World>)
    requires Inv(a)
    ensures ForwardAt(MACHINE, a)
    ensures Inv(DriveStep(MACHINE, a)) && SameSetup(a.world, DriveStep(MACHINE, a).world)
  {
    if a.phase == Live {
      InvStep(a);
    }
  }

  lemma InvStarts(w: World)
    requires w == Begin(w.request, w.tape)
    ensures Inv(Start(MACHINE, w))
  {
    Table();
  }

  lemma {:induction false} InvDrive(w: World, n: nat)
    requires w == Begin(w.request, w.tape)
    ensures ForwardAt(MACHINE, Drive(MACHINE, Start(MACHINE, w), n)) && Inv(Drive(MACHINE, Start(MACHINE, w), n))
    ensures SameSetup(w, Drive(MACHINE, Start(MACHINE, w), n).world)
  {
    hide CallStep, At, DriveStep;
    if n == 0 {
      InvStarts(w);
    } else {
      InvDrive(w, n - 1);
      InvGoesOn(Drive(MACHINE, Start(MACHINE, w), n - 1));
    }
    InvGoesOn(Drive(MACHINE, Start(MACHINE, w), n));
  }

  lemma AlwaysGoesForward(w: World)
    requires w == Begin(w.request, w.tape)
    ensures AlwaysForward(MACHINE, Start(MACHINE, w))
  {
    forall n: nat ensures ForwardAt(MACHINE, Drive(MACHINE, Start(MACHINE, w), n)) {
      InvDrive(w, n);
    }
  }

  // ------------------------------------------------------------------- the theorem

  datatype ActivationBranch = ByResources | ByBurning | External

  function ActivationOf(step: StepName): Option<ActivationBranch> {
    match step
    case StepActiveWalletResources | StepWaitingResourcesActivateWalletConfirmations => Some(ByResources)
    case StepActivateWalletBurnTRX | StepWaitingActivateWalletConfirmations => Some(ByBurning)
    case StepWaitingExternalActivateWalletConfirmations => Some(External)
    case _ => None
  }

  function FundingOf(step: StepName): Option<Kind> {
    match step
    case StepSendTRXForBurn | StepWaitingSendTRXForBurnConfirmations => Some(BurnTRX)
    case StepDelegateResources | StepWaitingDelegateConfirmations => Some(Resources)
    case StepWaitingExternalDelegateConfirmations => Some(CloudDelegate)
    case _ => None
  }

  predicate SameBranch(a: StepName, b: StepName) {
    ActivationOf(a).Some? && ActivationOf(b).Some? ==> ActivationOf(a) == ActivationOf(b)
  }

  /** One activation branch at most, only the funding branch of the kind, no compensation. */
  predicate OneBranch(q: Request, log: seq<Call>) {
    && (forall x :: 0 <= x < |log| ==> log[x].context.stage != StageCompensateOnFail)
    && (forall x :: 0 <= x < |log| && FundingOf(log[x].context.step).Some? ==> FundingOf(log[x].context.step) == q.kind)
    && (forall x, y :: 0 <= x < |log| && 0 <= y < |log| ==> SameBranch(log[x].context.step, log[y].context.step))
  }

  /** The funding step that completes before the transfer is sent: it sends or waits for what the
      kind asks for, unless the wallet pays for itself. */
  predicate CompletesFunding(q: Request, step: StepName) {
    match q.kind
    case None => false
    case Some(BurnTRX) =>
      step == if q.fromWallet == ProcessingWallet || q.nativeAsset then StepSendTRXForBurn
        else StepWaitingSendTRXForBurnConfirmations
    case Some(Resources) =>
      step == if q.fromWallet == ProcessingWallet then StepDelegateResources else StepWaitingDelegateConfirmations
    case Some(CloudDelegate) => step == StepWaitingExternalDelegateConfirmations
  }

  predicate FundingCompleted(q: Request, log: seq<Call>) {
    exists y :: 0 <= y < |log| && log[y].outcome.Done? && CompletesFunding(q, log[y].context.step)
  }

  /** The transfer is sent after its funding was completed. */
  predicate FundedBeforeSent(q: Request, log: seq<Call>) {
    forall x :: 0 <= x < |log| && log[x].context.step == StepSending ==> FundingCompleted(q, log[..x])
  }

  lemma NamesAreHome(c: Call)
    requires Witnessed(STAGES, c)
    ensures Home(c.context.step) == PosOf(c) && c.context.stage == STAGES[c.stage].name
    ensures c.context.stage == StageCompensateOnFail ==> c.stage == 3
  {
    Table();
    HomeIs(c.stage, c.step);
  }

  /** The calls name the steps they are made to. */
  predicate Named(log: seq<Call>) {
    forall x :: 0 <= x < |log| ==>
      Home(log[x].context.step) == PosOf(log[x]) &&
        (log[x].context.stage == StageCompensateOnFail ==> log[x].stage == 3)
  }

  lemma WitnessedIsNamed(log: seq<Call>)
    requires AllWitnessed(STAGES, log)
    ensures Named(log)
  {
    forall x | 0 <= x < |log|
      ensures Home(log[x].context.step) == PosOf(log[x]) &&
              (log[x].context.stage == StageCompensateOnFail ==> log[x].stage == 3)
    {
      NamesAreHome(log[x]);
    }
  }

  lemma BareRoutes(q: Request, log: seq<Call>)
    requires Routed(q, Bare(log)) && FundedFirst(q, Bare(log))
    ensures Routed(q, log) && FundedFirst(q, log)
  {
    forall x | 0 <= x < |log| ensures PosOf(log[x]) == PosOf(Bare(log)[x]) {
    }
    forall x | 0 <= x < |log| && PosOf(log[x]).stage >= 1 ensures Funded(q, log[..x]) {
      assert Funded(q, Bare(log)[..x]);
      var y :| 0 <= y < x && Bare(log)[..x][y].outcome.Done? && Funds(q, PosOf(Bare(log)[..x][y]));
      assert log[..x][y] == log[y];
    }
  }

  lemma RoutedIsOneBranch(q: Request, log: seq<Call>)
    requires Named(log) && Routed(q, log)
    ensures OneBranch(q, log)
  {
  }

  lemma FundsByName(q: Request, step: StepName)
    requires Funds(q, Home(step))
    ensures CompletesFunding(q, step)
  {
  }

  lemma FundedFirstIsBeforeSent(q: Request, log: seq<Call>)
    requires Named(log) && FundedFirst(q, log)
    ensures FundedBeforeSent(q, log)
  {
    forall x | 0 <= x < |log| && log[x].context.step == StepSending ensures FundingCompleted(q, log[..x]) {
      assert Funded(q, log[..x]);
      var y :| 0 <= y < x && log[..x][y].outcome.Done? && Funds(q, PosOf(log[..x][y]));
      assert log[..x][y] == log[y];
      FundsByName(q, log[y].context.step);
    }
  }

  /** What the failure callback leaves: the next run is sent to the compensation, whose steps were
      never reached. */
  predicate SentToCompensate(stored: Snapshot) {
    && stored.state == CLEAN.(nextStage := Some(StageCompensateOnFail), nextStep := Some(StepDetermineCompensationFlow),
                              customError := stored.state.customError)
    && forall b :: 0 <= b < 4 ==> Restore(STAGES, stored.steps)[3][b] == NoStatus
  }

  lemma NotReached(s: Session<World>, b: Driver<World>)
    requires Between(MACHINE, s, b) && Inv(b) && b.phase.Redirected?
    ensures SentToCompensate(s.stored)
  {
    Table();
    var rows := Restore(STAGES, s.stored.steps);
    forall d | 0 <= d < 4 ensures rows[3][d] == NoStatus {
      assert Before(b.pos, Pos(3, d));
    }
  }

  /** After any number of runs and deaths, up to the first redirect: nothing is sent unless the
      request passed the validation; one activation branch at most and only the funding branch of
      the kind was executed, and no compensation step; the funding was completed before the transfer
      was sent; no step is called again once it succeeded; each transaction is broadcast once, and
      again only as often as the process died right after it; what is recorded was broadcast, and
      the other way around without such a death; the transfer is sent only once what is recorded of
      its activation and funding was seen with three confirmations, and reclaims are those of the
      loops over one list of staked resources; statuses moved forward, and to completed only once
      the one recorded transfer and whatever was reclaimed were seen with enough confirmations. A
      redirect sends the next run to the compensation. */
  lemma TronRouting(request: Request, tape: nat -> Answer, k: nat) returns (j: nat)
    ensures j <= k
    ensures var s := Runs(MACHINE, Fresh(Begin(request, tape)), j);
            && s.world.request == request && s.world.tape == tape && Safe(s.world)
            && OneBranch(request, s.log) && FundedBeforeSent(request, s.log) && NeverRepeats(s.log)
            && (j < k ==> SentToCompensate(s.stored))
  {
    hide CallStep, Recorded, RunOnce;
    Table();
    TableIsDistinct();
    var w := Begin(request, tape);
    AlwaysGoesForward(w);
    var n;
    n, j := RunsRefineDriver(MACHINE, w, k);
    InvDrive(w, n);
    var b := Drive(MACHINE, Start(MACHINE, w), n);
    var s := Runs(MACHINE, Fresh(w), j);
    if b.phase == Live {
      AtIsSafe(b.world, b.pos);
    } else {
      NotReached(s, b);
    }
    WitnessedIsNamed(s.log);
    BareRoutes(request, s.log);
    RoutedIsOneBranch(request, s.log);
    FundedFirstIsBeforeSent(request, s.log);
  }

  /** Without a death right after a broadcast each transaction is broadcast at most once. */
  lemma TronSendsOnce(request: Request, tape: nat -> Answer, k: nat) returns (j: nat)
    requires forall i :: 0 <= i ==> !tape(i).death.DiesSent?
    ensures j <= k
    ensures var s := Runs(MACHINE, Fresh(Begin(request, tape)), j);
            && SentOnce(s.world) && (j < k ==> SentToCompensate(s.stored))
  {
    j := TronRouting(request, tape, k);
    UndisturbedIsOnce(Runs(MACHINE, Fresh(Begin(request, tape)), j).world);
  }

  /** What was broadcast is what is recorded: one transaction of a type, two delegations, and the
      reclaims of one list. */
  ghost predicate SentOnce(w: World) {
    && w.rows == w.sends
    && Sent(w, AccountActivation) <= 1 && Sent(w, SendBurnBaseAsset) <= 1 && Sent(w, DelegateResources) <= 2 &&
       Sent(w, Transfer) <= 1
    && ReclaimedOnce(w)
  }

  lemma UndisturbedIsOnce(w: World)
    requires Safe(w) && forall i :: 0 <= i ==> !w.tape(i).death.DiesSent?
    ensures SentOnce(w)
  {
    hide Recorded;
    assert w.deaths == multiset{};
  }
}
