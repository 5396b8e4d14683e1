/** Which steps a Tron transfer makes, all of them and in which order: what its kind, its wallet and its
    asset ask for, whether the wallet was found inactive, and whether resources were delegated. */
module FsmTronItinerary {
  import opened Wrappers
  import opened Names
  import opened Engine
  import opened Resumption
  import opened Simulation
  import opened History
  import opened Transfers
  import opened FsmTron
  import opened FsmTronRouting
  import opened FsmTronCalls
  import opened FsmTronSafety
  import opened FsmTronMoves

  // -------------------------------------------------------------------------- the itinerary

  /** The steps that activate the wallet. */
  function Activation(q: Request): seq<StepName> {
    [StepBeforeActivationCheckTransferKind] +
    if q.kind == Some(CloudDelegate) then [StepWaitingExternalActivateWalletConfirmations]
    else if q.useBurnActivation then [StepActivateWalletBurnTRX, StepWaitingActivateWalletConfirmations]
    else [StepActiveWalletResources, StepWaitingResourcesActivateWalletConfirmations]
  }

  /** The steps that fund the transfer. */
  function Funding(q: Request): seq<StepName> {
    if q.kind == Some(CloudDelegate) then [StepWaitingExternalDelegateConfirmations]
    else if q.kind == Some(Resources) then
      if q.fromWallet == ProcessingWallet then [StepDelegateResources]
      else [StepDelegateResources, StepWaitingDelegateConfirmations]
    else
      if q.fromWallet == ProcessingWallet || q.nativeAsset then [StepSendTRXForBurn]
      else [StepSendTRXForBurn, StepWaitingSendTRXForBurnConfirmations]
  }

  /** The steps that take back what was delegated. */
  function Reclaiming(q: Request, delegated: bool): seq<StepName> {
    if q.kind != Some(Resources) || q.fromWallet == ProcessingWallet then []
    else if q.fromWallet == HotWallet && delegated then
      [StepReclaimResources, StepWaitingReclaimResourcesConfirmations]
    else [StepReclaimResources]
  }

  /** The steps up to the one that funds the transfer. */
  function Head(q: Request, inactive: bool): seq<StepName> {
    [StepValidateRequest, StepCheckActivateWallet] + if inactive && !q.nativeAsset then Activation(q) else []
  }

  /** The steps up to the one that sends the transfer. */
  function Prepared(q: Request, inactive: bool): seq<StepName> {
    Head(q, inactive) + [StepBeforeSendingCheckTransferKind] + Funding(q)
  }

  const SENT := [StepSending, StepWaitingForTheFirstConfirmation, StepWaitingConfirmations,
                 StepAfterSendingCheckTransferKind]

  /** All steps of a transfer that succeeds, in order. */
  function Itinerary(q: Request, inactive: bool, delegated: bool): seq<StepName> {
    Prepared(q, inactive) + SENT + Reclaiming(q, delegated) + [StepSendSuccessEvent]
  }

  // ------------------------------------------------------------------------------- the log

  /** The names of the calls that succeeded, in order. */
  function Successes(log: seq<Call>): seq<StepName> {
    if log == [] then []
    else
      var n := |log| - 1;
      Successes(log[..n]) + if log[n].outcome.Done? then [log[n].context.step] else []
  }

  /** The check of the wallet succeeded, and found it inactive; each call has its answer. */
  ghost predicate FoundInactive(log: seq<Call>, tape: nat -> Answer) {
    exists x :: 0 <= x < |log| && log[x].context.step == StepCheckActivateWallet && log[x].outcome.Done? &&
      tape(x).activated == Some(false)
  }

  /** The delegation succeeded, and delegated something. */
  ghost predicate WasDelegated(log: seq<Call>, tape: nat -> Answer) {
    exists x :: 0 <= x < |log| && log[x].context.step == StepDelegateResources && log[x].outcome.Done? &&
      (tape(x).energy.Broadcast? || tape(x).bandwidth.Broadcast?)
  }

  ghost function Planned(q: Request, log: seq<Call>, tape: nat -> Answer): seq<StepName> {
    Itinerary(q, FoundInactive(log, tape), WasDelegated(log, tape))
  }

  /** Each call is to the step of the itinerary that follows those that succeeded before. */
  ghost predicate Keeps(q: Request, log: seq<Call>, tape: nat -> Answer) {
    forall x :: 0 <= x < |log| ==> Successes(log[..x]) + [log[x].context.step] <= Planned(q, log[..x], tape)
  }

  // ---------------------------------------------------------------- the itinerary by position

  /** What succeeded when the step at `p` is next. */
  function Upto(q: Request, inactive: bool, delegated: bool, p: Pos): seq<StepName> {
    var start := [StepValidateRequest, StepCheckActivateWallet];
    var kindChecked := Head(q, inactive) + [StepBeforeSendingCheckTransferKind];
    if p.stage == 0 then
      (match p.step
       case 0 => []
       case 1 => [StepValidateRequest]
       case 2 => start
       case 3 => start + [StepBeforeActivationCheckTransferKind]
       case 4 => start + [StepBeforeActivationCheckTransferKind, StepActiveWalletResources]
       case 5 => start + [StepBeforeActivationCheckTransferKind]
       case 6 => start + [StepBeforeActivationCheckTransferKind]
       case 7 => start + [StepBeforeActivationCheckTransferKind, StepActivateWalletBurnTRX]
       case 8 => Head(q, inactive)
       case 10 => kindChecked + [StepSendTRXForBurn]
       case 12 => kindChecked + [StepDelegateResources]
       case _ => kindChecked)
    else if p.stage == 1 then Prepared(q, inactive)
    else
      Prepared(q, inactive) +
      (match p.step
       case 0 => SENT[..1]
       case 1 => SENT[..2]
       case 2 => SENT[..3]
       case 3 => SENT
       case 4 => SENT + [StepReclaimResources]
       case _ => SENT + Reclaiming(q, delegated))
  }

  /** What is known of the wallet and the delegation when the step at `p` is next. */
  predicate Known(q: Request, inactive: bool, delegated: bool, p: Pos) {
    && (p.stage == 0 && p.step < 2 ==> !inactive)
    && (p.stage == 0 && 2 <= p.step < 8 ==> inactive && !q.nativeAsset)
    && (p.stage == 0 && p.step < 12 ==> !delegated)
    && (p == Pos(2, 4) ==> q.fromWallet == HotWallet && delegated)
  }

  function NameOf(p: Pos): StepName
    requires InTable(STAGES, p)
  {
    STAGES[p.stage].steps[p.step].name
  }

  /** The steps of the activation. */
  lemma NextInHead(q: Request, delegated: bool, p: Pos, name: StepName)
    requires p.stage == 0 && p.step < 8 && Reaches(q, p) && Home(name) == p
    requires p.step >= 2 ==> !q.nativeAsset
    ensures Upto(q, p.step >= 2, delegated, p) + [name] <= Head(q, p.step >= 2)
  {
  }

  /** The steps of the funding. */
  lemma NextInFunding(q: Request, inactive: bool, delegated: bool, p: Pos, name: StepName)
    requires p.stage == 0 && 8 <= p.step < 14 && Reaches(q, p) && Home(name) == p
    ensures Upto(q, inactive, delegated, p) + [name] <= Prepared(q, inactive)
  {
    hide Head, Reaches;
    var h, k := Head(q, inactive), [StepBeforeSendingCheckTransferKind];
    FundingNames(q, p, name);
    assert h + k + Funding(q) == h + (k + Funding(q));
  }

  lemma FundingNames(q: Request, p: Pos, name: StepName)
    requires p.stage == 0 && 8 <= p.step < 14 && Reaches(q, p) && Home(name) == p
    ensures if p.step == 8 then name == StepBeforeSendingCheckTransferKind
            else if p.step == 10 then [StepSendTRXForBurn, name] <= Funding(q)
            else if p.step == 12 then [StepDelegateResources, name] <= Funding(q)
            else [name] <= Funding(q)
  {
  }

  /** The steps after the transfer was sent. */
  lemma NextInRest(q: Request, inactive: bool, delegated: bool, p: Pos, name: StepName)
    requires 1 <= p.stage < 3 && (p.stage == 1 ==> p.step == 0) && (p.stage == 2 ==> p.step < 6) && Home(name) == p
    requires Reaches(q, p) && Known(q, inactive, delegated, p)
    ensures Upto(q, inactive, delegated, p) + [name] <= Itinerary(q, inactive, delegated)
  {
    hide Prepared, Reaches;
    var h, r := Prepared(q, inactive), Reclaiming(q, delegated);
    RestNames(q, delegated, p, name);
    assert h + SENT + r + [StepSendSuccessEvent] == h + (SENT + r + [StepSendSuccessEvent]);
  }

  lemma RestNames(q: Request, delegated: bool, p: Pos, name: StepName)
    requires 1 <= p.stage < 3 && (p.stage == 1 ==> p.step == 0) && (p.stage == 2 ==> p.step < 6) && Home(name) == p
    requires Reaches(q, p) && Known(q, false, delegated, p)
    ensures name == if p.stage == 1 then SENT[0] else if p.step < 3 then SENT[p.step + 1]
                    else if p.step == 3 then StepReclaimResources
                    else if p.step == 4 then StepWaitingReclaimResourcesConfirmations else StepSendSuccessEvent
    ensures p == Pos(2, 3) ==> [name] <= Reclaiming(q, delegated)
    ensures p == Pos(2, 4) ==> [StepReclaimResources, name] <= Reclaiming(q, delegated)
  {
  }

  /** The step at `p` follows what succeeded before. */
  lemma NextIs(q: Request, inactive: bool, delegated: bool, p: Pos)
    requires InTable(STAGES, p) && p.stage < 3 && Reaches(q, p) && Known(q, inactive, delegated, p)
    ensures Upto(q, inactive, delegated, p) + [NameOf(p)] <= Itinerary(q, inactive, delegated)
  {
    hide Upto, Head, Reaches, Funding, Reclaiming, NameOf;
    Table();
    NameOfIsHome(p);
    var name := NameOf(p);
    if p.stage > 0 {
      NextInRest(q, inactive, delegated, p, name);
    } else if p.step < 8 {
      NextInHead(q, delegated, p, name);
    } else {
      NextInFunding(q, inactive, delegated, p, name);
    }
  }

  lemma NameOfIsHome(p: Pos)
    requires InTable(STAGES, p)
    ensures Home(NameOf(p)) == p
  {
    HomeIs(p.stage, p.step);
  }

  // ---------------------------------------------------------------------- one step of the way

  /** The answer finds the wallet inactive. */
  predicate Finds(p: Pos, a: Answer) {
    p == Pos(0, 1) && a.activated == Some(false)
  }

  /** The answer delegates something. */
  predicate Delegates(p: Pos, a: Answer) {
    p == Pos(0, 11) && (a.energy.Broadcast? || a.bandwidth.Broadcast?)
  }

  /** One more step succeeded. */
  predicate Extends(q: Request, inactive: bool, delegated: bool, p: Pos, a: Answer, to: Pos, name: StepName) {
    var i, d := inactive || Finds(p, a), delegated || Delegates(p, a);
    Known(q, i, d, to) && Upto(q, i, d, to) == Upto(q, inactive, delegated, p) + [name]
  }

  lemma CheckExtends(w: World, inactive: bool, delegated: bool, p: Pos, a: Answer, name: StepName)
    requires p.stage == 0 && p.step < 3 && Reaches(w.request, p) && Home(name) == p
    requires Known(w.request, inactive, delegated, p) && ActivationTurn(w, p.step, a).GoesOn?
    ensures Extends(w.request, inactive, delegated, p, a, ActivationTurn(w, p.step, a).to, name)
  {
    hide Recorded, Activation;
  }

  lemma ActivationExtends(w: World, inactive: bool, delegated: bool, p: Pos, a: Answer, name: StepName)
    requires p.stage == 0 && 3 <= p.step < 8 && Reaches(w.request, p) && Home(name) == p
    requires Known(w.request, inactive, delegated, p) && ActivationTurn(w, p.step, a).GoesOn?
    ensures Extends(w.request, inactive, delegated, p, a, ActivationTurn(w, p.step, a).to, name)
  {
    hide Recorded;
  }

  lemma KindExtends(q: Request, inactive: bool, delegated: bool, p: Pos, a: Answer, to: Pos)
    requires p == Pos(0, 8) && (to == Pos(0, 9) || to == Pos(0, 11) || to == Pos(0, 13))
    requires Known(q, inactive, delegated, p)
    ensures Extends(q, inactive, delegated, p, a, to, StepBeforeSendingCheckTransferKind)
  {
    hide Head;
  }

  /** A funding that a wait follows. */
  lemma FundingWaits(q: Request, inactive: bool, delegated: bool, p: Pos, a: Answer, name: StepName)
    requires p == Pos(0, 9) || p == Pos(0, 11)
    requires Home(name) == p && Known(q, inactive, delegated, p)
    ensures Extends(q, inactive, delegated, p, a, Next(p), name)
  {
    hide Head, Funding;
  }

  /** The last step of the funding. */
  lemma FundingEnds(q: Request, inactive: bool, delegated: bool, p: Pos, a: Answer, name: StepName)
    requires p.stage == 0 && 9 <= p.step < 14 && Reaches(q, p) && Home(name) == p
    requires (p.step == 9 ==> q.fromWallet == ProcessingWallet || q.nativeAsset) &&
             (p.step == 11 ==> q.fromWallet == ProcessingWallet)
    requires Known(q, inactive, delegated, p)
    ensures Extends(q, inactive, delegated, p, a, Pos(1, 0), name)
  {
    hide Head;
    var h := Head(q, inactive) + [StepBeforeSendingCheckTransferKind];
    if p.step == 10 || p.step == 12 {
      var first := if p.step == 10 then StepSendTRXForBurn else StepDelegateResources;
      assert h + [first, name] == h + [first] + [name];
    }
  }

  lemma FundingExtends(w: World, inactive: bool, delegated: bool, p: Pos, a: Answer, name: StepName)
    requires p.stage == 0 && 8 <= p.step < 14 && Reaches(w.request, p) && Home(name) == p
    requires Known(w.request, inactive, delegated, p) && FundingTurn(w, p.step, a).GoesOn?
    ensures Extends(w.request, inactive, delegated, p, a, FundingTurn(w, p.step, a).to, name)
  {
    hide Recorded, Extends, Known, Reaches;
    var to := FundingTurn(w, p.step, a).to;
    if p.step == 8 {
      KindExtends(w.request, inactive, delegated, p, a, to);
    } else if to == Pos(1, 0) {
      FundingEnds(w.request, inactive, delegated, p, a, name);
    } else {
      FundingWaits(w.request, inactive, delegated, p, a, name);
    }
  }

  lemma SendingExtends(q: Request, inactive: bool, delegated: bool, a: Answer)
    ensures Extends(q, inactive, delegated, Pos(1, 0), a, Pos(2, 0), StepSending)
  {
    hide Prepared;
    assert SENT[..1] == [StepSending];
  }

  lemma ConfirmationExtends(q: Request, inactive: bool, delegated: bool, p: Pos, a: Answer, name: StepName)
    requires p.stage == 2 && p.step < 2 && Home(name) == p
    ensures Extends(q, inactive, delegated, p, a, Next(p), name)
  {
    hide Prepared;
    assert SENT[..1] + [StepWaitingForTheFirstConfirmation] == SENT[..2];
    assert SENT[..2] + [StepWaitingConfirmations] == SENT[..3];
  }

  lemma AfterSendingExtends(q: Request, inactive: bool, delegated: bool, a: Answer)
    ensures Extends(q, inactive, delegated, Pos(2, 2), a, Pos(2, 3), StepAfterSendingCheckTransferKind)
    ensures Reclaiming(q, delegated) == [] ==>
              Extends(q, inactive, delegated, Pos(2, 2), a, Pos(2, 5), StepAfterSendingCheckTransferKind)
  {
    hide Prepared, Reclaiming;
    assert SENT[..3] + [StepAfterSendingCheckTransferKind] == SENT;
    assert SENT + [] == SENT;
  }

  lemma ReclaimExtends(q: Request, inactive: bool, delegated: bool, a: Answer)
    ensures Reclaiming(q, delegated) == [StepReclaimResources] ==>
              Extends(q, inactive, delegated, Pos(2, 3), a, Pos(2, 5), StepReclaimResources)
    ensures q.fromWallet == HotWallet && delegated ==>
              Extends(q, inactive, delegated, Pos(2, 3), a, Pos(2, 4), StepReclaimResources)
    ensures Reclaiming(q, delegated) == [StepReclaimResources, StepWaitingReclaimResourcesConfirmations] ==>
              Extends(q, inactive, delegated, Pos(2, 4), a, Pos(2, 5), StepWaitingReclaimResourcesConfirmations)
  {
    hide Prepared, Reclaiming;
  }

  lemma AfterExtends(w: World, inactive: bool, delegated: bool, p: Pos, a: Answer, name: StepName)
    requires p.stage == 2 && p.step < 6 && Reaches(w.request, p) && Home(name) == p
    requires Known(w.request, inactive, delegated, p) && AfterTurn(w, p.step, a).GoesOn?
    requires w.request.fromWallet != ProcessingWallet ==> delegated == w.delegatedFrom
    ensures Extends(w.request, inactive, delegated, p, a, AfterTurn(w, p.step, a).to, name)
  {
    hide Recorded, Extends;
    if p.step < 2 {
      ConfirmationExtends(w.request, inactive, delegated, p, a, name);
    } else if p.step == 2 {
      AfterSendingExtends(w.request, inactive, delegated, a);
    } else {
      ReclaimExtends(w.request, inactive, delegated, a);
    }
  }

  lemma TurnExtends(w: World, inactive: bool, delegated: bool, p: Pos, a: Answer)
    requires InTable(STAGES, p) && p.stage < 3 && At(w, p) && Known(w.request, inactive, delegated, p)
    requires TurnOf(w, p, a).GoesOn?
    requires w.request.fromWallet != ProcessingWallet ==> delegated == w.delegatedFrom
    ensures Extends(w.request, inactive, delegated, p, a, TurnOf(w, p, a).to, NameOf(p))
  {
    hide Recorded, Extends, ActivationTurn, FundingTurn, AfterTurn, NameOf, Spent, AllSeen, DiedByAnswer, Reaches,
      Known, HistoryAt;
    Table();
    NameOfIsHome(p);
    if p.stage == 1 {
      HomeNames(StepSending);
      SendingExtends(w.request, inactive, delegated, a);
    } else if p.stage == 2 {
      AfterExtends(w, inactive, delegated, p, a, NameOf(p));
    } else if p.step < 3 {
      CheckExtends(w, inactive, delegated, p, a, NameOf(p));
    } else if p.step < 8 {
      ActivationExtends(w, inactive, delegated, p, a, NameOf(p));
    } else {
      FundingExtends(w, inactive, delegated, p, a, NameOf(p));
    }
  }

  // ------------------------------------------------------------------------------ the way

  /** The call ended with the error of a transfer that cannot succeed, or with any error of a step that
      is not tried again. */
  predicate EndsRedirected(c: Call) {
    || c.outcome == Err(FailedTransfer)
    || (c.outcome == Err(Plain) &&
        c.context.step in [
          StepValidateRequest, StepCheckActivateWallet, StepActiveWalletResources, StepActivateWalletBurnTRX,
          StepBeforeSendingCheckTransferKind, StepSendTRXForBurn, StepDelegateResources, StepSending,
          StepAfterSendingCheckTransferKind, StepReclaimResources])
  }

  /** The success event was handled; it ends with the error that keeps the position. */
  predicate HandledSuccess(c: Call) {
    c.context.step == StepSendSuccessEvent && c.outcome == Err(ExitWorkflow)
  }

  ghost predicate Handled(log: seq<Call>) {
    exists x :: 0 <= x < |log| && HandledSuccess(log[x])
  }

  /** Where the driver is follows from its log. */
  ghost predicate OnWay(a: Driver<World>) {
    var q, tape := a.world.request, a.world.tape;
    var i, d := FoundInactive(a.log, tape), WasDelegated(a.log, tape);
    && |a.log| == a.world.read
    && Keeps(q, a.log, tape)
    && Known(q, i, d, a.pos) && Successes(a.log) == Upto(q, i, d, a.pos)
    && (a.phase == Live && q.fromWallet != ProcessingWallet ==> d == a.world.delegatedFrom)
    && (StatusCompleted in a.world.history <==> Handled(a.log))
    && (a.phase.Redirected? <==> a.log != [] && EndsRedirected(a.log[|a.log| - 1]))
    && (a.phase.Redirected? ==> KeepsPlace(a))
  }

  /** A redirect keeps where it was, and the details of the error if it has any. */
  ghost predicate KeepsPlace(a: Driver<World>)
    requires a.phase.Redirected? && a.log != []
  {
    var last := a.log[|a.log| - 1];
    PosOf(last) == a.pos && a.phase.customError == if last.outcome == Err(FailedTransfer) then Decodable else Absent
  }

  lemma SuccessesGrow(log: seq<Call>, c: Call)
    ensures Successes(log + [c]) == Successes(log) + if c.outcome.Done? then [c.context.step] else []
  {
    assert (log + [c])[..|log|] == log;
  }

  lemma FlagsGrow(log: seq<Call>, c: Call, tape: nat -> Answer)
    ensures FoundInactive(log + [c], tape) <==>
            FoundInactive(log, tape) ||
            (c.context.step == StepCheckActivateWallet && c.outcome.Done? && tape(|log|).activated == Some(false))
    ensures WasDelegated(log + [c], tape) <==>
            WasDelegated(log, tape) ||
            (c.context.step == StepDelegateResources && c.outcome.Done? &&
             (tape(|log|).energy.Broadcast? || tape(|log|).bandwidth.Broadcast?))
    ensures Handled(log + [c]) <==> Handled(log) || HandledSuccess(c)
  {
    var all := log + [c];
    assert all[|log|] == c && forall x :: 0 <= x < |log| ==> all[x] == log[x];
  }

  lemma KeepsGrow(q: Request, log: seq<Call>, c: Call, tape: nat -> Answer)
    requires Keeps(q, log, tape) && Successes(log) + [c.context.step] <= Planned(q, log, tape)
    ensures Keeps(q, log + [c], tape)
  {
    hide Planned, Successes;
    var all := log + [c];
    forall x | 0 <= x < |all| ensures Successes(all[..x]) + [all[x].context.step] <= Planned(q, all[..x], tape) {
      if x < |log| {
        assert all[..x] == log[..x] && all[x] == log[x];
      } else {
        assert all[..x] == log;
      }
    }
  }

  /** The call the driver makes at its step. */
  function CallAt(a: Driver<World>): Call
    requires InTable(STAGES, a.pos)
  {
    CallOf(a.pos.stage, a.pos.step, ContextOf(STAGES, a.pos), [], ReplyAt(MACHINE, a))
  }

  lemma FatalNames(p: Pos)
    requires InTable(STAGES, p) && p.stage < 3
    ensures Fatal(p) <==> NameOf(p) in [
              StepValidateRequest, StepCheckActivateWallet, StepActiveWalletResources, StepActivateWalletBurnTRX,
              StepBeforeSendingCheckTransferKind, StepSendTRXForBurn, StepDelegateResources, StepSending,
              StepAfterSendingCheckTransferKind, StepReclaimResources]
    ensures p == Pos(2, 5) <==> NameOf(p) == StepSendSuccessEvent
    ensures p == Pos(0, 1) <==> NameOf(p) == StepCheckActivateWallet
    ensures p == Pos(0, 11) <==> NameOf(p) == StepDelegateResources
  {
    hide NameOf;
    NameOfIsHome(p);
    NamesAt(StepValidateRequest);
    NamesAt(StepCheckActivateWallet);
    NamesAt(StepActiveWalletResources);
    NamesAt(StepActivateWalletBurnTRX);
    NamesAt(StepBeforeSendingCheckTransferKind);
    NamesAt(StepSendTRXForBurn);
    NamesAt(StepDelegateResources);
    NamesAt(StepSending);
    NamesAt(StepAfterSendingCheckTransferKind);
    NamesAt(StepReclaimResources);
    NamesAt(StepSendSuccessEvent);
  }

  lemma NamesAt(name: StepName)
    ensures var p := Home(name); p.stage < 4 ==> InTable(STAGES, p) && NameOf(p) == name
  {
    HomeNames(name);
  }

  /** What a reply says of the turn. */
  ghost predicate Says(w: World, p: Pos, x: Answer, o: Outcome, moves: bool) {
    && (o.Done? <==> moves)
    && (moves <==> !x.death.DiesFirst? && TurnOf(w, p, x).GoesOn?)
    && (o == Err(ExitWorkflow) ==> p == Pos(2, 5))
    && (p == Pos(2, 5) ==> if x.death.DiesFirst? then o == Died else o == Err(ExitWorkflow))
  }

  lemma ReplySays(w: World, p: Pos)
    requires InTable(STAGES, p) && At(w, p) && p.stage < 3
    ensures var x := w.tape(w.read);
            Says(w, p, x, CallStep(w, ContextOf(STAGES, p)).outcome, !x.death.DiesFirst? && TurnOf(w, p, x).GoesOn?)
  {
    hide CallStep, At, ContextOf, ActivationTurn, FundingTurn, Leaves;
    if w.tape(w.read).death.DiesFirst? {
      DyingReplies(w, p);
    } else {
      CallReplies(w, p);
    }
  }

  lemma CallIsAt(a: Driver<World>)
    requires InTable(STAGES, a.pos)
    ensures var c := CallAt(a);
            && PosOf(c) == a.pos && c.context.step == NameOf(a.pos)
            && c.outcome == CallStep(a.world, ContextOf(STAGES, a.pos)).outcome
  {
    hide CallStep;
    CallIsReply(a);
  }

  lemma StepSays(a: Driver<World>)
    requires Inv(a) && a.phase == Live
    ensures var w, p, x, c := a.world, a.pos, a.world.tape(a.world.read), CallAt(a);
            && DriveStep(MACHINE, a).log == a.log + [c] && c.context.step == NameOf(p)
            && Says(w, p, x, c.outcome, c.outcome.Done?)
  {
    hide CallStep, ReplyAt, DriveStep, At, TurnOf, Home, NameOf, ContextOf, Says, Routed, FundedFirst, Funded, Safe;
    InvStep(a);
    StepLogs(MACHINE, a);
    CallIsAt(a);
    ReplySays(a.world, a.pos);
    SaysByOutcome(a.world, a.pos, a.world.tape(a.world.read), CallAt(a).outcome);
  }

  lemma SaysByOutcome(w: World, p: Pos, x: Answer, o: Outcome)
    requires Says(w, p, x, o, !x.death.DiesFirst? && TurnOf(w, p, x).GoesOn?)
    ensures Says(w, p, x, o, o.Done?)
  {
    hide TurnOf;
  }

  /** Where the driver goes with its call. */
  lemma StepLeads(a: Driver<World>)
    requires Inv(a) && a.phase == Live
    ensures var p, b, c, t := a.pos, DriveStep(MACHINE, a), CallAt(a),
            TurnOf(a.world, a.pos, a.world.tape(a.world.read));
            && (if c.outcome.Done? then b.phase == Live && t.GoesOn? && b.pos == t.to else b.pos == p)
            && (b.phase.Redirected? <==> c.outcome == Err(FailedTransfer) || (c.outcome == Err(Plain) && Fatal(p)))
            && (b.phase.Redirected? ==>
                  b.phase.customError == if c.outcome == Err(FailedTransfer) then Decodable else Absent)
  {
    hide CallStep, DriveStep, At, TurnOf, Home, ContextOf, Leaves, Reaches, Out, Stored, NameOf, ReplyAt, HistoryAt,
         Spent, AllSeen, JumpOk, Goal;
    TronTurns(a);
    StepSays(a);
    var w, p := a.world, a.pos;
    CallAdvances(w, p);
    var r :| r == CallStep(w, ContextOf(STAGES, p)) && Advances(Taken(w), p, r);
    CallIsReply(a);
    GoesOnly(a, r);
    TurnsRead(a);
  }

  lemma TurnsRead(a: Driver<World>)
    requires Inv(a) && a.phase == Live
    ensures var w, x, b := a.world, a.world.tape(a.world.read), DriveStep(MACHINE, a);
            && b.world.read == w.read + 1 && SameSetup(w, b.world)
            && b.world.history == w.history +
               (if x.death.DiesFirst? then [] else Stored(a.pos, TurnOf(w, a.pos, x)))
            && b.world.delegatedFrom == (w.delegatedFrom ||
                 (!x.death.DiesFirst? && a.pos == Pos(0, 11) && Out(w, a.pos, x) != [] && !x.death.DiesSent?))
            && (!x.death.DiesFirst? && TurnOf(w, a.pos, x).GoesOn? ==>
                  b.phase == Live && b.pos == TurnOf(w, a.pos, x).to)
            && (!x.death.DiesFirst? && TurnOf(w, a.pos, x).Compensates? ==> b.phase != Live)
  {
    hide DriveStep, At, TurnOf, Home, Out, Stored, Txs, Committed;
    TronTurns(a);
  }

  /** What is known of the delegation of a transfer that goes on. */
  lemma DelegationIs(w: World, p: Pos, x: Answer)
    requires w.request.fromWallet != ProcessingWallet && !TurnOf(w, p, x).Compensates?
    ensures (p == Pos(0, 11) && Out(w, p, x) != [] && !x.death.DiesSent?) <==>
            TurnOf(w, p, x).GoesOn? && Delegates(p, x)
  {
    hide ActivationTurn, AfterTurn;
  }

  /** What the driver stores with its call. */
  lemma StepStores(a: Driver<World>)
    requires Inv(a) && a.phase == Live
    ensures var w, p, x, b, c := a.world, a.pos, a.world.tape(a.world.read), DriveStep(MACHINE, a), CallAt(a);
            && (StatusCompleted in b.world.history <==> StatusCompleted in w.history || HandledSuccess(c))
            && (b.phase == Live && w.request.fromWallet != ProcessingWallet ==>
                  b.world.delegatedFrom == (w.delegatedFrom || (c.outcome.Done? && Delegates(p, x))))
  {
    hide CallStep, DriveStep, At, TurnOf, Home, ContextOf, Leaves, Reaches, Out, NameOf, CallAt, Delegates;
    var w, p, x := a.world, a.pos, a.world.tape(a.world.read);
    StepSays(a);
    TurnsRead(a);
    FatalNames(p);
    if w.request.fromWallet != ProcessingWallet && !x.death.DiesFirst? && !TurnOf(w, p, x).Compensates? {
      DelegationIs(w, p, x);
    }
  }

  /** A step that succeeds makes the way longer, any other call leaves it as it is. */
  lemma WayGrows(a: Driver<World>, c: Call)
    requires Inv(a) && a.phase == Live && OnWay(a) && c == CallAt(a)
    ensures var w, q, tape, log, b := a.world, a.world.request, a.world.tape, a.log + [c], DriveStep(MACHINE, a);
            var i, d := FoundInactive(log, tape), WasDelegated(log, tape);
            && Keeps(q, log, tape) && Known(q, i, d, b.pos) && Successes(log) == Upto(q, i, d, b.pos)
            && d == (WasDelegated(a.log, tape) || (c.outcome.Done? && Delegates(a.pos, tape(w.read))))
  {
    hide CallStep, DriveStep, TurnOf, Home, ContextOf, Reaches, Upto, Known, Planned, FoundInactive, WasDelegated,
      Successes, NameOf, CallAt, Keeps, Checked, Spent, AllSeen, HistoryAt, DiedByAnswer, Says;
    var w, q, p, tape := a.world, a.world.request, a.pos, a.world.tape;
    var i, d := FoundInactive(a.log, tape), WasDelegated(a.log, tape);
    StepSays(a);
    StepLeads(a);
    FatalNames(p);
    FlagsGrow(a.log, c, tape);
    SuccessesGrow(a.log, c);
    NextIs(q, i, d, p);
    PlannedIs(q, a.log, tape);
    KeepsGrow(q, a.log, c, tape);
    if c.outcome.Done? {
      TurnExtends(w, i, d, p, tape(w.read));
    }
  }

  lemma PlannedIs(q: Request, log: seq<Call>, tape: nat -> Answer)
    ensures Planned(q, log, tape) == Itinerary(q, FoundInactive(log, tape), WasDelegated(log, tape))
  {
  }

  lemma WayStep(a: Driver<World>)
    requires Inv(a) && a.phase == Live && OnWay(a)
    ensures OnWay(DriveStep(MACHINE, a))
  {
    hide CallStep, DriveStep, TurnOf, Home, ContextOf, Reaches, Upto, Known, Planned, FoundInactive, WasDelegated,
      Successes, NameOf, CallAt, Keeps, At, Delegates, HandledSuccess, Handled, Says, PosOf;
    var c := CallAt(a);
    CallIsAt(a);
    WayGrows(a, c);
    StepSays(a);
    StepLeads(a);
    StepStores(a);
    InvStep(a);
    TurnsRead(a);
    FatalNames(a.pos);
    FlagsGrow(a.log, c, a.world.tape);
  }

  lemma WayStarts(w: World)
    requires w == Begin(w.request, w.tape)
    ensures OnWay(Start(MACHINE, w))
  {
  }

  lemma {:induction false} WayDrive(w: World, n: nat)
    requires w == Begin(w.request, w.tape)
    ensures OnWay(Drive(MACHINE, Start(MACHINE, w), n))
  {
    hide CallStep, DriveStep, OnWay, Inv;
    if n == 0 {
      WayStarts(w);
    } else {
      WayDrive(w, n - 1);
      InvDrive(w, n - 1);
      var a := Drive(MACHINE, Start(MACHINE, w), n - 1);
      if a.phase == Live {
        WayStep(a);
      } else {
        StopsMoving(MACHINE, a);
      }
    }
  }

  // ------------------------------------------------------------------------ the theorem

  lemma {:induction false} SuccessesBare(log: seq<Call>)
    ensures Successes(Bare(log)) == Successes(log)
  {
    if log != [] {
      var n := |log| - 1;
      assert Bare(log)[..n] == Bare(log[..n]);
      SuccessesBare(log[..n]);
    }
  }

  lemma FlagsBare(log: seq<Call>, tape: nat -> Answer)
    ensures FoundInactive(Bare(log), tape) == FoundInactive(log, tape)
    ensures WasDelegated(Bare(log), tape) == WasDelegated(log, tape)
    ensures Handled(Bare(log)) == Handled(log)
  {
    assert forall x :: 0 <= x < |log| ==>
           Bare(log)[x].context == log[x].context && Bare(log)[x].outcome == log[x].outcome;
  }

  lemma KeepsBare(q: Request, log: seq<Call>, tape: nat -> Answer)
    requires Keeps(q, Bare(log), tape)
    ensures Keeps(q, log, tape)
  {
    hide Planned, Successes;
    forall x | 0 <= x < |log| ensures Successes(log[..x]) + [log[x].context.step] <= Planned(q, log[..x], tape) {
      assert Bare(log)[..x] == Bare(log[..x]) && Bare(log)[x].context == log[x].context;
      SuccessesBare(log[..x]);
      PlannedBare(q, log[..x], tape);
    }
  }

  lemma PlannedBare(q: Request, log: seq<Call>, tape: nat -> Answer)
    ensures Planned(q, Bare(log), tape) == Planned(q, log, tape)
  {
    FlagsBare(log, tape);
  }

  /** Two steps that succeeded one after the other. */
  ghost predicate Succeeded(log: seq<Call>, first: StepName, second: StepName) {
    exists x, y :: 0 <= x < y < |log| && log[x].context.step == first && log[x].outcome.Done? &&
      log[y].context.step == second && log[y].outcome.Done?
  }

  lemma {:induction false} OneSuccess(log: seq<Call>, n: nat)
    requires n < |Successes(log)|
    ensures exists x :: 0 <= x < |log| && log[x].context.step == Successes(log)[n] && log[x].outcome.Done?
  {
    var m := |log| - 1;
    if n < |Successes(log[..m])| {
      OneSuccess(log[..m], n);
      var x :| 0 <= x < m && log[..m][x].context.step == Successes(log)[n] && log[..m][x].outcome.Done?;
      assert log[x] == log[..m][x];
    } else {
      assert log[m].outcome.Done?;
    }
  }

  lemma {:induction false} TwoSuccesses(log: seq<Call>, n: nat, k: nat)
    requires n < k < |Successes(log)|
    ensures Succeeded(log, Successes(log)[n], Successes(log)[k])
  {
    var m := |log| - 1;
    if k < |Successes(log[..m])| {
      TwoSuccesses(log[..m], n, k);
      var x, y :| 0 <= x < y < m && log[..m][x].context.step == Successes(log)[n] && log[..m][x].outcome.Done? &&
        log[..m][y].context.step == Successes(log)[k] && log[..m][y].outcome.Done?;
      assert log[x] == log[..m][x] && log[y] == log[..m][y];
    } else {
      OneSuccess(log[..m], n);
      var x :| 0 <= x < m && log[..m][x].context.step == Successes(log)[n] && log[..m][x].outcome.Done?;
      assert log[x] == log[..m][x] && log[m].outcome.Done?;
    }
  }

  /** What a hot wallet was delegated is reclaimed, and seen to be, before the success event. */
  ghost predicate GivesBack(q: Request, log: seq<Call>, tape: nat -> Answer) {
    q.kind == Some(Resources) && q.fromWallet == HotWallet ==>
      forall z :: 0 <= z < |log| && log[z].context.step == StepSendSuccessEvent && WasDelegated(log[..z], tape) ==>
        Succeeded(log[..z], StepReclaimResources, StepWaitingReclaimResourcesConfirmations)
  }

  const ACTIVATION := [
    StepBeforeActivationCheckTransferKind, StepActiveWalletResources, StepWaitingResourcesActivateWalletConfirmations,
    StepWaitingExternalActivateWalletConfirmations, StepActivateWalletBurnTRX, StepWaitingActivateWalletConfirmations]

  /** Only a wallet that was found inactive before, and holds a token, is activated; and then it is
      activated before the transfer is sent. */
  ghost predicate ActivatesInactive(q: Request, log: seq<Call>, tape: nat -> Answer) {
    forall z :: 0 <= z < |log| ==>
      && (log[z].context.step in ACTIVATION ==> FoundInactive(log[..z], tape) && !q.nativeAsset)
      && (log[z].context.step == StepSending && FoundInactive(log[..z], tape) && !q.nativeAsset ==>
            Succeeded(log[..z], StepCheckActivateWallet, Activation(q)[|Activation(q)| - 1]))
  }

  lemma SuccessEventIsLast(q: Request, inactive: bool, delegated: bool, done: seq<StepName>)
    requires done + [StepSendSuccessEvent] <= Itinerary(q, inactive, delegated)
    ensures done == Prepared(q, inactive) + SENT + Reclaiming(q, delegated)
  {
    var all, n := Itinerary(q, inactive, delegated), |done|;
    assert (done + [StepSendSuccessEvent])[n] == all[n] == StepSendSuccessEvent;
    assert n == |all| - 1;
    assert all[..n] == Prepared(q, inactive) + SENT + Reclaiming(q, delegated);
    assert done == (done + [StepSendSuccessEvent])[..n];
  }

  lemma KeepsGivesBack(q: Request, log: seq<Call>, tape: nat -> Answer)
    requires Keeps(q, log, tape)
    ensures GivesBack(q, log, tape)
  {
    hide Successes, FoundInactive, WasDelegated, Prepared;
    if q.kind == Some(Resources) && q.fromWallet == HotWallet {
      forall z | 0 <= z < |log| && log[z].context.step == StepSendSuccessEvent && WasDelegated(log[..z], tape)
        ensures Succeeded(log[..z], StepReclaimResources, StepWaitingReclaimResourcesConfirmations)
      {
        var done := Successes(log[..z]);
        assert done + [StepSendSuccessEvent] <= Planned(q, log[..z], tape);
        SuccessEventIsLast(q, FoundInactive(log[..z], tape), true, done);
        TwoSuccesses(log[..z], |done| - 2, |done| - 1);
      }
    }
  }

  lemma ActivationIsAsked(q: Request, inactive: bool, delegated: bool, k: nat)
    requires k < |Itinerary(q, inactive, delegated)| && Itinerary(q, inactive, delegated)[k] in ACTIVATION
    ensures inactive && !q.nativeAsset
  {
  }

  lemma SendingIsAfter(q: Request, inactive: bool, delegated: bool, k: nat)
    requires k < |Itinerary(q, inactive, delegated)| && Itinerary(q, inactive, delegated)[k] == StepSending
    ensures Itinerary(q, inactive, delegated)[..k] == Prepared(q, inactive)
  {
  }

  lemma HeadOf(q: Request)
    requires !q.nativeAsset
    ensures var head, all, n := Head(q, true), Activation(q), |Activation(q)|;
            1 < |head| - 1 && head[1] == StepCheckActivateWallet && head[|head| - 1] == all[n - 1]
  {
  }

  lemma SendsActivated(q: Request, log: seq<Call>, tape: nat -> Answer)
    requires Successes(log) + [StepSending] <= Planned(q, log, tape) && FoundInactive(log, tape) && !q.nativeAsset
    ensures Succeeded(log, StepCheckActivateWallet, Activation(q)[|Activation(q)| - 1])
  {
    hide Successes, FoundInactive, WasDelegated, Itinerary, Head, Activation;
    var done, all := Successes(log), Planned(q, log, tape);
    assert (done + [StepSending])[|done|] == all[|done|];
    SendingIsAfter(q, true, WasDelegated(log, tape), |done|);
    assert done == all[..|done|] == Prepared(q, true);
    HeadOf(q);
    TwoSuccesses(log, 1, |Head(q, true)| - 1);
  }

  lemma KeepsActivates(q: Request, log: seq<Call>, tape: nat -> Answer)
    requires Keeps(q, log, tape)
    ensures ActivatesInactive(q, log, tape)
  {
    hide Successes, FoundInactive, WasDelegated, Itinerary, Succeeded;
    forall z | 0 <= z < |log|
      ensures log[z].context.step in ACTIVATION ==> FoundInactive(log[..z], tape) && !q.nativeAsset
      ensures log[z].context.step == StepSending && FoundInactive(log[..z], tape) && !q.nativeAsset ==>
                Succeeded(log[..z], StepCheckActivateWallet, Activation(q)[|Activation(q)| - 1])
    {
      var done, all, name := Successes(log[..z]), Planned(q, log[..z], tape), log[z].context.step;
      assert (done + [name])[|done|] == all[|done|];
      if name in ACTIVATION {
        ActivationIsAsked(q, FoundInactive(log[..z], tape), WasDelegated(log[..z], tape), |done|);
      }
      if name == StepSending && FoundInactive(log[..z], tape) && !q.nativeAsset {
        SendsActivated(q, log[..z], tape);
      }
    }
  }

  /** What the failure callback leaves sends the next run to the compensation. */
  ghost predicate RedirectedBy(s: Session<World>) {
    SentToCompensate(s.stored) <==> s.log != [] && EndsRedirected(s.log[|s.log| - 1])
  }

  lemma RedirectIs(s: Session<World>, b: Driver<World>)
    requires Between(MACHINE, s, b) && Inv(b) && OnWay(b)
    ensures RedirectedBy(s)
  {
    hide OnWay, At, EndsRedirected;
    LastIs(s, b);
    if b.phase.Redirected? {
      NotReached(s, b);
    }
  }

  lemma LastIs(s: Session<World>, b: Driver<World>)
    requires Between(MACHINE, s, b) && OnWay(b)
    ensures b.phase.Redirected? <==> s.log != [] && EndsRedirected(s.log[|s.log| - 1])
  {
    hide Keeps, Known, Upto, Successes, FoundInactive, WasDelegated, Handled;
  }

  /** After any number of runs and deaths, up to the first redirect: every call is to the step of the
      itinerary that follows those that succeeded before, so a transfer makes exactly the steps its kind,
      its wallet and its asset ask for, in order. In particular only a wallet that was found inactive is
      activated, and then before the transfer is sent; and what was delegated for a hot wallet is
      reclaimed and seen before the success event, which is when a transfer is stored as completed. The
      next run compensates if and only if the last call ended with the error of a transfer that cannot
      succeed, or with any error at a step that is not tried again. */
  lemma TronItinerary(request: Request, tape: nat -> Answer, k: nat) returns (j: nat)
    ensures j <= k
    ensures var s := Runs(MACHINE, Fresh(Begin(request, tape)), j);
            && |s.log| == s.world.read && Keeps(request, s.log, tape)
            && GivesBack(request, s.log, tape) && ActivatesInactive(request, s.log, tape)
            && (StatusCompleted in s.world.history <==> Handled(s.log))
            && RedirectedBy(s) && (j < k ==> SentToCompensate(s.stored))
  {
    hide CallStep, Recorded, RunOnce, Keeps, GivesBack, ActivatesInactive, Handled, RedirectedBy, Successes, Upto,
      Known, FoundInactive, WasDelegated, EndsRedirected;
    Table();
    TableIsDistinct();
    var w := Begin(request, tape);
    AlwaysGoesForward(w);
    var n;
    n, j := RunsRefineDriver(MACHINE, w, k);
    InvDrive(w, n);
    WayDrive(w, n);
    var b, s := Drive(MACHINE, Start(MACHINE, w), n), Runs(MACHINE, Fresh(w), j);
    KeepsBare(request, s.log, tape);
    FlagsBare(s.log, tape);
    KeepsGivesBack(request, s.log, tape);
    KeepsActivates(request, s.log, tape);
    RedirectIs(s, b);
    if j < k {
      NotReached(s, b);
    }
  }
}
