/** What a Tron transfer does after its process died right after a broadcast: the steps do not look for
    a transaction they sent before, and the waits that follow them count what was recorded. */
module FsmTronDeaths {
  import opened Wrappers
  import opened Names
  import opened Engine
  import opened Resumption
  import opened Transfers
  import opened FsmTron
  import opened FsmTronRouting
  import opened FsmTronCalls
  import opened FsmTronSafety

  // ------------------------------------------------------------- the interrupted step again

  /** The steps that broadcast one transaction. */
  predicate SendsOne(p: Pos) {
    p == Pos(0, 3) || p == Pos(0, 6) || p == Pos(0, 9) || p == Pos(1, 0)
  }

  function KindOf(p: Pos): TxType {
    if p.stage == 1 then Transfer else if p == Pos(0, 9) then SendBurnBaseAsset else AccountActivation
  }

  /** The process died right after the broadcast of a step, which is tried again. */
  ghost predicate LostIt(a: Driver<World>) {
    Inv(a) && a.phase == Live && SendsOne(a.pos) && a.world.deaths[KindOf(a.pos)] > 0
  }

  /** The step gets to work, and a transaction is built, affordable, and taken by the node. */
  predicate Broadcasts(p: Pos, a: Answer) {
    && !a.death.DiesFirst? && a.prepared && a.affordable && a.hash.Some? && a.accepted
    && (p == Pos(0, 6) ==> !a.feeIsZero)
  }

  /** Of the answers from one on, the first with which the step gets to work broadcasts. */
  ghost predicate BroadcastsAfter(p: Pos, tape: nat -> Answer, from: nat) {
    exists m :: from <= m && Broadcasts(p, tape(m)) && forall k :: from <= k < m ==> tape(k).death.DiesFirst?
  }

  /** Since the driver was `s` the process died `n` times before the step did anything. */
  ghost predicate RetriesAt(a: Driver<World>, s: Driver<World>, n: nat) {
    && LostIt(a) && a.pos == s.pos && SameSetup(s.world, a.world) && a.world.read == s.world.read + n
    && a.world.sends == s.world.sends && a.world.rows == s.world.rows
  }

  predicate SentAgain(b: Driver<World>, s: Driver<World>) {
    Sent(b.world, KindOf(s.pos)) > Sent(s.world, KindOf(s.pos))
  }

  /** The step was left without a second broadcast: for the compensation, or, by a free activation,
      for the wait. */
  ghost predicate Gone(b: Driver<World>, s: Driver<World>) {
    && Inv(b) && Sent(b.world, KindOf(s.pos)) == Sent(s.world, KindOf(s.pos))
    && if b.phase == Live then s.pos == Pos(0, 6) && Before(s.pos, b.pos) else b.phase.Redirected?
  }

  ghost predicate Follows(b: Driver<World>, s: Driver<World>, n: nat) {
    var a := s.world.tape(s.world.read + n);
    if a.death.DiesFirst? then RetriesAt(b, s, n + 1) else if Broadcasts(s.pos, a) then SentAgain(b, s) else Gone(b, s)
  }

  /** The reply of an interrupted step that is tried again. */
  ghost predicate LostReply(w: World, p: Pos, r: Reply<World>) {
    var a, v := w.tape(w.read), Taken(w);
    if a.death.DiesFirst? then r == Die(v)
    else if Broadcasts(p, a) then r.world.sends == v.sends + Txs(KindOf(p), [a.hash.value])
    else r == Refuse(v) || (p == Pos(0, 6) && r == Succeed(v))
  }

  /** An interrupted funding by burning is that of a token of a hot wallet. */
  lemma LostBurnNeeds(w: World)
    requires BurnSpent(w, Pos(0, 9)) && w.deaths[SendBurnBaseAsset] > 0
    ensures w.request.fromWallet == HotWallet && !w.request.nativeAsset
  {
    hide Recorded;
  }

  lemma SendReplies(w: World, p: Pos, c: Context)
    requires SendsOne(p) && TxTypeOf(c.currentStep) == Some(KindOf(p)) && !w.tape(w.read).death.DiesFirst?
    requires w.tape(w.read).prepared && w.tape(w.read).affordable && (p == Pos(0, 6) ==> !w.tape(w.read).feeIsZero)
    ensures LostReply(w, p, Send(Taken(w), w.tape(w.read), c, KindOf(p)))
  {
  }

  lemma ActivationReplies(w: World, p: Pos)
    requires InTable(STAGES, p) && (p == Pos(0, 3) || p == Pos(0, 6))
    ensures LostReply(w, p, CallStep(w, ContextOf(STAGES, p)))
  {
    var c, a := ContextOf(STAGES, p), w.tape(w.read);
    ContextIs(p, if p == Pos(0, 3) then StepActiveWalletResources else StepActivateWalletBurnTRX);
    if !a.death.DiesFirst? && a.prepared && a.affordable && (p == Pos(0, 6) ==> !a.feeIsZero) {
      SendReplies(w, p, c);
    }
  }

  lemma BurnReplies(w: World, p: Pos)
    requires InTable(STAGES, p) && p == Pos(0, 9) && w.request.fromWallet == HotWallet && !w.request.nativeAsset
    ensures LostReply(w, p, CallStep(w, ContextOf(STAGES, p)))
  {
    var c, a := ContextOf(STAGES, p), w.tape(w.read);
    ContextIs(p, StepSendTRXForBurn);
    if !a.death.DiesFirst? && a.prepared && a.affordable {
      SendReplies(w, p, c);
    }
  }

  lemma TransferReplies(w: World, p: Pos)
    requires InTable(STAGES, p) && p == Pos(1, 0)
    ensures LostReply(w, p, CallStep(w, ContextOf(STAGES, p)))
  {
    var c, a := ContextOf(STAGES, p), w.tape(w.read);
    ContextIs(p, StepSending);
    if !a.death.DiesFirst? && a.prepared && a.affordable {
      SendReplies(w, p, c);
    }
  }

  lemma LostReplies(a: Driver<World>)
    requires LostIt(a)
    ensures InTable(STAGES, a.pos) && LostReply(a.world, a.pos, CallStep(a.world, ContextOf(STAGES, a.pos)))
  {
    hide Recorded, LostReply;
    if a.pos == Pos(0, 9) {
      LostBurnNeeds(a.world);
      BurnReplies(a.world, a.pos);
    } else if a.pos == Pos(1, 0) {
      TransferReplies(a.world, a.pos);
    } else {
      ActivationReplies(a.world, a.pos);
    }
  }

  lemma SendsMore(w: World, v: World, kind: TxType, hash: nat)
    requires v.sends == w.sends + Txs(kind, [hash])
    ensures Sent(v, kind) == Sent(w, kind) + 1
  {
    assert Txs(kind, [hash]) == [Tx(kind, hash)];
    RecordedGrows(w.sends, Tx(kind, hash), kind);
  }

  lemma RetriesOnce(a: Driver<World>, s: Driver<World>, n: nat)
    requires RetriesAt(a, s, n)
    ensures Follows(DriveStep(MACHINE, a), s, n)
  {
    hide Recorded, At, Advances, LostReply;
    CallAdvances(a.world, a.pos);
    var r :| r == CallStep(a.world, ContextOf(STAGES, a.pos)) && Advances(Taken(a.world), a.pos, r);
    LostReplies(a);
    StepFollows(a, s, n, r);
  }

  /** Where a step whose reply is known leads. */
  ghost predicate Leads(a: Driver<World>, r: Reply<World>, b: Driver<World>) {
    && Inv(b) && SameSetup(a.world, b.world) && b.world == r.world
    && match r.outcome
       case Done => b.phase == Live && Before(a.pos, b.pos)
       case Died => b.phase == Live && b.pos == a.pos
       case Err(e) => b.pos == a.pos && if Retried(a.pos, e) then b.phase == Live else b.phase.Redirected?
  }

  lemma StepLeads(a: Driver<World>, r: Reply<World>)
    requires Inv(a) && a.phase == Live && r == ReplyAt(MACHINE, a) && Advances(Taken(a.world), a.pos, r)
    ensures Leads(a, r, DriveStep(MACHINE, a))
  {
    hide Recorded, At, ReplyAt, DriveStep;
    assert Advances(a.world, a.pos, r);
    InvFollows(a, r);
    Goes(a, r);
    if r.outcome.Done? {
      GoalIsAhead(a.pos, r);
    }
  }

  lemma GoalIsAhead(p: Pos, r: Reply<World>)
    requires InTable(STAGES, p) && JumpOk(p, r)
    ensures Before(p, Goal(p, r))
  {
  }

  lemma StepFollows(a: Driver<World>, s: Driver<World>, n: nat, r: Reply<World>)
    requires RetriesAt(a, s, n) && r == ReplyAt(MACHINE, a) && Advances(Taken(a.world), a.pos, r) &&
             LostReply(a.world, a.pos, r)
    ensures Follows(DriveStep(MACHINE, a), s, n)
  {
    hide Recorded, At, ReplyAt, DriveStep, LostReply, Advances, Follows;
    StepLeads(a, r);
    ReplyFollows(a, s, n, r, DriveStep(MACHINE, a));
  }

  lemma ReplyFollows(a: Driver<World>, s: Driver<World>, n: nat, r: Reply<World>, b: Driver<World>)
    requires RetriesAt(a, s, n) && Leads(a, r, b) && LostReply(a.world, a.pos, r)
    ensures Follows(b, s, n)
  {
    hide Recorded, Inv;
    if Broadcasts(s.pos, a.world.tape(a.world.read)) {
      SendsMore(a.world, r.world, KindOf(a.pos), a.world.tape(a.world.read).hash.value);
    }
  }

  // --------------------------------------------------------------- nothing is sent elsewhere

  /** The type of the transactions a step broadcasts. */
  function Sends(step: StepName): Option<TxType> {
    match step
    case StepActiveWalletResources | StepActivateWalletBurnTRX => Some(AccountActivation)
    case StepSendTRXForBurn => Some(SendBurnBaseAsset)
    case StepDelegateResources => Some(DelegateResources)
    case StepSending => Some(Transfer)
    case StepReclaimResources | StepReclaimOnError => Some(ReclaimResources)
    case _ => None
  }

  ghost predicate SendsOnly(w: World, v: World, kind: Option<TxType>) {
    v.sends == w.sends || (kind.Some? && exists hashes :: v.sends == w.sends + Txs(kind.value, hashes))
  }

  lemma SendSends(w: World, a: Answer, c: Context, kind: TxType)
    ensures SendsOnly(w, Send(w, a, c, kind).world, Some(kind))
  {
    hide Txs;
    if a.hash.Some? && TxTypeOf(c.currentStep).Some? && a.accepted {
      assert Send(w, a, c, kind).world.sends == w.sends + Txs(kind, [a.hash.value]);
    }
  }

  lemma SendingSends(w: World, a: Answer, c: Context)
    ensures SendsOnly(w, ActivateWalletResources(w, a, c).world, Some(AccountActivation))
    ensures SendsOnly(w, ActivateWalletBurnTRX(w, a, c).world, Some(AccountActivation))
    ensures SendsOnly(w, SendTRXForBurn(w, a, c).world, Some(SendBurnBaseAsset))
    ensures SendsOnly(w, Sending(w, a, c).world, Some(Transfer))
  {
    hide Txs, Send;
    SendSends(w, a, c, AccountActivation);
    SendSends(w, a, c, SendBurnBaseAsset);
    SendSends(w, a, c, Transfer);
  }

  lemma DelegatingSends(w: World, a: Answer, c: Context)
    ensures SendsOnly(w, Delegate(w, a, c).world, Some(DelegateResources))
  {
    hide PartHashes;
  }

  lemma ReclaimingSends(w: World, a: Answer, c: Context)
    ensures SendsOnly(w, Reclaim(w, a, c).world, Some(ReclaimResources))
    ensures SendsOnly(w, ReclaimOnError(w, a, c).world, Some(ReclaimResources))
  {
    hide ReclaimLoops;
  }

  lemma CheckingSends(w: World, a: Answer)
    ensures WaitingDelegate(w, a).world.sends == w.sends && WaitingReclaim(w, a).world.sends == w.sends
  {
    hide Recorded;
    CheckAllIsSeen(w, a, Recorded(w.rows, DelegateResources));
    CheckAllIsSeen(w, a, Recorded(w.rows, ReclaimResources));
  }

  lemma CallSends(w: World, c: Context)
    ensures SendsOnly(w, CallStep(w, c).world, Sends(c.step))
  {
    hide Recorded, SendsOnly, Delegate, Reclaim, ReclaimOnError, ActivateWalletResources, ActivateWalletBurnTRX,
         SendTRXForBurn, Sending, CheckAll;
    var v := Taken(w);
    SendingSends(v, w.tape(w.read), c);
    DelegatingSends(v, w.tape(w.read), c);
    ReclaimingSends(v, w.tape(w.read), c);
    CheckingSends(v, w.tape(w.read));
    SendsFrom(w, v, CallStep(w, c).world, Sends(c.step));
  }

  lemma SendsFrom(w: World, u: World, v: World, kind: Option<TxType>)
    requires u.sends == w.sends && (SendsOnly(u, v, kind) || v.sends == u.sends)
    ensures SendsOnly(w, v, kind)
  {
  }

  lemma OtherKind(w: World, v: World, kind: Option<TxType>, other: TxType)
    requires SendsOnly(w, v, kind) && kind != Some(other)
    ensures Sent(v, other) == Sent(w, other)
  {
    if v.sends != w.sends {
      var hashes :| v.sends == w.sends + Txs(kind.value, hashes);
      RecordedAll(w.sends, kind.value, hashes, other);
    }
  }

  lemma GoneStays(b: Driver<World>, s: Driver<World>)
    requires Gone(b, s)
    ensures Gone(DriveStep(MACHINE, b), s)
  {
    hide Recorded, At, Advances;
    if b.phase == Live {
      CallAdvances(b.world, b.pos);
      var r :| r == CallStep(b.world, ContextOf(STAGES, b.pos)) && Advances(Taken(b.world), b.pos, r);
      GoneOn(b, s, r);
    }
  }

  lemma GoneOn(b: Driver<World>, s: Driver<World>, r: Reply<World>)
    requires Gone(b, s) && b.phase == Live
    requires r == ReplyAt(MACHINE, b) && r == CallStep(b.world, ContextOf(STAGES, b.pos)) &&
             Advances(Taken(b.world), b.pos, r)
    ensures Gone(DriveStep(MACHINE, b), s)
  {
    hide Recorded, At, SendsOnly, CallStep, ReplyAt, DriveStep, Advances;
    StepLeads(b, r);
    SendsElsewhere(b.world, b.pos, r);
    LeadsOn(b, s, r, DriveStep(MACHINE, b));
  }

  /** Past the activation none is sent. */
  lemma SendsElsewhere(w: World, p: Pos, r: Reply<World>)
    requires InTable(STAGES, p) && Before(Pos(0, 6), p) && r == CallStep(w, ContextOf(STAGES, p))
    ensures Sent(r.world, AccountActivation) == Sent(w, AccountActivation)
  {
    hide Recorded, SendsOnly, CallStep;
    HomeIs(p.stage, p.step);
    CallSends(w, ContextOf(STAGES, p));
    OtherKind(w, r.world, Sends(ContextOf(STAGES, p).step), AccountActivation);
  }

  lemma LeadsOn(b: Driver<World>, s: Driver<World>, r: Reply<World>, c: Driver<World>)
    requires Gone(b, s) && b.phase == Live && Leads(b, r, c)
    requires Sent(r.world, AccountActivation) == Sent(b.world, AccountActivation)
    ensures Gone(c, s)
  {
    hide Recorded, Inv;
  }

  // ------------------------------------------------------------------------ the condition

  /** What the machine does with an interrupted step, and after it was left. The proofs about many
      steps need no more of it. */
  ghost predicate Retries(m: Machine<World>, s: Driver<World>) {
    && (forall a, n: nat {:trigger Follows(DriveStep(m, a), s, n)} :: RetriesAt(a, s, n) ==>
       Follows(DriveStep(m, a), s, n))
    && (forall b {:trigger Gone(DriveStep(m, b), s)} :: Gone(b, s) ==> Gone(DriveStep(m, b), s))
  }

  lemma TronRetries(s: Driver<World>)
    ensures Retries(MACHINE, s)
  {
    hide RetriesAt, Follows, Gone;
    forall a, n: nat | RetriesAt(a, s, n) ensures Follows(DriveStep(MACHINE, a), s, n) {
      RetriesOnce(a, s, n);
    }
    forall b | Gone(b, s) ensures Gone(DriveStep(MACHINE, b), s) {
      GoneStays(b, s);
    }
  }

  predicate OnlyDeaths(w: World, n: nat) {
    forall k :: w.read <= k < w.read + n ==> w.tape(k).death.DiesFirst?
  }

  ghost predicate Resent(s: Driver<World>) {
    BroadcastsAfter(s.pos, s.world.tape, s.world.read)
  }

  /** After `n` answers the step is still retried, or was left, or one of them broadcast. */
  ghost predicate Stands(a: Driver<World>, s: Driver<World>, n: nat) {
    (RetriesAt(a, s, n) && OnlyDeaths(s.world, n)) || Gone(a, s) || Resent(s)
  }

  lemma StandsOn(a: Driver<World>, b: Driver<World>, s: Driver<World>, n: nat)
    requires Stands(a, s, n) && (RetriesAt(a, s, n) ==> Follows(b, s, n)) && (Gone(a, s) ==> Gone(b, s))
    ensures Stands(b, s, n + 1)
  {
    hide RetriesAt, Gone;
    if RetriesAt(a, s, n) && OnlyDeaths(s.world, n) && Broadcasts(s.pos, s.world.tape(s.world.read + n)) {
      assert BroadcastsAfter(s.pos, s.world.tape, s.world.read);
    }
  }

  lemma {:induction false} StandsAfter(m: Machine<World>, s: Driver<World>, n: nat)
    requires Retries(m, s) && RetriesAt(s, s, 0)
    ensures Stands(Drive(m, s, n), s, n)
  {
    hide RetriesAt, Follows, Gone;
    if n > 0 {
      var c := Drive(m, s, n - 1);
      StandsAfter(m, s, n - 1);
      assert RetriesAt(c, s, n - 1) ==> Follows(DriveStep(m, c), s, n - 1);
      assert Gone(c, s) ==> Gone(DriveStep(m, c), s);
      StandsOn(c, DriveStep(m, c), s, n - 1);
    }
  }

  lemma {:induction false} RetriesOn(m: Machine<World>, s: Driver<World>, n: nat)
    requires Retries(m, s) && RetriesAt(s, s, 0) && OnlyDeaths(s.world, n)
    ensures RetriesAt(Drive(m, s, n), s, n)
  {
    hide RetriesAt, Gone;
    if n > 0 {
      var c := Drive(m, s, n - 1);
      RetriesOn(m, s, n - 1);
      assert Follows(DriveStep(m, c), s, n - 1);
    }
  }

  ghost predicate EverSendsAgain(m: Machine<World>, s: Driver<World>) {
    exists n: nat {:trigger SentAgain(Drive(m, s, n), s)} :: SentAgain(Drive(m, s, n), s)
  }

  lemma SendsAgain(m: Machine<World>, s: Driver<World>, k: nat)
    requires Retries(m, s) && RetriesAt(s, s, 0) && s.world.read <= k && Broadcasts(s.pos, s.world.tape(k))
    requires OnlyDeaths(s.world, k - s.world.read)
    ensures EverSendsAgain(m, s)
  {
    hide RetriesAt, Gone, Recorded, DriveStep;
    var n := k - s.world.read;
    var c := Drive(m, s, n);
    RetriesOn(m, s, n);
    assert Follows(DriveStep(m, c), s, n);
    assert Drive(m, s, n + 1) == DriveStep(m, c);
    assert SentAgain(Drive(m, s, n + 1), s);
  }

  lemma SendsAgainIff(m: Machine<World>, s: Driver<World>)
    requires Retries(m, s) && RetriesAt(s, s, 0)
    ensures EverSendsAgain(m, s) <==> Resent(s)
  {
    hide Recorded;
    if Resent(s) {
      var k :| s.world.read <= k && Broadcasts(s.pos, s.world.tape(k)) && forall i :: s.world.read <= i < k ==>
        s.world.tape(i).death.DiesFirst?;
      SendsAgain(m, s, k);
    } else if EverSendsAgain(m, s) {
      var n: nat :| SentAgain(Drive(m, s, n), s);
      StandsAfter(m, s, n);
      assert false;
    }
  }

  /** A transfer whose process died right after the broadcast of an activation, of the funding by
      burning or of the transfer broadcasts one more transaction of that type if and only if, with
      the first answer with which the step gets to work, a transaction is built, affordable and
      taken by the node, and an activation is not free. */
  lemma SecondBroadcastIff(a: Driver<World>)
    requires LostIt(a)
    ensures EverSendsAgain(MACHINE, a) <==> BroadcastsAfter(a.pos, a.world.tape, a.world.read)
  {
    TronRetries(a);
    SendsAgainIff(MACHINE, a);
  }

  // ------------------------------------------------------------ waits for one transaction

  /** The waits that ask for exactly one recorded transaction. */
  predicate WaitsForOne(p: Pos) {
    p == Pos(0, 4) || p == Pos(0, 7) || p == Pos(0, 10) || p == Pos(2, 0)
  }

  function AwaitedAt(p: Pos): TxType {
    if p == Pos(0, 10) then SendBurnBaseAsset else if p == Pos(2, 0) then Transfer else AccountActivation
  }

  /** The transfer waits for one transaction, and none or several are recorded. */
  ghost predicate Stuck(a: Driver<World>) {
    Inv(a) && a.phase == Live && WaitsForOne(a.pos) && Count(a.world, AwaitedAt(a.pos)) != 1
  }

  /** Nothing but the answers that were used up distinguishes the drivers. */
  ghost predicate SamePlace(a: Driver<World>, b: Driver<World>) {
    && b.phase == a.phase && b.pos == a.pos && b.world.sends == a.world.sends && b.world.rows == a.world.rows
    && b.world.history == a.world.history
  }

  lemma StuckReplies(w: World, p: Pos)
    requires InTable(STAGES, p) && WaitsForOne(p) && Count(w, AwaitedAt(p)) != 1
    ensures var r := CallStep(w, ContextOf(STAGES, p)); r == Refuse(Taken(w)) || r == Die(Taken(w))
  {
    hide Recorded;
    ContextIs(p, if p == Pos(0, 4) then StepWaitingResourcesActivateWalletConfirmations
                 else if p == Pos(0, 7) then StepWaitingActivateWalletConfirmations
                 else if p == Pos(0, 10) then StepWaitingSendTRXForBurnConfirmations
                 else StepWaitingForTheFirstConfirmation);
  }

  lemma StuckStays(a: Driver<World>)
    requires Stuck(a)
    ensures Stuck(DriveStep(MACHINE, a)) && SamePlace(a, DriveStep(MACHINE, a))
  {
    hide Recorded, At, Advances, ReplyAt, DriveStep, CallStep, ContextOf;
    CallAdvances(a.world, a.pos);
    var r :| r == CallStep(a.world, ContextOf(STAGES, a.pos)) && Advances(Taken(a.world), a.pos, r);
    StuckReplies(a.world, a.pos);
    assert r == ReplyAt(MACHINE, a) by {
      StuckCalls(a);
    }
    StepLeads(a, r);
  }

  lemma StuckCalls(a: Driver<World>)
    requires InTable(STAGES, a.pos)
    ensures ReplyAt(MACHINE, a) == CallStep(a.world, ContextOf(STAGES, a.pos))
  {
  }

  /** Such a wait never ends, neither in a success nor in a failure. So a transfer that was broadcast
      twice, and recorded both times, is never completed. */
  lemma {:induction false} TwiceRecordedSticks(a: Driver<World>, n: nat)
    requires Stuck(a)
    ensures Stuck(Drive(MACHINE, a, n)) && SamePlace(a, Drive(MACHINE, a, n))
  {
    hide Stuck, SamePlace, DriveStep;
    if n > 0 {
      TwiceRecordedSticks(a, n - 1);
      StuckStays(Drive(MACHINE, a, n - 1));
      SamePlaces(a, Drive(MACHINE, a, n - 1), DriveStep(MACHINE, Drive(MACHINE, a, n - 1)));
    } else {
      SamePlaces(a, a, a);
    }
  }

  lemma SamePlaces(a: Driver<World>, b: Driver<World>, c: Driver<World>)
    requires a == b == c || (SamePlace(a, b) && SamePlace(b, c))
    ensures SamePlace(a, c)
  {
  }

  // --------------------------------------------------------------------- three transfers

  /** A transfer of the native asset from a processing wallet. */
  const REQUEST := Request(1, 1, true, true, ProcessingWallet, Some(BurnTRX), false, false, false, 1)

  function Fine(death: Death, hash: Option<nat>): Answer {
    Answer(death, ColdOrProcessing(true), Some(true), true, false, true, hash, true, NotNeeded, NotNeeded, false,
           NotDelegated, NotDelegated, [], hash => Found(true, SYSTEM_CONFIRMATIONS), true, false,
           OrderPending, OrderPending, OrderPending)
  }

  /** Everything goes well, but the process dies after the broadcast of the transfer, before or after
      its row is committed; then a transaction is built again, or none. */
  function Tape(lost: set<nat>, again: Option<nat>): nat -> Answer {
    n => if n == 4 then Fine(DiesSent(lost), Some(1)) else if n == 5 then Fine(Lives, again) else Fine(Lives, Some(3))
  }

  function Way(lost: set<nat>, again: Option<nat>, n: nat): Driver<World> {
    Drive(MACHINE, Start(MACHINE, Begin(REQUEST, Tape(lost, again))), n)
  }

  function FirstRow(lost: set<nat>): seq<Tx> {
    if 1 in lost then [] else [Tx(Transfer, 1)]
  }

  /** Where the transfer is after `n` steps. */
  function WayPos(n: nat): Pos {
    match n
    case 0 => Pos(0, 0)
    case 1 => Pos(0, 1)
    case 2 => Pos(0, 8)
    case 3 => Pos(0, 9)
    case _ => Pos(1, 0)
  }

  ghost predicate OnWay(a: Driver<World>, lost: set<nat>, again: Option<nat>, n: nat) {
    && SameSetup(Begin(REQUEST, Tape(lost, again)), a.world) && a.world.read == n
    && a.world.history == (if n == 0 then [] else [StatusProcessing])
    && if n < 5 then a.phase == Live && a.pos == WayPos(n) && a.world.sends == a.world.rows == [] &&
       a.world.deaths == multiset{}
       else if n == 5 then
         && a.phase == Live && a.pos == Pos(1, 0) && a.world.sends == [Tx(Transfer, 1)] &&
            a.world.rows == FirstRow(lost)
         && a.world.deaths == multiset{Transfer}
       else SecondTry(a, lost, again)
  }

  /** The transfer was broadcast twice and waits, or it is compensated although it was broadcast. */
  predicate SecondTry(a: Driver<World>, lost: set<nat>, again: Option<nat>) {
    if again.Some? then
      && a.phase == Live && a.pos == Pos(2, 0) && a.world.sends == [Tx(Transfer, 1), Tx(Transfer, again.value)]
      && a.world.rows == FirstRow(lost) + [Tx(Transfer, again.value)]
    else
      && a.phase == Redirected(StageCompensateOnFail, StepDetermineCompensationFlow, Absent)
      && a.world.sends == [Tx(Transfer, 1)]
  }

  /** What the steps reply on the way. */
  function WayReply(w: World, n: nat, lost: set<nat>, again: Option<nat>): Reply<World> {
    var v := Taken(w);
    match n
    case 0 => Succeed(StoreStatus(v, StatusProcessing))
    case 1 => GoTo(v, StepBeforeSendingCheckTransferKind)
    case 2 => GoTo(v, StepSendTRXForBurn)
    case 3 => GoSending(v)
    case 4 => Die(v.(sends := [Tx(Transfer, 1)], rows := FirstRow(lost), deaths := multiset{Transfer}))
    case _ =>
      if again.None? then Refuse(v)
      else Succeed(v.(sends := w.sends + [Tx(Transfer, again.value)], rows := w.rows + [Tx(Transfer, again.value)],
        txHash := again))
  }

  lemma WayReplies(w: World, lost: set<nat>, again: Option<nat>, n: nat)
    requires n < 4 && InTable(STAGES, WayPos(n)) && SameSetup(Begin(REQUEST, Tape(lost, again)), w) && w.read == n
    ensures CallStep(w, ContextOf(STAGES, WayPos(n))) == WayReply(w, n, lost, again)
  {
    assert w.tape(n) == Fine(Lives, Some(3));
    ContextIs(WayPos(n), if n == 0 then StepValidateRequest else if n == 1 then StepCheckActivateWallet
                         else if n == 2 then StepBeforeSendingCheckTransferKind else StepSendTRXForBurn);
  }

  lemma FirstBroadcast(v: World, a: Answer, lost: set<nat>)
    requires a.death == DiesSent(lost) && v.sends == v.rows == [] && v.deaths == multiset{}
    ensures Broadcasted(v, a, Transfer, Transfer, [1]) ==
            v.(sends := [Tx(Transfer, 1)], rows := FirstRow(lost), deaths := multiset{Transfer})
  {
    var hashes := [1];
    assert hashes[..0] == [];
    assert Without(hashes, lost) == if 1 in lost then [] else hashes;
    assert Txs(Transfer, Committed(a, hashes)) == FirstRow(lost);
    assert v.sends + Txs(Transfer, hashes) == [Tx(Transfer, 1)] && v.rows + FirstRow(lost) == FirstRow(lost);
  }

  lemma FirstReplies(w: World, lost: set<nat>, again: Option<nat>)
    requires InTable(STAGES, Pos(1, 0)) && SameSetup(Begin(REQUEST, Tape(lost, again)), w) && w.read == 4
    requires w.sends == w.rows == [] && w.deaths == multiset{}
    ensures CallStep(w, ContextOf(STAGES, Pos(1, 0))) == WayReply(w, 4, lost, again)
  {
    hide Broadcasted, Txs, Committed, FirstRow;
    ContextIs(Pos(1, 0), StepSending);
    assert w.tape(4) == Fine(DiesSent(lost), Some(1));
    FirstBroadcast(Taken(w), w.tape(4), lost);
  }

  lemma SecondReplies(w: World, lost: set<nat>, again: Option<nat>)
    requires InTable(STAGES, Pos(1, 0)) && SameSetup(Begin(REQUEST, Tape(lost, again)), w) && w.read == 5
    ensures CallStep(w, ContextOf(STAGES, Pos(1, 0))) == WayReply(w, 5, lost, again)
  {
    ContextIs(Pos(1, 0), StepSending);
    assert w.tape(5) == Fine(Lives, again);
    if again.Some? {
      assert Txs(Transfer, [again.value]) == [Tx(Transfer, again.value)];
    }
  }

  lemma OnWayReplies(a: Driver<World>, lost: set<nat>, again: Option<nat>, n: nat)
    requires n < 6 && OnWay(a, lost, again, n) && InTable(STAGES, a.pos)
    ensures CallStep(a.world, ContextOf(STAGES, a.pos)) == WayReply(a.world, n, lost, again)
  {
    hide CallStep, WayReply;
    if n < 4 {
      WayReplies(a.world, lost, again, n);
    } else if n == 4 {
      FirstReplies(a.world, lost, again);
    } else {
      SecondReplies(a.world, lost, again);
    }
  }

  /** Where a step of the way leads. */
  ghost predicate WayLeads(a: Driver<World>, r: Reply<World>, b: Driver<World>) {
    && b.world == r.world
    && match r.outcome
       case Done => b.phase == Live && b.pos == Goal(a.pos, r)
       case Err(e) => Retried(a.pos, e) ||
         b.phase == Redirected(StageCompensateOnFail, StepDetermineCompensationFlow, KeptError(e))
       case Died => b.phase == Live && b.pos == a.pos
  }

  lemma NextOnWay(a: Driver<World>, lost: set<nat>, again: Option<nat>, n: nat)
    requires n < 6 && OnWay(a, lost, again, n) && Inv(a)
    ensures OnWay(DriveStep(MACHINE, a), lost, again, n + 1)
  {
    hide Recorded, At, DriveStep, WayReply, Advances, CallStep, SecondTry;
    CallAdvances(a.world, a.pos);
    var r :| r == CallStep(a.world, ContextOf(STAGES, a.pos)) && Advances(Taken(a.world), a.pos, r);
    OnWayReplies(a, lost, again, n);
    StuckCalls(a);
    WayGoes(a, r);
    OnWayNext(a, lost, again, n, r, DriveStep(MACHINE, a));
  }

  lemma WayGoes(a: Driver<World>, r: Reply<World>)
    requires Inv(a) && a.phase == Live && r == ReplyAt(MACHINE, a) && Advances(Taken(a.world), a.pos, r)
    ensures WayLeads(a, r, DriveStep(MACHINE, a))
  {
    hide Recorded, At, ReplyAt, DriveStep;
    assert Advances(a.world, a.pos, r);
    Goes(a, r);
  }

  lemma OnWayNext(a: Driver<World>, lost: set<nat>, again: Option<nat>, n: nat, r: Reply<World>, b: Driver<World>)
    requires n < 6 && OnWay(a, lost, again, n) && r == WayReply(a.world, n, lost, again) && WayLeads(a, r, b)
    ensures OnWay(b, lost, again, n + 1)
  {
  }

  lemma {:induction false} WayOn(lost: set<nat>, again: Option<nat>, n: nat)
    requires n <= 6
    ensures OnWay(Way(lost, again, n), lost, again, n) && Inv(Way(lost, again, n))
  {
    hide Recorded, At;
    InvDrive(Begin(REQUEST, Tape(lost, again)), n);
    if n > 0 {
      WayOn(lost, again, n - 1);
      NextOnWay(Way(lost, again, n - 1), lost, again, n - 1);
    } else {
      Table();
    }
  }

  lemma BothRecorded(w: World, x: nat, y: nat)
    requires w.rows == [Tx(Transfer, x), Tx(Transfer, y)]
    ensures Count(w, Transfer) == 2
  {
    RecordedFew(w.rows[0], w.rows[1], Transfer);
  }

  lemma SecondTrySticks(a: Driver<World>, lost: set<nat>, again: Option<nat>, n: nat)
    requires Inv(a) && OnWay(a, lost, again, 6) && again.Some? && 1 !in lost
    ensures var b := Drive(MACHINE, a, n); SecondTry(b, lost, again) && b.world.history == [StatusProcessing]
  {
    hide Recorded, At, Inv;
    BothRecorded(a.world, 1, again.value);
    TwiceRecordedSticks(a, n);
  }

  lemma WaySplits(lost: set<nat>, again: Option<nat>, n: nat)
    ensures Way(lost, again, 6 + n) == Drive(MACHINE, Way(lost, again, 6), n)
  {
    DriveSplit(MACHINE, Start(MACHINE, Begin(REQUEST, Tape(lost, again))), 6, n);
  }

  /** So a transfer may be broadcast twice; if it was recorded both times it then waits for ever, and
      if it is not built again it is sent to the compensation although it was broadcast. */
  lemma LostBroadcast(lost: set<nat>, again: Option<nat>, n: nat)
    ensures LostIt(Way(lost, again, 5)) && SecondTry(Way(lost, again, 6), lost, again)
    ensures again.Some? && 1 !in lost ==>
            var b := Way(lost, again, 6 + n); SecondTry(b, lost, again) && b.world.history == [StatusProcessing]
  {
    hide Recorded, At, Inv, Way, SecondTry;
    WayOn(lost, again, 5);
    WayOn(lost, again, 6);
    if again.Some? && 1 !in lost {
      WaySplits(lost, again, n);
      SecondTrySticks(Way(lost, again, 6), lost, again, n);
    }
  }
}
