/** Creating transfers and handing them to workers, as interleaved steps of many callers and ticks.

    A step is a stretch of code that runs under the mutex of the condition variable, or that makes
    one call to the database; any order of them may happen. A disabled event changes nothing. */
module Admission {
  import opened Wrappers
  import opened Transfers

  /** Chains whose transfers spend outputs of several addresses, and chains with accounts. */
  datatype Chain = UtxoChain(id: nat) | AccountChain(id: nat)

  type Address = nat

  datatype Request = Request(chain: Chain, from: seq<Address>, id: nat)

  /** Where a caller of `Create` is. Between `Checking` and `Leaving` it holds the lock. */
  datatype Phase =
    | Arrived    // about to take the lock
    | Waiting    // on the condition variable
    | Signalled  // woken, and about to look at the lock again
    | Checking   // holds the lock; the active transfers are not looked up yet
    | Passed     // found no active transfer in its way
    | Leaving    // done, well or badly; about to free the lock
    | Gone

  datatype Caller = Caller(request: Request, phase: Phase)

  /** A row of the transfers table, with the number of workflow jobs inserted for it. */
  datatype Row = Row(request: Request, status: TransferStatus, jobs: nat)

  /** A tick of the dispatcher. */
  datatype Tick = Owner | Dispatching(ids: seq<nat>)

  datatype State = State(
    isLocked: bool,
    callers: map<nat, Caller>,
    rows: seq<Row>,            // in the order of creation; the index is the id
    inUse: bool,
    ticks: map<nat, Tick>)

  datatype Event =
    | Arrive(caller: nat, request: Request)
    | TakeLock(caller: nat)                 // the loop around the wait, once
    | Refuse(caller: nat)                   // one of the other checks fails
    | FindActive(caller: nat)
    | Insert(caller: nat, stored: bool)
    | FreeLock(caller: nat, woken: Option<nat>)
    | StartTick(tick: nat)
    | FindNew(tick: nat, ids: seq<nat>)
    | FailTick(tick: nat)                   // the query or the transaction fails
    | CommitTick(tick: nat)
    | ChangeStatus(id: nat, status: TransferStatus)

  const INITIAL := State(false, map[], [], false, map[])

  const DISPATCH_LIMIT := 100

  predicate Distinct(addresses: seq<Address>) {
    forall i, j :: 0 <= i < j < |addresses| ==> addresses[i] != addresses[j]
  }

  /** What the validation of a request lets through. */
  predicate Valid(q: Request) {
    Distinct(q.from) && if q.chain.UtxoChain? then |q.from| >= 1 else |q.from| == 1
  }

  predicate Active(s: TransferStatus) {
    !Terminal(s)
  }

  /** The rows that stand in the way of a request: on a chain with accounts those that are neither
      completed nor failed, on the others only those that are processing. */
  predicate InTheWay(row: Row, q: Request) {
    && row.request.chain == q.chain
    && (exists a :: a in q.from && a in row.request.from)
    && if q.chain.UtxoChain? then row.status == StatusProcessing else Active(row.status)
  }

  predicate IsPhase(s: State, c: nat, p: Phase) {
    c in s.callers && s.callers[c].phase == p
  }

  function Move(s: State, c: nat, p: Phase): State
    requires c in s.callers
  {
    s.(callers := s.callers[c := s.callers[c].(phase := p)])
  }

  /** The oldest new transfers, up to the limit. */
  predicate OldestNew(rows: seq<Row>, ids: seq<nat>) {
    && |ids| <= DISPATCH_LIMIT
    && (forall i :: 0 <= i < |ids| ==> ids[i] < |rows| && rows[ids[i]].status == StatusNew)
    && (forall i, j :: 0 <= i < j < |ids| ==> ids[i] < ids[j])
    && (forall id :: 0 <= id < |rows| && rows[id].status == StatusNew && id !in ids ==>
          |ids| == DISPATCH_LIMIT && id > ids[|ids| - 1])
  }

  /** One transaction: a job and the status `processing` for each of the transfers. */
  function Dispatch(rows: seq<Row>, ids: seq<nat>): (r: seq<Row>)
    ensures |r| == |rows|
    decreases |ids|
  {
    if ids == [] || ids[0] >= |rows| then rows
    else
      var row := rows[ids[0]];
      Dispatch(rows[ids[0] := row.(status := StatusProcessing, jobs := row.jobs + 1)], ids[1..])
  }

  /** The loop of the transaction over the transfers that were found. */
  method HandleTransfers(rows: seq<Row>, ids: seq<nat>) returns (r: seq<Row>)
    requires forall i :: 0 <= i < |ids| ==> ids[i] < |rows|
    ensures r == Dispatch(rows, ids)
  {
    r := rows;
    assert ids[0..] == ids;
    for i := 0 to |ids|
      invariant |r| == |rows| && Dispatch(r, ids[i..]) == Dispatch(rows, ids)
    {
      assert ids[i..][1..] == ids[i + 1..];
      var row := r[ids[i]];
      r := r[ids[i] := row.(status := StatusProcessing, jobs := row.jobs + 1)];
    }
  }

  function Step(s: State, e: Event): State {
    match e
    case Arrive(c, q) =>
      if c in s.callers || !Valid(q) then s else s.(callers := s.callers[c := Caller(q, Arrived)])
    case TakeLock(c) =>
      if !IsPhase(s, c, Arrived) && !IsPhase(s, c, Signalled) then s
      else if s.isLocked then Move(s, c, Waiting)
      else Move(s, c, Checking).(isLocked := true)
    case Refuse(c) =>
      if !IsPhase(s, c, Checking) && !IsPhase(s, c, Passed) then s else Move(s, c, Leaving)
    case FindActive(c) =>
      if !IsPhase(s, c, Checking) then s
      else if exists id :: 0 <= id < |s.rows| && InTheWay(s.rows[id], s.callers[c].request) then Move(s, c, Leaving)
      else Move(s, c, Passed)
    case Insert(c, stored) =>
      if !IsPhase(s, c, Passed) then s
      else if !stored then Move(s, c, Leaving)
      else Move(s, c, Leaving).(rows := s.rows + [Row(s.callers[c].request, StatusNew, 0)])
    case FreeLock(c, woken) =>
      if !IsPhase(s, c, Leaving) || !MayWake(s, woken) then s
      else
        var freed := Move(s, c, Gone).(isLocked := false);
        if woken.Some? then Move(freed, woken.value, Signalled) else freed
    case StartTick(t) =>
      if s.inUse || t in s.ticks then s else s.(inUse := true, ticks := s.ticks[t := Owner])
    case FindNew(t, ids) =>
      if t !in s.ticks || s.ticks[t] != Owner || !OldestNew(s.rows, ids) then s
      else s.(ticks := s.ticks[t := Dispatching(ids)])
    case FailTick(t) =>
      if t !in s.ticks then s else s.(inUse := false, ticks := s.ticks - {t})
    case CommitTick(t) =>
      if t !in s.ticks || !s.ticks[t].Dispatching? then s
      else s.(inUse := false, ticks := s.ticks - {t}, rows := Dispatch(s.rows, s.ticks[t].ids))
    case ChangeStatus(id, status) =>
      if id >= |s.rows| || s.rows[id].jobs == 0 || Terminal(s.rows[id].status) || status == StatusNew then s
      else s.(rows := s.rows[id := s.rows[id].(status := status)])
  }

  /** A signal wakes one waiter if there are any. */
  predicate MayWake(s: State, woken: Option<nat>) {
    match woken
    case Some(c) => IsPhase(s, c, Waiting)
    case None => forall c :: c in s.callers ==> s.callers[c].phase != Waiting
  }

  function After(events: seq<Event>): State {
    if events == [] then INITIAL else Step(After(events[..|events| - 1]), events[|events| - 1])
  }
}

/** What every interleaving keeps. */
module AdmissionSafety {
  import opened Wrappers
  import opened Transfers
  import opened Admission

  predicate Holds(p: Phase) {
    p == Checking || p == Passed || p == Leaving
  }

  /** Only one caller holds the lock, and only while it is locked. */
  ghost predicate Exclusive(s: State) {
    && (forall c, d :: c in s.callers && d in s.callers && Holds(s.callers[c].phase) && Holds(s.callers[d].phase) ==>
       c == d)
    && (s.isLocked <==> exists c :: c in s.callers && Holds(s.callers[c].phase))
  }

  /** A caller waits only while another holds the lock or was woken and has yet to look. */
  ghost predicate NoLostWakeup(s: State) {
    (exists c :: c in s.callers && s.callers[c].phase == Waiting) ==>
      s.isLocked || exists c :: c in s.callers && s.callers[c].phase == Signalled
  }

  predicate SameAccount(a: Row, b: Row) {
    a.request.chain == b.request.chain && a.request.chain.AccountChain? && a.request.from == b.request.from
  }

  /** On chains with accounts at most one transfer from an address is neither completed nor failed. */
  predicate OneActive(rows: seq<Row>) {
    forall i, j :: 0 <= i < j < |rows| && SameAccount(rows[i], rows[j]) ==>
      !(Active(rows[i].status) && Active(rows[j].status))
  }

  predicate PassedOnAccounts(c: Caller) {
    c.phase == Passed && c.request.chain.AccountChain?
  }

  /** What a caller saw when it passed still holds. */
  predicate WayIsFree(s: State) {
    forall c, id :: c in s.callers && PassedOnAccounts(s.callers[c]) && 0 <= id < |s.rows| ==>
      !InTheWay(s.rows[id], s.callers[c].request)
  }

  /** A new transfer has no job; any other has exactly one. */
  predicate OneJob(rows: seq<Row>) {
    forall i :: 0 <= i < |rows| ==> rows[i].jobs == if rows[i].status == StatusNew then 0 else 1
  }

  predicate AllValid(s: State) {
    && (forall c :: c in s.callers ==> Valid(s.callers[c].request))
    && (forall i :: 0 <= i < |s.rows| ==> Valid(s.rows[i].request))
  }

  predicate NewAndDistinct(rows: seq<Row>, ids: seq<nat>) {
    && (forall i :: 0 <= i < |ids| ==> ids[i] < |rows| && rows[ids[i]].status == StatusNew)
    && (forall i, j :: 0 <= i < j < |ids| ==> ids[i] != ids[j])
  }

  /** At most one tick is at work, and what it is about to dispatch is still new. */
  predicate OneTick(s: State) {
    && (forall t, u :: t in s.ticks && u in s.ticks ==> t == u)
    && (s.inUse <==> s.ticks != map[])
    && (forall t :: t in s.ticks && s.ticks[t].Dispatching? ==> NewAndDistinct(s.rows, s.ticks[t].ids))
  }

  ghost predicate Inv(s: State) {
    Exclusive(s) && NoLostWakeup(s) && AllValid(s) && OneActive(s.rows) && WayIsFree(s) && OneJob(s.rows) && OneTick(s)
  }

  // --------------------------------------------------------------- steps of callers

  /** Only the phase of one caller changed. */
  predicate Moved(s: State, t: State, c: nat) {
    && c in s.callers && t.callers.Keys == s.callers.Keys && t.callers[c].request == s.callers[c].request
    && (forall d :: d in s.callers && d != c ==> t.callers[d] == s.callers[d])
    && t.inUse == s.inUse && t.ticks == s.ticks
  }

  /** A step that leaves the transfers and the dispatcher alone. */
  lemma RowsStay(s: State, t: State)
    requires Inv(s) && t.rows == s.rows && t.inUse == s.inUse && t.ticks == s.ticks
    ensures OneActive(t.rows) && OneJob(t.rows) && OneTick(t)
  {
  }

  /** A caller moves, to a phase that says nothing about the transfers. */
  lemma MovesOnly(s: State, t: State, c: nat)
    requires Inv(s) && Moved(s, t, c) && t.rows == s.rows && t.callers[c].phase != Passed
    ensures AllValid(t) && WayIsFree(t)
  {
    hide OneActive, OneJob, OneTick, Exclusive, NoLostWakeup, InTheWay;
  }

  lemma LockKeeps(s: State, c: nat)
    requires Inv(s)
    ensures Inv(Step(s, TakeLock(c)))
  {
    hide OneActive, OneJob, OneTick, WayIsFree, AllValid;
    var t := Step(s, TakeLock(c));
    if t != s {
      RowsStay(s, t);
      MovesOnly(s, t, c);
      if s.isLocked {
        Waits(s, t, c);
      } else {
        Takes(s, t, c);
      }
    }
  }

  lemma Waits(s: State, t: State, c: nat)
    requires Exclusive(s) && s.isLocked && t.isLocked && Moved(s, t, c)
    requires !Holds(s.callers[c].phase) && t.callers[c].phase == Waiting
    ensures Exclusive(t) && NoLostWakeup(t)
  {
  }

  lemma Takes(s: State, t: State, c: nat)
    requires Exclusive(s) && !s.isLocked && t.isLocked && Moved(s, t, c) && Holds(t.callers[c].phase)
    ensures Exclusive(t) && NoLostWakeup(t)
  {
  }

  lemma ArriveKeeps(s: State, c: nat, q: Request)
    requires Inv(s)
    ensures Inv(Step(s, Arrive(c, q)))
  {
    hide OneActive, OneJob, OneTick, InTheWay, Exclusive, NoLostWakeup;
    var t := Step(s, Arrive(c, q));
    if t != s {
      RowsStay(s, t);
      Arrives(s, t, c, q);
    }
  }

  lemma Arrives(s: State, t: State, c: nat, q: Request)
    requires Exclusive(s) && NoLostWakeup(s) && c !in s.callers &&
             t == s.(callers := s.callers[c := Caller(q, Arrived)])
    ensures Exclusive(t) && NoLostWakeup(t)
  {
    assert forall d :: d in s.callers ==> t.callers[d] == s.callers[d];
  }

  /** A caller that holds the lock goes on without freeing it. */
  lemma HolderMoves(s: State, t: State, c: nat)
    requires Exclusive(s) && NoLostWakeup(s) && Moved(s, t, c) && t.isLocked == s.isLocked
    requires Holds(s.callers[c].phase) && Holds(t.callers[c].phase)
    ensures Exclusive(t) && NoLostWakeup(t)
  {
  }

  lemma RefuseKeeps(s: State, c: nat)
    requires Inv(s)
    ensures Inv(Step(s, Refuse(c)))
  {
    hide OneActive, OneJob, OneTick, WayIsFree, AllValid, Exclusive, NoLostWakeup;
    var t := Step(s, Refuse(c));
    if t != s {
      RowsStay(s, t);
      MovesOnly(s, t, c);
      HolderMoves(s, t, c);
    }
  }

  lemma FindKeeps(s: State, c: nat)
    requires Inv(s)
    ensures Inv(Step(s, FindActive(c)))
  {
    hide OneActive, OneJob, OneTick, WayIsFree, AllValid, Exclusive, NoLostWakeup, InTheWay;
    var t := Step(s, FindActive(c));
    if t != s {
      RowsStay(s, t);
      HolderMoves(s, t, c);
      if t.callers[c].phase == Leaving {
        MovesOnly(s, t, c);
      } else {
        Passes(s, t, c);
      }
    }
  }

  /** A caller passes that found nothing in its way. */
  lemma Passes(s: State, t: State, c: nat)
    requires Inv(s) && Moved(s, t, c) && t.rows == s.rows
    requires forall id :: 0 <= id < |s.rows| ==> !InTheWay(s.rows[id], s.callers[c].request)
    ensures AllValid(t) && WayIsFree(t)
  {
    hide OneActive, OneJob, OneTick, Exclusive, NoLostWakeup, InTheWay;
  }

  lemma InsertKeeps(s: State, c: nat, stored: bool)
    requires Inv(s)
    ensures Inv(Step(s, Insert(c, stored)))
  {
    hide OneActive, OneJob, OneTick, WayIsFree, AllValid, Exclusive, NoLostWakeup, InTheWay;
    var t := Step(s, Insert(c, stored));
    if t != s {
      HolderMoves(s, t, c);
      if stored {
        NothingActive(s, c);
        InsertsOne(s, t, c, Row(s.callers[c].request, StatusNew, 0));
      } else {
        RowsStay(s, t);
        MovesOnly(s, t, c);
      }
    }
  }

  /** When a caller that passed inserts its transfer, none of the same account is active: the way it
      found free is free still. */
  lemma NothingActive(s: State, c: nat)
    requires Inv(s) && c in s.callers && s.callers[c].phase == Passed
    ensures NoneActive(s.rows, Row(s.callers[c].request, StatusNew, 0))
  {
    hide OneActive, OneJob, OneTick, Exclusive, NoLostWakeup;
    var q := s.callers[c].request;
    forall i | 0 <= i < |s.rows| && SameAccount(s.rows[i], Row(q, StatusNew, 0)) ensures !Active(s.rows[i].status) {
      assert q.from[0] in q.from && q.from[0] in s.rows[i].request.from;
      assert !InTheWay(s.rows[i], q);
    }
  }

  predicate NoneActive(rows: seq<Row>, row: Row) {
    forall i :: 0 <= i < |rows| && SameAccount(rows[i], row) ==> !Active(rows[i].status)
  }

  /** The holder of the lock inserts a new row. */
  lemma InsertsOne(s: State, t: State, c: nat, row: Row)
    requires Inv(s) && Moved(s, t, c) && s.callers[c].phase == Passed && t.callers[c].phase == Leaving
    requires t.rows == s.rows + [row] && row == Row(s.callers[c].request, StatusNew, 0) && NoneActive(s.rows, row)
    ensures OneActive(t.rows) && OneJob(t.rows) && OneTick(t) && AllValid(t) && WayIsFree(t)
  {
    hide NoLostWakeup, InTheWay;
    NoneBesides(s, t, c);
  }

  lemma NoneBesides(s: State, t: State, c: nat)
    requires Exclusive(s) && Moved(s, t, c) && s.callers[c].phase == Passed && t.callers[c].phase == Leaving
    ensures forall d :: d in t.callers ==> t.callers[d].phase != Passed
  {
    assert forall d :: d in t.callers && d != c ==> !Holds(t.callers[d].phase);
  }

  lemma FreeKeeps(s: State, c: nat, woken: Option<nat>)
    requires Inv(s)
    ensures Inv(Step(s, FreeLock(c, woken)))
  {
    hide OneActive, OneJob, OneTick, InTheWay;
    var t := Step(s, FreeLock(c, woken));
    if t != s {
      RowsStay(s, t);
      NoneHolds(s, t, c, woken);
      if woken.Some? {
        assert t.callers[woken.value].phase == Signalled;
      }
    }
  }

  lemma NoneHolds(s: State, t: State, c: nat, woken: Option<nat>)
    requires Exclusive(s) && t != s && t == Step(s, FreeLock(c, woken))
    ensures !t.isLocked && forall d :: d in t.callers ==> !Holds(t.callers[d].phase)
  {
  }

  // ----------------------------------------------------------- steps of the dispatcher

  /** What dispatching does to each row. */
  lemma {:induction false} DispatchEach(rows: seq<Row>, ids: seq<nat>)
    requires NewAndDistinct(rows, ids)
    ensures forall i :: 0 <= i < |rows| ==>
              Dispatch(rows, ids)[i] == if i in ids then rows[i].(status := StatusProcessing, jobs := rows[i].jobs + 1)
                else rows[i]
    decreases |ids|
  {
    if ids != [] {
      var row := rows[ids[0]];
      var next := rows[ids[0] := row.(status := StatusProcessing, jobs := row.jobs + 1)];
      assert forall i :: 0 <= i < |ids[1..]| ==> ids[1..][i] == ids[i + 1];
      DispatchEach(next, ids[1..]);
      forall i | 0 <= i < |rows|
        ensures Dispatch(rows, ids)[i] == if i in ids
                then rows[i].(status := StatusProcessing, jobs := rows[i].jobs + 1) else rows[i]
      {
        assert i in ids <==> i == ids[0] || i in ids[1..];
      }
    }
  }

  /** A step of the dispatcher leaves the callers alone. */
  lemma LockStays(s: State, t: State)
    requires Exclusive(s) && NoLostWakeup(s) && t.callers == s.callers && t.isLocked == s.isLocked
    ensures Exclusive(t) && NoLostWakeup(t)
  {
  }

  lemma CommitKeeps(s: State, t: nat)
    requires Inv(s)
    ensures Inv(Step(s, CommitTick(t)))
  {
    hide Dispatch, Exclusive, NoLostWakeup;
    var u := Step(s, CommitTick(t));
    if u != s {
      LockStays(s, u);
      var ids := s.ticks[t].ids;
      DispatchEach(s.rows, ids);
      forall i | 0 <= i < |s.rows|
        ensures u.rows[i].request == s.rows[i].request && Active(u.rows[i].status) == Active(s.rows[i].status)
      {
        assert i in ids ==> s.rows[i].status == StatusNew;
      }
      assert u.ticks == map[];
    }
  }

  lemma TicksKeep(s: State, e: Event)
    requires Inv(s) && (e.StartTick? || e.FindNew? || e.FailTick?)
    ensures Inv(Step(s, e))
  {
    hide Exclusive, NoLostWakeup, OneActive, OneJob, InTheWay;
    var t := Step(s, e);
    LockStays(s, t);
    if t != s && e.FailTick? {
      assert t.ticks == map[];
    }
  }

  lemma ChangeKeeps(s: State, id: nat, status: TransferStatus)
    requires Inv(s)
    ensures Inv(Step(s, ChangeStatus(id, status)))
  {
    hide Exclusive, NoLostWakeup, Valid, Dispatch;
    var t := Step(s, ChangeStatus(id, status));
    LockStays(s, t);
    if t != s {
      assert forall i :: 0 <= i < |s.rows| && i != id ==> t.rows[i] == s.rows[i];
    }
  }

  /** In every interleaving of callers, status changes and ticks: one caller at a time holds the
      lock; no wakeup is lost; on chains with accounts at most one transfer from an address is
      neither completed nor failed; and a transfer has exactly one job if its status has left
      `new`, and none before. */
  lemma {:induction false} AdmissionSafety(events: seq<Event>)
    ensures Inv(After(events))
  {
    if events != [] {
      var s := After(events[..|events| - 1]);
      AdmissionSafety(events[..|events| - 1]);
      match events[|events| - 1]
      case Arrive(c, q) => ArriveKeeps(s, c, q);
      case TakeLock(c) => LockKeeps(s, c);
      case Refuse(c) => RefuseKeeps(s, c);
      case FindActive(c) => FindKeeps(s, c);
      case Insert(c, stored) => InsertKeeps(s, c, stored);
      case FreeLock(c, woken) => FreeKeeps(s, c, woken);
      case StartTick(t) => TicksKeep(s, StartTick(t));
      case FindNew(t, ids) => TicksKeep(s, FindNew(t, ids));
      case FailTick(t) => TicksKeep(s, FailTick(t));
      case CommitTick(t) => CommitKeeps(s, t);
      case ChangeStatus(id, status) => ChangeKeeps(s, id, status);
    }
  }

  lemma SomeoneServes(s: State, c: nat) returns (d: nat)
    requires Exclusive(s) && NoLostWakeup(s) && IsPhase(s, c, Waiting)
    ensures d in s.callers && (Holds(s.callers[d].phase) || s.callers[d].phase == Signalled)
  {
    assert s.callers[c].phase == Waiting;
    d :| d in s.callers && (Holds(s.callers[d].phase) || s.callers[d].phase == Signalled);
  }

  /** While a caller waits there is another whose next step changes something: nobody waits for a
      lock that is never freed. */
  lemma WaitersAreServed(events: seq<Event>, c: nat)
    requires IsPhase(After(events), c, Waiting)
    ensures var s := After(events);
            exists d :: d in s.callers && d != c &&
              match s.callers[d].phase
              case Signalled => Step(s, TakeLock(d)) != s
              case Checking => Step(s, FindActive(d)) != s
              case Passed => Step(s, Insert(d, false)) != s
              case Leaving => Step(s, FreeLock(d, Some(c))) != s
              case _ => false
  {
    hide After, OneActive, OneJob, OneTick, InTheWay, WayIsFree, AllValid, Exclusive, NoLostWakeup;
    AdmissionSafety(events);
    var s := After(events);
    var d := SomeoneServes(s, c);
    if s.callers[d].phase == Signalled {
      assert Step(s, TakeLock(d)).callers[d].phase != Signalled;
    } else if s.callers[d].phase == Checking {
      assert Step(s, FindActive(d)).callers[d].phase != Checking;
    } else if s.callers[d].phase == Passed {
      assert Step(s, Insert(d, false)).callers[d].phase != Passed;
    } else {
      assert Step(s, FreeLock(d, Some(c))).callers[c].phase == Signalled;
    }
  }

  // -------------------------------------------------------- who is admitted, and who is not

  /** On a chain with accounts: no transfer from the address is other than completed or failed. */
  predicate AccountIsFree(rows: seq<Row>, chain: Chain, address: Address) {
    forall id :: 0 <= id < |rows| && rows[id].request.chain == chain && address in rows[id].request.from ==>
      rows[id].status == StatusCompleted || rows[id].status == StatusFailed
  }

  /** On the other chains: no transfer that is processing shares an address. */
  predicate OutputsAreFree(rows: seq<Row>, chain: Chain, from: seq<Address>) {
    forall id, i, j ::
      0 <= id < |rows| && 0 <= i < |from| && 0 <= j < |rows[id].request.from|
      && rows[id].request.chain == chain && rows[id].request.from[j] == from[i] ==>
        rows[id].status != StatusProcessing
  }

  /** Nothing but the phase of one caller changed. */
  predicate OnlyMoves(s: State, t: State, c: nat, p: Phase) {
    c in s.callers && t == s.(callers := s.callers[c := Caller(s.callers[c].request, p)])
  }

  /** A caller that looks for active transfers is let through exactly if the way of its request is
      free: transfers from other addresses, or on other chains, do not hold it up. */
  lemma AdmittedIff(s: State, c: nat)
    requires AllValid(s) && IsPhase(s, c, Checking)
    ensures var q, t := s.callers[c].request, Step(s, FindActive(c));
            && (OnlyMoves(s, t, c, Passed) || OnlyMoves(s, t, c, Leaving))
            && (t.callers[c].phase == Passed <==>
                  if q.chain.AccountChain? then AccountIsFree(s.rows, q.chain, q.from[0])
                  else OutputsAreFree(s.rows, q.chain, q.from))
  {
    var q := s.callers[c].request;
    assert Valid(q);
    if q.chain.AccountChain? {
      AccountWay(s.rows, q);
    } else {
      OutputsWay(s.rows, q);
    }
  }

  predicate NothingInTheWay(rows: seq<Row>, q: Request) {
    forall id :: 0 <= id < |rows| ==> !InTheWay(rows[id], q)
  }

  lemma AccountWay(rows: seq<Row>, q: Request)
    requires Valid(q) && q.chain.AccountChain?
    ensures NothingInTheWay(rows, q) <==> AccountIsFree(rows, q.chain, q.from[0])
  {
    assert q.from == [q.from[0]];
    if NothingInTheWay(rows, q) {
      forall id | 0 <= id < |rows| && rows[id].request.chain == q.chain && q.from[0] in rows[id].request.from
        ensures rows[id].status == StatusCompleted || rows[id].status == StatusFailed
      {
        assert q.from[0] in q.from && !InTheWay(rows[id], q);
      }
    }
  }

  lemma OutputsWay(rows: seq<Row>, q: Request)
    requires q.chain.UtxoChain?
    ensures NothingInTheWay(rows, q) <==> OutputsAreFree(rows, q.chain, q.from)
  {
    if NothingInTheWay(rows, q) {
      forall id, i, j | 0 <= id < |rows| && 0 <= i < |q.from| && 0 <= j < |rows[id].request.from|
                        && rows[id].request.chain == q.chain && rows[id].request.from[j] == q.from[i]
        ensures rows[id].status != StatusProcessing
      {
        assert q.from[i] in q.from && q.from[i] in rows[id].request.from && !InTheWay(rows[id], q);
      }
    } else {
      var id :| 0 <= id < |rows| && InTheWay(rows[id], q);
      var a :| a in q.from && a in rows[id].request.from;
      var i, j :| 0 <= i < |q.from| && q.from[i] == a && 0 <= j < |rows[id].request.from| &&
        rows[id].request.from[j] == a;
    }
  }

  // ----------------------------------------------------------------- the life of a row

  /** The tick commits what it found, and the transfer is among it. */
  predicate Dispatches(s: State, e: Event, id: nat) {
    e.CommitTick? && e.tick in s.ticks && s.ticks[e.tick].Dispatching? && id in s.ticks[e.tick].ids
  }

  /** The status of a dispatched transfer that is not over is changed. */
  predicate Changes(s: State, e: Event, id: nat) {
    && e.ChangeStatus? && e.id == id && id < |s.rows|
    && s.rows[id].jobs > 0 && e.status != StatusNew
    && s.rows[id].status != StatusCompleted && s.rows[id].status != StatusFailed
  }

  /** The caller that found its way free inserts its transfer. */
  predicate Inserts(s: State, e: Event) {
    e.Insert? && e.stored && IsPhase(s, e.caller, Passed)
  }

  /** What any event does to a stored transfer: a dispatch inserts its job and sets it processing, a
      change of its status sets just that, and nothing else touches it. */
  lemma RowLives(s: State, e: Event, id: nat)
    requires Inv(s) && id < |s.rows|
    ensures var row, t := s.rows[id], Step(s, e);
            && id < |t.rows|
            && t.rows[id] == if Dispatches(s, e, id) then Row(row.request, StatusProcessing, row.jobs + 1)
                             else if Changes(s, e, id) then Row(row.request, e.status, row.jobs)
                             else row
  {
    hide Exclusive, NoLostWakeup, OneActive, WayIsFree, AllValid, InTheWay, Dispatch, OneJob;
    if e.CommitTick? && e.tick in s.ticks && s.ticks[e.tick].Dispatching? {
      DispatchEach(s.rows, s.ticks[e.tick].ids);
    }
  }

  /** The only event that adds a transfer is the insert of a caller that found its way free: it adds
      the transfer the caller asked for, as new and without a job. */
  lemma RowIsBorn(s: State, e: Event)
    requires Inv(s)
    ensures var t := Step(s, e);
            if Inserts(s, e) then t.rows == s.rows + [Row(s.callers[e.caller].request, StatusNew, 0)]
            else |t.rows| == |s.rows|
  {
    hide Exclusive, NoLostWakeup, OneActive, WayIsFree, AllValid, InTheWay, Dispatch, OneJob;
  }

  /** The event that inserted a transfer. */
  ghost predicate BornAt(events: seq<Event>, id: nat, row: Row, k: nat) {
    && k < |events| && Inserts(After(events[..k]), events[k]) && |After(events[..k]).rows| == id
    && After(events[..k]).callers[events[k].caller].request == row.request
  }

  ghost predicate Born(events: seq<Event>, id: nat, row: Row) {
    exists k: nat :: BornAt(events, id, row, k)
  }

  lemma StaysBorn(events: seq<Event>, id: nat, row: Row, after: Row)
    requires events != [] && Born(events[..|events| - 1], id, row) && after.request == row.request
    ensures Born(events, id, after)
  {
    hide After, Inserts;
    var before := events[..|events| - 1];
    var k: nat :| BornAt(before, id, row, k);
    assert before[..k] == events[..k] && before[k] == events[k];
    assert BornAt(events, id, after, k);
  }

  lemma BornNow(events: seq<Event>, row: Row)
    requires events != []
    requires var before, e := events[..|events| - 1], events[|events| - 1];
             Inserts(After(before), e) && After(before).callers[e.caller].request == row.request
    ensures Born(events, |After(events[..|events| - 1]).rows|, row)
  {
    hide After, Inserts;
    assert BornAt(events, |After(events[..|events| - 1]).rows|, row, |events| - 1);
  }

  /** Every stored transfer is the request of a caller that found the way free and inserted it then;
      it keeps its place and its request from there on. */
  lemma {:induction false} RowsAreInserted(events: seq<Event>, id: nat)
    requires id < |After(events).rows|
    ensures Born(events, id, After(events).rows[id])
  {
    hide Step, Inv, Dispatches, Changes, Born;
    var before, e := events[..|events| - 1], events[|events| - 1];
    var s := After(before);
    AdmissionSafety(before);
    RowIsBorn(s, e);
    if id < |s.rows| {
      RowsAreInserted(before, id);
      RowLives(s, e, id);
      StaysBorn(events, id, s.rows[id], After(events).rows[id]);
    } else {
      BornNow(events, After(events).rows[id]);
    }
  }

  // -------------------------------------------------------------------- whom a tick takes

  /** The new transfers among the first `n`, oldest first, up to a hundred. */
  function Oldest(rows: seq<Row>, n: nat): (ids: seq<nat>)
    requires n <= |rows|
  {
    if n == 0 then []
    else
      var older := Oldest(rows, n - 1);
      if rows[n - 1].status == StatusNew && |older| < 100 then older + [n - 1] else older
  }

  /** A new transfer before which fewer than a hundred were found is found. */
  lemma NewIsFound(rows: seq<Row>, ids: seq<nat>, id: nat, k: nat)
    requires OldestNew(rows, ids) && id < |rows| && rows[id].status == StatusNew
    requires k <= |ids| && k < 100 && forall j :: k <= j < |ids| ==> ids[j] >= id
    ensures id in ids
  {
  }

  /** The first `k` of what was found are before `n`, the others are not. */
  predicate SplitAt(ids: seq<nat>, n: nat, k: nat) {
    && k <= |ids|
    && (forall j :: 0 <= j < k ==> ids[j] < n)
    && (forall j :: k <= j < |ids| ==> ids[j] >= n)
  }

  /** The next transfer is found next, or not at all. */
  lemma SplitsOn(ids: seq<nat>, n: nat, k: nat)
    requires (forall i, j :: 0 <= i < j < |ids| ==> ids[i] < ids[j]) && SplitAt(ids, n, k)
    ensures if n in ids then k < |ids| && ids[k] == n && SplitAt(ids, n + 1, k + 1) else SplitAt(ids, n + 1, k)
  {
    if n in ids {
      var x :| 0 <= x < |ids| && ids[x] == n;
      assert x >= k;
    }
  }

  /** What was found so far of the first `n` transfers. */
  lemma {:induction false} FoundSoFar(rows: seq<Row>, ids: seq<nat>, n: nat) returns (k: nat)
    requires OldestNew(rows, ids) && n <= |rows|
    ensures SplitAt(ids, n, k) && Oldest(rows, n) == ids[..k]
  {
    hide OldestNew;
    if n == 0 {
      k := 0;
    } else {
      k := FoundSoFar(rows, ids, n - 1);
      FoundIsNew(rows, ids, n - 1, k);
      SplitsOn(ids, n - 1, k);
      if n - 1 in ids {
        k := k + 1;
        assert ids[..k] == ids[..k - 1] + [n - 1];
      }
    }
  }

  lemma FoundIsNew(rows: seq<Row>, ids: seq<nat>, id: nat, k: nat)
    requires OldestNew(rows, ids) && id < |rows| && SplitAt(ids, id, k)
    ensures id in ids <==> rows[id].status == StatusNew && k < 100
    ensures forall i, j :: 0 <= i < j < |ids| ==> ids[i] < ids[j]
  {
    if rows[id].status == StatusNew && k < 100 {
      NewIsFound(rows, ids, id, k);
    }
  }

  lemma {:induction false} OldestIsFound(rows: seq<Row>, n: nat)
    requires n <= |rows|
    ensures var ids := Oldest(rows, n);
            && |ids| <= 100
            && (forall i :: 0 <= i < |ids| ==> ids[i] < n && rows[ids[i]].status == StatusNew)
            && (forall i, j :: 0 <= i < j < |ids| ==> ids[i] < ids[j])
            && (forall id :: 0 <= id < n && rows[id].status == StatusNew && id !in ids ==>
                  |ids| == 100 && id > ids[99])
  {
    if n > 0 {
      OldestIsFound(rows, n - 1);
      var older, ids := Oldest(rows, n - 1), Oldest(rows, n);
      forall id | 0 <= id < n && rows[id].status == StatusNew && id !in ids ensures |ids| == 100 && id > ids[99] {
        if id == n - 1 {
          assert |older| == 100 && ids == older;
        } else {
          assert id !in older;
        }
      }
    }
  }

  lemma OldestIsNew(rows: seq<Row>)
    ensures OldestNew(rows, Oldest(rows, |rows|))
  {
    hide Oldest;
    OldestIsFound(rows, |rows|);
  }

  /** The query finds the hundred oldest new transfers, and nothing else. */
  lemma OldestNewIff(rows: seq<Row>, ids: seq<nat>)
    ensures OldestNew(rows, ids) <==> ids == Oldest(rows, |rows|)
  {
    hide OldestNew, Oldest;
    OldestIsNew(rows);
    if OldestNew(rows, ids) {
      var k := FoundSoFar(rows, ids, |rows|);
      LastInRange(rows, ids);
      assert ids[..|ids|] == ids;
    }
  }

  lemma LastInRange(rows: seq<Row>, ids: seq<nat>)
    requires OldestNew(rows, ids)
    ensures ids != [] ==> ids[|ids| - 1] < |rows|
  {
  }

  // ------------------------------------------------------------------------ progress

  lemma DistinctGrows(addresses: seq<Address>, last: Address)
    ensures Distinct(addresses + [last]) <==> Distinct(addresses) && last !in addresses
  {
    var all := addresses + [last];
    if Distinct(all) {
      assert forall i :: 0 <= i < |addresses| ==> all[i] == addresses[i] && all[i] != all[|addresses|];
    }
  }

  function Named(addresses: seq<Address>): set<Address> {
    set a | a in addresses
  }

  lemma {:induction false} DistinctIffCount(addresses: seq<Address>)
    ensures |Named(addresses)| <= |addresses|
    ensures Distinct(addresses) <==> |Named(addresses)| == |addresses|
  {
    if addresses != [] {
      var n := |addresses| - 1;
      var before, last := addresses[..n], addresses[n];
      assert addresses == before + [last];
      DistinctIffCount(before);
      DistinctGrows(before, last);
      assert Named(addresses) == Named(before) + {last};
      if last in before {
        assert Named(addresses) == Named(before);
      }
    }
  }

  /** A caller gets as far as the lock if and only if no address is named twice, and one is, or on a chain
      with accounts exactly one. */
  lemma ArrivesIff(s: State, c: nat, q: Request)
    requires c !in s.callers
    ensures c in Step(s, Arrive(c, q)).callers <==>
            |Named(q.from)| == |q.from| && q.from != [] && (q.chain.AccountChain? ==> |q.from| == 1)
  {
    DistinctIffCount(q.from);
  }

  lemma CallerTakesLock(s: State, c: nat)
    requires !s.isLocked && (IsPhase(s, c, Arrived) || IsPhase(s, c, Signalled))
    requires NothingInTheWay(s.rows, s.callers[c].request)
    ensures var checking := Step(s, TakeLock(c));
            var passed := Step(checking, FindActive(c));
            && checking == Move(s, c, Checking).(isLocked := true)
            && passed == Move(checking, c, Passed)
  {
    hide InTheWay;
  }

  /** From there it stores its transfer, or is sent away with nothing stored. */
  lemma CallerInserts(s: State, c: nat)
    requires IsPhase(s, c, Passed)
    ensures Step(s, Insert(c, true)) == Move(s, c, Leaving).(rows := s.rows + [Row(s.callers[c].request, StatusNew, 0)])
    ensures Step(s, Insert(c, false)) == Step(s, Refuse(c)) == Move(s, c, Leaving)
  {
  }

  lemma CallerLeaves(s: State, c: nat, woken: Option<nat>)
    requires IsPhase(s, c, Leaving) && MayWake(s, woken)
    ensures var t := Step(s, FreeLock(c, woken));
            && !t.isLocked && IsPhase(t, c, Gone) && t.rows == s.rows
            && (woken.Some? ==> IsPhase(t, woken.value, Signalled))
  {
  }

  /** A caller frees the lock by waking one that waits, or nobody if and only if nobody does. */
  lemma WakesIff(s: State, c: nat, w: nat)
    requires IsPhase(s, c, Leaving)
    ensures IsPhase(Step(s, FreeLock(c, Some(w))), c, Gone) <==> IsPhase(s, w, Waiting)
    ensures IsPhase(Step(s, FreeLock(c, None)), c, Gone) <==> !exists d :: IsPhase(s, d, Waiting)
  {
    if !MayWake(s, None) {
      var d :| d in s.callers && s.callers[d].phase == Waiting;
      assert IsPhase(s, d, Waiting);
    } else {
      forall d ensures !IsPhase(s, d, Waiting) {
      }
    }
  }

  /** A caller that finds the lock free, and its way free, gets its transfer in and frees the lock again;
      another check may send it away at any point before, with nothing stored. */
  lemma CallerGetsThrough(s: State, c: nat, woken: Option<nat>)
    requires !s.isLocked && (IsPhase(s, c, Arrived) || IsPhase(s, c, Signalled))
    requires NothingInTheWay(s.rows, s.callers[c].request) && MayWake(s, woken)
    ensures var checking := Step(s, TakeLock(c));
            var passed := Step(checking, FindActive(c));
            var stored := Step(passed, Insert(c, true));
            var left := Step(stored, FreeLock(c, woken));
            && left.rows == s.rows + [Row(s.callers[c].request, StatusNew, 0)]
            && !left.isLocked && IsPhase(left, c, Gone)
            && (woken.Some? ==> IsPhase(left, woken.value, Signalled))
            && Step(checking, Refuse(c)) == Move(checking, c, Leaving) &&
               Step(passed, Refuse(c)) == Move(passed, c, Leaving)
  {
    hide NothingInTheWay;
    CallerTakesLock(s, c);
    var checking := Step(s, TakeLock(c));
    var passed := Step(checking, FindActive(c));
    CallerInserts(passed, c);
    Unwoken(s, passed, c, woken);
    CallerLeaves(Step(passed, Insert(c, true)), c, woken);
  }

  /** Who may be woken does not depend on a caller that does not wait. */
  lemma Unwoken(s: State, passed: State, c: nat, woken: Option<nat>)
    requires c in s.callers && s.callers[c].phase != Waiting && MayWake(s, woken)
    requires passed.callers == s.callers[c := s.callers[c].(phase := Passed)]
    ensures MayWake(Step(passed, Insert(c, true)), woken)
  {
  }

  /** A tick that finds none other at work gives the hundred oldest new transfers their jobs, and frees the
      dispatcher again, also when it fails. */
  lemma TickDispatches(s: State, t: nat)
    requires Inv(s) && !s.inUse && t !in s.ticks
    ensures var ids := Oldest(s.rows, |s.rows|);
            var started := Step(s, StartTick(t));
            var found := Step(started, FindNew(t, ids));
            var done := Step(found, CommitTick(t));
            && !done.inUse && !Step(started, FailTick(t)).inUse && !Step(found, FailTick(t)).inUse
            && |done.rows| == |s.rows|
            && (forall id :: 0 <= id < |s.rows| ==>
                  done.rows[id] == if id in ids then Row(s.rows[id].request, StatusProcessing, s.rows[id].jobs + 1)
                                   else s.rows[id])
  {
    hide Oldest, Dispatch, Exclusive, NoLostWakeup, AllValid, OneActive, WayIsFree, OneJob;
    var ids := Oldest(s.rows, |s.rows|);
    OldestIsNew(s.rows);
    DispatchEach(s.rows, ids);
  }
}
