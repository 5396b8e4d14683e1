/** The order in which the webhooks of one request are delivered. */
module WebhookOrder {
  import opened Wrappers
  import opened WebhookSender

  /** What was delivered of a request is a prefix of what was created for it. */
  predicate PrefixSent(hooks: seq<Hook>, request: string) {
    forall i, j :: 0 <= i < j < |hooks| && Name(hooks[i]) == request && Name(hooks[j]) == request && hooks[j].sent ==>
      hooks[i].sent
  }

  /** The webhooks of the request that a pass reads. */
  function Read(hooks: seq<Hook>, now: int, limit: nat, request: string): (group: seq<nat>)
    ensures InRange(hooks, group)
  {
    Members(hooks, Selected(hooks, now, limit), request)
  }

  predicate Unreadable(hooks: seq<Hook>, now: int, limit: nat) {
    var ids := Selected(hooks, now, limit);
    exists x :: 0 <= x < |ids| && !hooks[ids[x]].readable
  }

  /** A pass reads no webhook of the request past an older one that waits for its next attempt, and
      no more than one chunk of them. */
  predicate OrderSafe(hooks: seq<Hook>, now: int, limit: nat, request: string) {
    var group := Read(hooks, now, limit, request);
    && |group| <= CHUNK
    && forall i, j :: 0 <= i < j < |hooks| && j in group && Name(hooks[i]) == request && !hooks[i].sent ==> i in group
  }

  lemma ReadIs(hooks: seq<Hook>, now: int, limit: nat, request: string)
    ensures var group := Read(hooks, now, limit, request);
            && Ascending(group)
            && forall i :: i in group ==> i < |hooks| && Name(hooks[i]) == request && !hooks[i].sent
  {
    var ids := Selected(hooks, now, limit);
    GroupingKeepsOrder(hooks, ids, request);
    forall i | i in Members(hooks, ids, request) ensures i < |hooks| && Name(hooks[i]) == request && !hooks[i].sent {
      MembersIn(hooks, ids, request, i);
    }
  }

  /** Which webhooks of a request a pass tries. */
  lemma TriedIs(hooks: seq<Hook>, now: int, limit: nat, request: string, ok: nat -> bool, i: nat)
    requires request != NO_GROUP && i < |hooks| && Name(hooks[i]) == request
    ensures i in PassTried(hooks, now, limit, ok) <==> i in GroupTried(Read(hooks, now, limit, request), ok, false)
  {
    var ids := Selected(hooks, now, limit);
    if i in GroupTried(Members(hooks, ids, request), ok, false) {
      GroupTriedIn(Members(hooks, ids, request), ok, false, i);
      MembersIn(hooks, ids, request, i);
    }
  }

  /** In a chunk a webhook is tried exactly if all before it were delivered. */
  lemma {:induction false} ChunkOrder(chunk: seq<nat>, ok: nat -> bool, y: nat)
    requires Ascending(chunk) && y < |chunk|
    ensures chunk[y] in ChunkTried(chunk, ok, false) <==> forall x :: 0 <= x < y ==> ok(chunk[x])
  {
    if y > 0 {
      var rest := chunk[1..];
      assert rest[y - 1] == chunk[y] && chunk[0] != chunk[y];
      ChunkOrder(rest, ok, y - 1);
      if ok(chunk[0]) {
        if forall x :: 0 <= x < y - 1 ==> ok(rest[x]) {
          forall x | 0 <= x < y ensures ok(chunk[x]) {
            if x > 0 {
              assert chunk[x] == rest[x - 1];
            }
          }
        } else {
          var x :| 0 <= x < y - 1 && !ok(rest[x]);
          assert !ok(chunk[x + 1]);
        }
      }
    }
  }

  predicate Tried(group: seq<nat>, ok: nat -> bool, i: nat) {
    i in GroupTried(group, ok, false)
  }

  /** Which webhooks of a request are delivered after a pass. */
  lemma SentIs(hooks: seq<Hook>, now: int, limit: nat, request: string, ok: nat -> bool, i: nat)
    requires request != NO_GROUP && i < |hooks| && Name(hooks[i]) == request && !Unreadable(hooks, now, limit)
    ensures var after := AfterPass(hooks, now, limit, ok);
            && Name(after[i]) == request
            && (after[i].sent <==> hooks[i].sent || (ok(i) && Tried(Read(hooks, now, limit, request), ok, i)))
  {
    TriedIs(hooks, now, limit, request, ok, i);
  }

  /** Within one chunk a delivery means that all before it were delivered. */
  lemma ChunkInOrder(group: seq<nat>, ok: nat -> bool, i: nat, j: nat)
    requires Ascending(group) && |group| <= CHUNK && i in group && i < j && Tried(group, ok, j)
    ensures ok(i) && Tried(group, ok, i)
  {
    GroupTriedIn(group, ok, false, j);
    var x, y :| 0 <= x < |group| && group[x] == i && 0 <= y < |group| && group[y] == j;
    assert x < y;
    ChunkOrder(group, ok, y);
    ChunkOrder(group, ok, x);
  }

  lemma NamesStay(hooks: seq<Hook>, now: int, limit: nat, ok: nat -> bool, i: nat)
    requires i < |hooks|
    ensures Name(AfterPass(hooks, now, limit, ok)[i]) == Name(hooks[i])
  {
    if !Unreadable(hooks, now, limit) {
      assert AfterPass(hooks, now, limit, ok) == Mark(hooks, PassTried(hooks, now, limit, ok), ok, now);
    }
  }

  /** A safe pass delivers in order, whatever succeeds. */
  lemma SafeKeepsOrder(hooks: seq<Hook>, now: int, limit: nat, request: string, ok: nat -> bool)
    requires request != NO_GROUP && PrefixSent(hooks, request)
    requires Unreadable(hooks, now, limit) || OrderSafe(hooks, now, limit, request)
    ensures PrefixSent(AfterPass(hooks, now, limit, ok), request)
  {
    if !Unreadable(hooks, now, limit) {
      var group := Read(hooks, now, limit, request);
      var after := AfterPass(hooks, now, limit, ok);
      ReadIs(hooks, now, limit, request);
      forall i, j | 0 <= i < j < |hooks| && Name(after[i]) == request && Name(after[j]) == request && after[j].sent
        ensures after[i].sent
      {
        NamesStay(hooks, now, limit, ok, i);
        NamesStay(hooks, now, limit, ok, j);
        SentIs(hooks, now, limit, request, ok, i);
        SentIs(hooks, now, limit, request, ok, j);
        if !hooks[i].sent {
          GroupTriedIn(group, ok, false, j);
          ChunkInOrder(group, ok, i, j);
        }
      }
    }
  }

  lemma {:induction false} AllTried(group: seq<nat>, ok: nat -> bool)
    requires forall i :: ok(i)
    ensures GroupTried(group, ok, false) == group
    decreases |group|
  {
    if |group| <= CHUNK {
      ChunkAllTried(group, ok);
    } else {
      ChunkAllTried(group[..CHUNK], ok);
      AllTried(group[CHUNK..], ok);
      assert group == group[..CHUNK] + group[CHUNK..];
    }
  }

  lemma {:induction false} ChunkAllTried(chunk: seq<nat>, ok: nat -> bool)
    requires forall i :: ok(i)
    ensures ChunkTried(chunk, ok, false) == chunk
  {
    if chunk != [] {
      ChunkAllTried(chunk[1..], ok);
    }
  }

  lemma BreaksAt(hooks: seq<Hook>, now: int, limit: nat, request: string, group: seq<nat>, ok: nat -> bool, i: nat,
                 j: nat)
    requires group == Read(hooks, now, limit, request)
    requires request != NO_GROUP && !Unreadable(hooks, now, limit)
    requires i < j < |hooks| && Name(hooks[i]) == request && Name(hooks[j]) == request && !hooks[i].sent
    requires ok(j) && Tried(group, ok, j) && (!ok(i) || !Tried(group, ok, i))
    ensures !PrefixSent(AfterPass(hooks, now, limit, ok), request)
  {
    SentIs(hooks, now, limit, request, ok, i);
    SentIs(hooks, now, limit, request, ok, j);
  }

  /** If an older webhook is not read, delivering all that is read breaks the order. */
  lemma PassedOverBreaks(hooks: seq<Hook>, now: int, limit: nat, request: string, i: nat, j: nat)
    requires request != NO_GROUP && !Unreadable(hooks, now, limit)
    requires i < j < |hooks| && Name(hooks[i]) == request && !hooks[i].sent
    requires j in Read(hooks, now, limit, request) && i !in Read(hooks, now, limit, request)
    ensures exists ok :: !PrefixSent(AfterPass(hooks, now, limit, ok), request)
  {
    var ok: nat -> bool := k => true;
    ReadIs(hooks, now, limit, request);
    AllTried(Read(hooks, now, limit, request), ok);
    BreaksAt(hooks, now, limit, request, Read(hooks, now, limit, request), ok, i, j);
  }

  /** The first of the second chunk is tried although the first of the first chunk fails. */
  lemma SecondChunkIsTried(group: seq<nat>, ok: nat -> bool)
    requires |group| > CHUNK
    ensures Tried(group, ok, group[CHUNK])
  {
    var rest := group[CHUNK..];
    if |rest| <= CHUNK {
      assert GroupTried(rest, ok, false) == ChunkTried(rest, ok, false);
    } else {
      assert rest[..CHUNK][0] == rest[0];
    }
    assert GroupTried(rest, ok, false)[0] == group[CHUNK];
  }

  /** If more than a chunk is read, a failure of the first does not keep the next chunk back. */
  lemma TwoChunksBreak(hooks: seq<Hook>, now: int, limit: nat, request: string)
    requires request != NO_GROUP && !Unreadable(hooks, now, limit) && |Read(hooks, now, limit, request)| > CHUNK
    ensures exists ok :: !PrefixSent(AfterPass(hooks, now, limit, ok), request)
  {
    ReadIs(hooks, now, limit, request);
    TwoChunksBreakAt(hooks, now, limit, request, Read(hooks, now, limit, request));
  }

  function AllBut(i: nat): nat -> bool {
    k => k != i
  }

  lemma TwoChunksBreakAt(hooks: seq<Hook>, now: int, limit: nat, request: string, group: seq<nat>)
    requires request != NO_GROUP && !Unreadable(hooks, now, limit)
    requires group == Read(hooks, now, limit, request) && |group| > CHUNK && Ascending(group)
    requires forall x :: 0 <= x < |group| ==>
             group[x] < |hooks| && Name(hooks[group[x]]) == request && !hooks[group[x]].sent
    ensures exists ok :: !PrefixSent(AfterPass(hooks, now, limit, ok), request)
  {
    var i, j := group[0], group[CHUNK];
    assert i < j;
    var ok := AllBut(i);
    assert Tried(group, ok, j) by {
      SecondChunkIsTried(group, ok);
    }
    assert ok(j) && !ok(i);
    BreaksAt(hooks, now, limit, request, group, ok, i, j);
  }

  /** A pass keeps the deliveries of a request in order, whatever succeeds, if and only if it stops
      at an undecodable payload, or reads at most a chunk of the webhooks of the request and none
      of them past an older one it does not read. */
  lemma OrderKeptIff(hooks: seq<Hook>, now: int, limit: nat, request: string)
    requires request != NO_GROUP && PrefixSent(hooks, request)
    ensures (forall ok :: PrefixSent(AfterPass(hooks, now, limit, ok), request)) <==>
            Unreadable(hooks, now, limit) || OrderSafe(hooks, now, limit, request)
  {
    if Unreadable(hooks, now, limit) || OrderSafe(hooks, now, limit, request) {
      forall ok ensures PrefixSent(AfterPass(hooks, now, limit, ok), request) {
        SafeKeepsOrder(hooks, now, limit, request, ok);
      }
    } else if |Read(hooks, now, limit, request)| > CHUNK {
      TwoChunksBreak(hooks, now, limit, request);
    } else {
      var i, j :| 0 <= i < j < |hooks| && j in Read(hooks, now, limit, request) && Name(hooks[i]) == request
        && !hooks[i].sent && i !in Read(hooks, now, limit, request);
      PassedOverBreaks(hooks, now, limit, request, i, j);
    }
  }

  // ----------------------------------------------------------------------- creations

  /** The stored webhook of the same client with the same payload. */
  function RowOf(hooks: seq<Hook>, content: nat): (row: Option<nat>)
    ensures match row
            case None => forall i :: 0 <= i < |hooks| ==> hooks[i].content != content
            case Some(i) => i < |hooks| && hooks[i].content == content
  {
    if hooks == [] then None
    else
      var n := |hooks| - 1;
      if hooks[n].content == content then Some(n) else RowOf(hooks[..n], content)
  }

  /** A creation adds a row, or makes the row with the same payload wait for delivery again. */
  function Created(hooks: seq<Hook>, h: Hook): seq<Hook> {
    match RowOf(hooks, h.content)
    case None => hooks + [h.(sent := false, updated := None)]
    case Some(i) => hooks[i := hooks[i].(sent := false, updated := Some(h.created))]
  }

  /** A creation sends no delivered webhook of the request again of which a later one was delivered. */
  predicate CreationSafe(hooks: seq<Hook>, h: Hook, request: string) {
    match RowOf(hooks, h.content)
    case None => true
    case Some(i) =>
      Name(hooks[i]) == request && hooks[i].sent ==>
        forall j :: i < j < |hooks| && Name(hooks[j]) == request ==> !hooks[j].sent
  }

  /** A creation keeps the order if and only if it is of that kind. */
  lemma CreationKeepsIff(hooks: seq<Hook>, h: Hook, request: string)
    requires PrefixSent(hooks, request)
    ensures PrefixSent(Created(hooks, h), request) <==> CreationSafe(hooks, h, request)
  {
    var after := Created(hooks, h);
    match RowOf(hooks, h.content)
    case None =>
      forall i, j | 0 <= i < j < |after| && Name(after[i]) == request && Name(after[j]) == request && after[j].sent
        ensures after[i].sent
      {
        assert after[i] == hooks[i] && after[j] == hooks[j];
      }
    case Some(i) =>
      assert forall j :: 0 <= j < |hooks| && j != i ==> after[j] == hooks[j];
      assert !after[i].sent && Name(after[i]) == Name(hooks[i]);
      if !CreationSafe(hooks, h, request) {
        var j :| i < j < |hooks| && Name(hooks[j]) == request && hooks[j].sent;
        assert after[j].sent;
      }
  }

  predicate OneRowEach(hooks: seq<Hook>) {
    forall i, j :: 0 <= i < j < |hooks| ==> hooks[i].content != hooks[j].content
  }

  // -------------------------------------------------------------------- many passes

  datatype Event = Create(hook: Hook) | Tick(busy: bool, now: int, limit: nat, ok: nat -> bool)

  function Act(hooks: seq<Hook>, e: Event): seq<Hook> {
    match e
    case Create(h) => Created(hooks, h)
    case Tick(busy, now, limit, ok) => if busy then hooks else AfterPass(hooks, now, limit, ok)
  }

  /** The webhooks after some were created and some ticks came, overlapping or not. */
  function After(events: seq<Event>): seq<Hook> {
    if events == [] then [] else Act(After(events[..|events| - 1]), events[|events| - 1])
  }

  lemma ActKeepsOneRow(hooks: seq<Hook>, e: Event)
    requires OneRowEach(hooks)
    ensures OneRowEach(Act(hooks, e))
  {
    hide RowOf, PassTried, Selected, Due, CHUNK;
    match e
    case Create(h) =>
    case Tick(busy, now, limit, ok) =>
      var after := Act(hooks, e);
      assert |after| == |hooks| && forall i :: 0 <= i < |hooks| ==> after[i].content == hooks[i].content;
  }

  /** There is one row for a client and a payload, however often it is created. */
  lemma {:induction false} OneRowStays(events: seq<Event>)
    ensures OneRowEach(After(events))
  {
    if events != [] {
      hide Act;
      OneRowStays(events[..|events| - 1]);
      ActKeepsOneRow(After(events[..|events| - 1]), events[|events| - 1]);
    }
  }

  /** A pass reads no more than a chunk for the request, and not past one that waits; a creation does
      not send one again of which a later one was delivered. */
  predicate SafeEvent(hooks: seq<Hook>, e: Event, request: string) {
    match e
    case Create(h) => CreationSafe(hooks, h, request)
    case Tick(busy, now, limit, _) => busy || Unreadable(hooks, now, limit) || OrderSafe(hooks, now, limit, request)
  }

  predicate AlwaysSafe(events: seq<Event>, request: string) {
    forall k :: 0 <= k < |events| ==> SafeEvent(After(events[..k]), events[k], request)
  }

  /** The same event with other outcomes of its deliveries. */
  function Otherwise(e: Event, ok: nat -> bool): Event {
    if e.Tick? then e.(ok := ok) else e
  }

  /** No outcome of an event breaks the order. */
  ghost predicate OrderSurvives(hooks: seq<Hook>, e: Event, request: string) {
    forall ok :: PrefixSent(Act(hooks, Otherwise(e, ok)), request)
  }

  lemma EventKeepsIff(hooks: seq<Hook>, e: Event, request: string)
    requires request != NO_GROUP && PrefixSent(hooks, request)
    ensures OrderSurvives(hooks, e, request) <==> SafeEvent(hooks, e, request)
    ensures OrderSurvives(hooks, e, request) ==> PrefixSent(Act(hooks, e), request)
  {
    match e
    case Create(h) =>
      CreationKeepsIff(hooks, h, request);
      assert Otherwise(e, k => true) == e;
    case Tick(busy, now, limit, ok) =>
      assert Otherwise(e, ok) == e;
      if busy {
        assert forall ok' :: Act(hooks, Otherwise(e, ok')) == hooks;
      } else {
        OrderKeptIff(hooks, now, limit, request);
        assert forall ok' :: Act(hooks, Otherwise(e, ok')) == AfterPass(hooks, now, limit, ok');
        if OrderSurvives(hooks, e, request) {
          forall ok' ensures PrefixSent(AfterPass(hooks, now, limit, ok'), request) {
            assert PrefixSent(Act(hooks, Otherwise(e, ok')), request);
          }
        }
      }
  }

  /** Over any number of such events the deliveries of a request are a prefix of what was created for
      it. */
  lemma {:induction false} DeliveredInOrder(events: seq<Event>, request: string)
    requires request != NO_GROUP && AlwaysSafe(events, request)
    ensures PrefixSent(After(events), request)
  {
    if events != [] {
      var n := |events| - 1;
      var before := events[..n];
      forall k | 0 <= k < n ensures before[..k] == events[..k] && before[k] == events[k] {
      }
      DeliveredInOrder(before, request);
      EventKeepsIff(After(before), events[n], request);
    }
  }

  /** The order is safe from every outcome of every event of a history, if and only if all its events
      are of that kind. */
  lemma {:induction false} DeliveredInOrderIff(events: seq<Event>, request: string)
    requires request != NO_GROUP
    ensures AlwaysSafe(events, request) <==>
            forall k :: 0 <= k < |events| ==> OrderSurvives(After(events[..k]), events[k], request)
  {
    hide After, OrderSurvives, SafeEvent, PrefixSent;
    if events != [] {
      var n := |events| - 1;
      var before := events[..n];
      forall k | 0 <= k < n ensures before[..k] == events[..k] && before[k] == events[k] {
      }
      DeliveredInOrderIff(before, request);
      assert AlwaysSafe(events, request) <==>
             AlwaysSafe(before, request) && SafeEvent(After(before), events[n], request);
      assert (forall k :: 0 <= k < |events| ==> OrderSurvives(After(events[..k]), events[k], request)) <==>
             (forall k :: 0 <= k < n ==> OrderSurvives(After(before[..k]), before[k], request)) &&
             OrderSurvives(After(before), events[n], request);
      if AlwaysSafe(before, request) {
        DeliveredInOrder(before, request);
        EventKeepsIff(After(before), events[n], request);
      }
    }
  }

  // ------------------------------------------------------------------ a broken order

  const REQUEST := "r"

  const OLDER := Hook(0, true, REQUEST, true, 0, None, false)
  const NEWER := Hook(1, true, REQUEST, true, DAY + 10, None, false)

  /** The older one failed when it was a day old. */
  const FAILED := OLDER.(updated := Some(DAY))

  /** A pass in which nothing is delivered, and one in which everything is. */
  const FAILING := Tick(false, DAY, CHUNK, k => false)
  const WORKING := Tick(false, DAY + 20, CHUNK, k => true)

  lemma AfterOne(events: seq<Event>, e: Event)
    ensures After(events + [e]) == Act(After(events), e)
  {
    assert (events + [e])[..|events|] == events;
  }

  /** A pass that reads one webhook tries it. */
  lemma PassOverOne(hooks: seq<Hook>, now: int, ok: nat -> bool, id: nat)
    requires id < |hooks| && Selected(hooks, now, CHUNK) == [id] && hooks[id].readable && Name(hooks[id]) == REQUEST
    ensures AfterPass(hooks, now, CHUNK, ok) == hooks[id := Attempted(hooks[id], ok(id), now)]
  {
    hide Selected;
    assert Members(hooks, [id], REQUEST) == [id];
    assert ChunkTried([id], ok, false) == [id];
    assert GroupTried([id], ok, false) == [id];
    assert PassTried(hooks, now, CHUNK, ok) == {id};
  }

  lemma FirstFails(ok: nat -> bool)
    requires !ok(0)
    ensures AfterPass([OLDER], DAY, CHUNK, ok) == [FAILED]
  {
    assert Selected([OLDER], DAY, CHUNK) == [0] by {
      assert DueIds([OLDER], DAY, 0) == [];
    }
    PassOverOne([OLDER], DAY, ok, 0);
  }

  lemma SecondIsSent(ok: nat -> bool)
    requires ok(1)
    ensures AfterPass([FAILED, NEWER], DAY + 20, CHUNK, ok) == [FAILED, NEWER.(sent := true, updated := Some(DAY + 20))]
  {
    var hooks, now := [FAILED, NEWER], DAY + 20;
    assert DueIds(hooks, now, 0) == [];
    assert !Due(FAILED, now) && Due(NEWER, now);
    assert DueIds(hooks, now, 1) == [];
    assert DueIds(hooks, now, 2) == [1];
    PassOverOne(hooks, now, ok, 1);
  }

  lemma AfterFailing(events: seq<Event>)
    requires After(events) == [OLDER]
    ensures After(events + [FAILING]) == [FAILED]
  {
    AfterOne(events, FAILING);
    FirstFails(FAILING.ok);
  }

  lemma AfterNewer(events: seq<Event>)
    requires After(events) == [FAILED]
    ensures After(events + [Create(NEWER)]) == [FAILED, NEWER]
  {
    AfterOne(events, Create(NEWER));
  }

  lemma AfterWorking(events: seq<Event>)
    requires After(events) == [FAILED, NEWER]
    ensures After(events + [WORKING]) == [FAILED, NEWER.(sent := true, updated := Some(DAY + 20))]
  {
    AfterOne(events, WORKING);
    SecondIsSent(WORKING.ok);
  }

  lemma AfterFirst()
    ensures After([Create(OLDER)]) == [OLDER]
  {
    AfterOne([], Create(OLDER));
    assert [] + [Create(OLDER)] == [Create(OLDER)];
  }

  lemma OlderIsPassed(hooks: seq<Hook>)
    requires hooks == [FAILED, NEWER.(sent := true, updated := Some(DAY + 20))]
    ensures |hooks| == 2 && !hooks[0].sent && hooks[1].sent && !PrefixSent(hooks, REQUEST)
  {
    assert Name(hooks[0]) == REQUEST && Name(hooks[1]) == REQUEST;
  }

  /** The order of a request can break from the start on: its first webhook fails when it is a day
      old, and so waits for an hour; ten seconds later another is created; and the next pass, ten
      seconds after that, delivers the newer one past the older. */
  lemma OrderBreaks()
    ensures var hooks := After([Create(OLDER)] + [FAILING] + [Create(NEWER)] + [WORKING]);
            |hooks| == 2 && !hooks[0].sent && hooks[1].sent && !PrefixSent(hooks, REQUEST)
  {
    hide After, AfterPass, Created;
    AfterFirst();
    AfterFailing([Create(OLDER)]);
    AfterNewer([Create(OLDER)] + [FAILING]);
    AfterWorking([Create(OLDER)] + [FAILING] + [Create(NEWER)]);
    OlderIsPassed(After([Create(OLDER)] + [FAILING] + [Create(NEWER)] + [WORKING]));
  }

  // ------------------------------------------------------------- a creation that repeats

  const SENT := OLDER.(sent := true, updated := Some(DAY + 20))
  const SENT_LATER := NEWER.(sent := true, updated := Some(DAY + 20))

  const AGAIN := OLDER.(created := DAY + 30)

  lemma OldestIsSent(ok: nat -> bool)
    requires ok(0)
    ensures AfterPass([OLDER], DAY + 20, CHUNK, ok) == [SENT]
  {
    var hooks, now := [OLDER], DAY + 20;
    assert DueIds(hooks, now, 0) == [];
    assert DueIds(hooks, now, 1) == [0];
    PassOverOne(hooks, now, ok, 0);
  }

  lemma NewestIsSent(ok: nat -> bool)
    requires ok(1)
    ensures AfterPass([SENT, NEWER], DAY + 20, CHUNK, ok) == [SENT, SENT_LATER]
  {
    var hooks, now := [SENT, NEWER], DAY + 20;
    assert DueIds(hooks, now, 0) == [];
    assert DueIds(hooks, now, 1) == [];
    assert DueIds(hooks, now, 2) == [1];
    PassOverOne(hooks, now, ok, 1);
  }

  lemma AfterOldest(events: seq<Event>)
    requires After(events) == [OLDER]
    ensures After(events + [WORKING]) == [SENT]
  {
    AfterOne(events, WORKING);
    OldestIsSent(WORKING.ok);
  }

  lemma AfterNext(events: seq<Event>)
    requires After(events) == [SENT]
    ensures After(events + [Create(NEWER)]) == [SENT, NEWER]
  {
    AfterOne(events, Create(NEWER));
  }

  lemma AfterNewest(events: seq<Event>)
    requires After(events) == [SENT, NEWER]
    ensures After(events + [WORKING]) == [SENT, SENT_LATER]
  {
    AfterOne(events, WORKING);
    NewestIsSent(WORKING.ok);
  }

  lemma AfterAgain(events: seq<Event>)
    requires After(events) == [SENT, SENT_LATER]
    ensures After(events + [Create(AGAIN)]) == [SENT.(sent := false, updated := Some(DAY + 30)), SENT_LATER]
  {
    AfterOne(events, Create(AGAIN));
    assert RowOf([SENT], AGAIN.content) == Some(0);
    assert RowOf([SENT, SENT_LATER], AGAIN.content) == Some(0) by {
      assert [SENT, SENT_LATER][..1] == [SENT];
    }
  }

  lemma BothDelivered(events: seq<Event>)
    requires After(events) == [OLDER]
    ensures After(events + [WORKING] + [Create(NEWER)] + [WORKING]) == [SENT, SENT_LATER]
  {
    hide After;
    AfterOldest(events);
    AfterNext(events + [WORKING]);
    AfterNewest(events + [WORKING] + [Create(NEWER)]);
  }

  lemma AgainIsBehind(hooks: seq<Hook>)
    requires hooks == [SENT.(sent := false, updated := Some(DAY + 30)), SENT_LATER]
    ensures !PrefixSent(hooks, REQUEST)
  {
    assert !hooks[0].sent && hooks[1].sent && Name(hooks[0]) == REQUEST && Name(hooks[1]) == REQUEST;
  }

  /** A payload that is created again after it and a later one were delivered waits behind the later
      one. */
  lemma RecreationBreaks()
    ensures var events := [Create(OLDER)] + [WORKING] + [Create(NEWER)] + [WORKING];
            && PrefixSent(After(events), REQUEST)
            && After(events + [Create(AGAIN)]) == [SENT.(sent := false, updated := Some(DAY + 30)), SENT_LATER]
            && !PrefixSent(After(events + [Create(AGAIN)]), REQUEST)
  {
    hide After, AfterPass, Created;
    AfterFirst();
    BothDelivered([Create(OLDER)]);
    var events := [Create(OLDER)] + [WORKING] + [Create(NEWER)] + [WORKING];
    AfterAgain(events);
    AgainIsBehind(After(events + [Create(AGAIN)]));
  }
}
