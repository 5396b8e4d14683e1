/** Delivering webhooks: what one pass of the sender does to the stored webhooks, and the object
    that does it. Webhooks are kept in the order of creation, in which they are read. */
module WebhookSender {
  import opened Wrappers

  /** Times are in seconds. */
  datatype Hook = Hook(
    content: nat,             // the client and the payload, of which a row is stored once
    isTransferStatus: bool,
    requestId: string,        // of the payload; empty if it has none
    readable: bool,           // the payload can be decoded
    created: int,
    updated: Option<int>,     // of the last attempt
    sent: bool)

  const HOUR := 3600
  const DAY := 86400
  const WEEK := 604800

  const NO_GROUP := "none"
  const CHUNK := 100

  /** The group a webhook is sent with: that of its request if it tells the status of a transfer. */
  function Name(h: Hook): string {
    if h.requestId == "" || !h.isTransferStatus then NO_GROUP else h.requestId
  }

  /** The query: webhooks not sent yet, tried every time on the first day, then at most once an
      hour, and after a week once a day. */
  predicate Due(h: Hook, now: int) {
    && !h.sent
    && match h.updated
       case None => true
       case Some(u) =>
         || u - h.created < DAY
         || (DAY <= u - h.created <= WEEK && now - u / HOUR * HOUR > HOUR + 1)
         || (u - h.created > WEEK && now / DAY > u / DAY)
  }

  predicate InRange(hooks: seq<Hook>, ids: seq<nat>) {
    forall x :: 0 <= x < |ids| ==> ids[x] < |hooks|
  }

  predicate Ascending(ids: seq<nat>) {
    forall x, y :: 0 <= x < y < |ids| ==> ids[x] < ids[y]
  }

  /** The due webhooks among the first `n`, oldest first. */
  function DueIds(hooks: seq<Hook>, now: int, n: nat): (ids: seq<nat>)
    requires n <= |hooks|
    ensures InRange(hooks, ids) && Ascending(ids)
    ensures forall x :: 0 <= x < |ids| ==> ids[x] < n && Due(hooks[ids[x]], now)
    ensures forall i :: 0 <= i < n && Due(hooks[i], now) ==> i in ids
  {
    if n == 0 then []
    else DueIds(hooks, now, n - 1) + if Due(hooks[n - 1], now) then [n - 1] else []
  }

  function Selected(hooks: seq<Hook>, now: int, limit: nat): (ids: seq<nat>)
    ensures InRange(hooks, ids) && Ascending(ids)
    ensures forall x :: 0 <= x < |ids| ==> Due(hooks[ids[x]], now)
  {
    var all := DueIds(hooks, now, |hooks|);
    if |all| <= limit then all else all[..limit]
  }

  /** The webhooks of one group, in the order in which they were read. */
  function Members(hooks: seq<Hook>, ids: seq<nat>, name: string): (m: seq<nat>)
    requires InRange(hooks, ids)
    ensures InRange(hooks, m)
  {
    if ids == [] then []
    else
      var n := |ids| - 1;
      Members(hooks, ids[..n], name) + if Name(hooks[ids[n]]) == name then [ids[n]] else []
  }

  /** The webhooks of a chunk that are sent or tried: all of them in parallel, or one after the
      other up to the first that fails. */
  function ChunkTried(chunk: seq<nat>, ok: nat -> bool, parallel: bool): seq<nat> {
    if chunk == [] then []
    else if parallel || ok(chunk[0]) then [chunk[0]] + ChunkTried(chunk[1..], ok, parallel)
    else [chunk[0]]
  }

  /** A group goes chunk by chunk; a failure does not keep the next chunk from being sent. */
  function GroupTried(group: seq<nat>, ok: nat -> bool, parallel: bool): seq<nat>
    decreases |group|
  {
    if group == [] then []
    else if |group| <= CHUNK then ChunkTried(group, ok, parallel)
    else ChunkTried(group[..CHUNK], ok, parallel) + GroupTried(group[CHUNK..], ok, parallel)
  }

  function Attempted(h: Hook, ok: bool, now: int): Hook {
    if ok then h.(sent := true, updated := Some(now)) else h.(updated := Some(now))
  }

  /** The webhooks after some of them were tried. */
  function Mark(hooks: seq<Hook>, tried: set<nat>, ok: nat -> bool, now: int): (r: seq<Hook>)
    ensures |r| == |hooks|
    ensures forall i :: 0 <= i < |hooks| ==> r[i] == if i in tried then Attempted(hooks[i], ok(i), now) else hooks[i]
  {
    seq(|hooks|, i requires 0 <= i < |hooks| => if i in tried then Attempted(hooks[i], ok(i), now) else hooks[i])
  }

  function ToSet(ids: seq<nat>): set<nat> {
    set i | i in ids
  }

  /** The webhooks tried in one pass. */
  function PassTried(hooks: seq<Hook>, now: int, limit: nat, ok: nat -> bool): set<nat> {
    var ids := Selected(hooks, now, limit);
    set i | i in ids && i < |hooks| &&
      i in GroupTried(Members(hooks, ids, Name(hooks[i])), ok, Name(hooks[i]) == NO_GROUP)
  }

  /** One pass: a payload that cannot be decoded stops it before anything is sent. */
  function AfterPass(hooks: seq<Hook>, now: int, limit: nat, ok: nat -> bool): (r: seq<Hook>)
    ensures |r| == |hooks|
  {
    var ids := Selected(hooks, now, limit);
    if exists x :: 0 <= x < |ids| && !hooks[ids[x]].readable then hooks
    else Mark(hooks, PassTried(hooks, now, limit, ok), ok, now)
  }

  // ------------------------------------------------------------------------ lemmas

  lemma {:induction false} MembersIn(hooks: seq<Hook>, ids: seq<nat>, name: string, i: nat)
    requires InRange(hooks, ids) && i < |hooks|
    ensures i in Members(hooks, ids, name) <==> i in ids && Name(hooks[i]) == name
  {
    if ids != [] {
      var n := |ids| - 1;
      MembersIn(hooks, ids[..n], name, i);
      assert ids == ids[..n] + [ids[n]];
    }
  }

  /** Grouping partitions what was read: a webhook is in the group of its name as often as it was
      read, and in no other. */
  lemma {:induction false} GroupingPartitions(hooks: seq<Hook>, ids: seq<nat>, name: string, i: nat)
    requires InRange(hooks, ids) && i < |hooks|
    ensures multiset(Members(hooks, ids, name))[i] == if Name(hooks[i]) == name then multiset(ids)[i] else 0
  {
    if ids != [] {
      var n := |ids| - 1;
      GroupingPartitions(hooks, ids[..n], name, i);
      assert ids == ids[..n] + [ids[n]];
      assert multiset(ids) == multiset(ids[..n]) + multiset{ids[n]};
    }
  }

  /** The order within a group is the order of reading. */
  lemma {:induction false} GroupingKeepsOrder(hooks: seq<Hook>, ids: seq<nat>, name: string)
    requires InRange(hooks, ids) && Ascending(ids)
    ensures Ascending(Members(hooks, ids, name))
  {
    if ids != [] {
      var n := |ids| - 1;
      var before := Members(hooks, ids[..n], name);
      GroupingKeepsOrder(hooks, ids[..n], name);
      forall x | 0 <= x < |before| ensures before[x] < ids[n] {
        MembersIn(hooks, ids[..n], name, before[x]);
        assert before[x] in before;
      }
    }
  }

  lemma {:induction false} ChunkTriedIn(chunk: seq<nat>, ok: nat -> bool, parallel: bool, i: nat)
    requires i in ChunkTried(chunk, ok, parallel)
    ensures i in chunk
  {
    if i != chunk[0] {
      ChunkTriedIn(chunk[1..], ok, parallel, i);
    }
  }

  lemma {:induction false} GroupTriedIn(group: seq<nat>, ok: nat -> bool, parallel: bool, i: nat)
    requires i in GroupTried(group, ok, parallel)
    ensures i in group
    decreases |group|
  {
    if |group| <= CHUNK {
      ChunkTriedIn(group, ok, parallel, i);
    } else if i in ChunkTried(group[..CHUNK], ok, parallel) {
      ChunkTriedIn(group[..CHUNK], ok, parallel, i);
    } else {
      GroupTriedIn(group[CHUNK..], ok, parallel, i);
    }
  }

  lemma NotTried(group: seq<nat>, ok: nat -> bool, parallel: bool, i: nat)
    requires i !in group
    ensures i !in GroupTried(group, ok, parallel)
  {
    if i in GroupTried(group, ok, parallel) {
      GroupTriedIn(group, ok, parallel, i);
    }
  }

  lemma HalvesDiffer(group: seq<nat>, n: nat, i: nat)
    requires Ascending(group) && n <= |group| && i in group[..n]
    ensures i !in group[n..]
  {
    var x :| 0 <= x < n && group[x] == i;
    assert forall y :: n <= y < |group| ==> group[x] < group[y];
  }

  /** Marking one webhook, and then others. */
  lemma MarkOne(hooks: seq<Hook>, i: nat, rest: seq<nat>, ok: nat -> bool, now: int)
    requires i < |hooks| && i !in rest
    ensures Mark(hooks[i := Attempted(hooks[i], ok(i), now)], ToSet(rest), ok, now)
            == Mark(hooks, ToSet([i] + rest), ok, now)
  {
  }

  lemma MembersGrow(hooks: seq<Hook>, ids: seq<nat>, i: nat, name: string)
    requires InRange(hooks, ids) && i < |hooks|
    ensures Members(hooks, ids + [i], name) == Members(hooks, ids, name) + if Name(hooks[i]) == name then [i] else []
  {
    assert (ids + [i])[..|ids|] == ids;
  }

  /** The groups that have members, each with its members. */
  ghost predicate Grouped(hooks: seq<Hook>, ids: seq<nat>, groups: map<string, seq<nat>>)
    requires InRange(hooks, ids)
  {
    forall name :: if name in groups then groups[name] == Members(hooks, ids, name) && groups[name] != []
                   else Members(hooks, ids, name) == []
  }

  lemma GroupedGrows(hooks: seq<Hook>, ids: seq<nat>, i: nat, groups: map<string, seq<nat>>)
    requires InRange(hooks, ids) && i < |hooks| && Grouped(hooks, ids, groups)
    ensures var name := Name(hooks[i]);
            Grouped(hooks, ids + [i], groups[name := (if name in groups then groups[name] else []) + [i]])
  {
    forall name
      ensures Members(hooks, ids + [i], name) == Members(hooks, ids, name) + if Name(hooks[i]) == name then [i] else []
    {
      MembersGrow(hooks, ids, i, name);
    }
  }

  lemma MarkTwice(hooks: seq<Hook>, a: set<nat>, b: set<nat>, ok: nat -> bool, now: int)
    requires a !! b
    ensures Mark(Mark(hooks, a, ok, now), b, ok, now) == Mark(hooks, a + b, ok, now)
  {
  }

  /** The first chunk of a group, and then the rest of it. */
  lemma MarkChunk(hooks: seq<Hook>, group: seq<nat>, n: nat, ok: nat -> bool, now: int, parallel: bool)
    requires group != [] && InRange(hooks, group) && Ascending(group) &&
             n == if |group| <= CHUNK then |group| else CHUNK
    ensures var u := Mark(hooks, ToSet(ChunkTried(group[..n], ok, parallel)), ok, now);
            Mark(u, ToSet(GroupTried(group[n..], ok, parallel)), ok, now)
              == Mark(hooks, ToSet(GroupTried(group, ok, parallel)), ok, now)
  {
    var first, rest := ChunkTried(group[..n], ok, parallel), GroupTried(group[n..], ok, parallel);
    assert group == group[..n] + group[n..];
    assert GroupTried(group, ok, parallel) == first + rest by {
      assert |group| <= CHUNK ==> group[..n] == group;
    }
    assert ToSet(first + rest) == ToSet(first) + ToSet(rest);
    forall i | i in first ensures i !in rest {
      ChunkTriedIn(group[..n], ok, parallel, i);
      HalvesDiffer(group, n, i);
      NotTried(group[n..], ok, parallel, i);
    }
    MarkTwice(hooks, ToSet(first), ToSet(rest), ok, now);
  }

  /** The webhooks tried with the groups of some names. */
  function TriedOf(hooks: seq<Hook>, ids: seq<nat>, ok: nat -> bool, names: set<string>): set<nat>
    requires InRange(hooks, ids)
  {
    set i | i in ids && i < |hooks| && Name(hooks[i]) in names &&
      i in GroupTried(Members(hooks, ids, Name(hooks[i])), ok, Name(hooks[i]) == NO_GROUP)
  }

  lemma TriedOfNone(hooks: seq<Hook>, ids: seq<nat>, ok: nat -> bool)
    requires InRange(hooks, ids)
    ensures TriedOf(hooks, ids, ok, {}) == {}
  {
  }

  lemma TriedOfOne(hooks: seq<Hook>, ids: seq<nat>, ok: nat -> bool, names: set<string>, name: string)
    requires InRange(hooks, ids) && name !in names
    ensures var tried := ToSet(GroupTried(Members(hooks, ids, name), ok, name == NO_GROUP));
            && tried !! TriedOf(hooks, ids, ok, names)
            && TriedOf(hooks, ids, ok, names + {name}) == TriedOf(hooks, ids, ok, names) + tried
  {
    var group := Members(hooks, ids, name);
    forall i | i in GroupTried(group, ok, name == NO_GROUP) ensures i in ids && i < |hooks| && Name(hooks[i]) == name {
      GroupTriedIn(group, ok, name == NO_GROUP, i);
      MembersIn(hooks, ids, name, i);
    }
  }

  /** With all groups sent, all that a pass tries was tried. */
  lemma AllGroups(hooks: seq<Hook>, now: int, limit: nat, ok: nat -> bool, groups: map<string, seq<nat>>)
    requires Grouped(hooks, Selected(hooks, now, limit), groups)
    ensures TriedOf(hooks, Selected(hooks, now, limit), ok, groups.Keys) == PassTried(hooks, now, limit, ok)
  {
    var items := Selected(hooks, now, limit);
    forall i | i in items ensures i < |hooks| && Name(hooks[i]) in groups.Keys {
      MembersIn(hooks, items, Name(hooks[i]), i);
    }
  }

  // -------------------------------------------------------------------- the object

  class Sender {
    var hooks: seq<Hook>
    var inUse: bool

    constructor (hooks: seq<Hook>)
      ensures this.hooks == hooks && !inUse
    {
      this.hooks, inUse := hooks, false;
    }

    method GroupByRequestID(items: seq<nat>) returns (groups: map<string, seq<nat>>)
      requires InRange(hooks, items)
      ensures Grouped(hooks, items, groups)
    {
      groups := map[];
      for k := 0 to |items|
        invariant Grouped(hooks, items[..k], groups)
      {
        var item := items[k];
        var name := Name(hooks[item]);
        GroupedGrows(hooks, items[..k], item, groups);
        assert items[..k + 1] == items[..k] + [item];
        if name !in groups {
          groups := groups[name := []];
        }
        groups := groups[name := groups[name] + [item]];
      }
      assert items[..|items|] == items;
    }

    method HandleChunk(chunk: seq<nat>, ok: nat -> bool, now: int, parallel: bool)
      requires InRange(hooks, chunk) && Ascending(chunk)
      modifies this
      ensures inUse == old(inUse)
      ensures hooks == Mark(old(hooks), ToSet(ChunkTried(chunk, ok, parallel)), ok, now)
    {
      assert chunk[0..] == chunk;
      for x := 0 to |chunk|
        invariant |hooks| == |old(hooks)| && inUse == old(inUse)
        invariant Mark(hooks, ToSet(ChunkTried(chunk[x..], ok, parallel)), ok, now) ==
                  Mark(old(hooks), ToSet(ChunkTried(chunk, ok, parallel)), ok, now)
      {
        var item := chunk[x];
        ghost var rest := if parallel || ok(item) then ChunkTried(chunk[x + 1..], ok, parallel) else [];
        assert chunk[x..][1..] == chunk[x + 1..] && ChunkTried(chunk[x..], ok, parallel) == [item] + rest;
        assert item !in rest by {
          if item in rest {
            ChunkTriedIn(chunk[x + 1..], ok, parallel, item);
          }
        }
        MarkOne(hooks, item, rest, ok, now);
        hooks := hooks[item := Attempted(hooks[item], ok(item), now)];
        if !ok(item) && !parallel {
          assert hooks == Mark(hooks, ToSet([]), ok, now);
          return;
        }
      }
      assert hooks == Mark(hooks, ToSet([]), ok, now);
    }

    /** The chunks of one group, each whether or not the one before it failed. */
    method HandleGroup(group: seq<nat>, ok: nat -> bool, now: int, parallel: bool)
      requires InRange(hooks, group) && Ascending(group)
      modifies this
      ensures inUse == old(inUse)
      ensures hooks == Mark(old(hooks), ToSet(GroupTried(group, ok, parallel)), ok, now)
    {
      var rest := group;
      while rest != []
        invariant |hooks| == |old(hooks)| && inUse == old(inUse) && InRange(hooks, rest) && Ascending(rest)
        invariant Mark(hooks, ToSet(GroupTried(rest, ok, parallel)), ok, now) ==
                  Mark(old(hooks), ToSet(GroupTried(group, ok, parallel)), ok, now)
        decreases |rest|
      {
        var n := if |rest| <= CHUNK then |rest| else CHUNK;
        MarkChunk(hooks, rest, n, ok, now, parallel);
        HandleChunk(rest[..n], ok, now, parallel);
        rest := rest[n..];
      }
      assert hooks == Mark(hooks, ToSet([]), ok, now);
    }

    /** The groups, in any order. */
    method SendGroups(groups: map<string, seq<nat>>, ghost items: seq<nat>, ok: nat -> bool, now: int)
      requires InRange(hooks, items) && Ascending(items) && Grouped(hooks, items, groups)
      modifies this
      ensures inUse == old(inUse)
      ensures hooks == Mark(old(hooks), TriedOf(old(hooks), items, ok, groups.Keys), ok, now)
    {
      hide TriedOf, GroupTried, Members, Attempted;
      ghost var before := hooks;
      var names := groups.Keys;
      ghost var done: set<nat> := {};
      TriedOfNone(before, items, ok);
      assert groups.Keys - names == {};
      while names != {}
        invariant names <= groups.Keys && inUse == old(inUse) && |hooks| == |before|
        invariant hooks == Mark(before, done, ok, now)
        invariant done == TriedOf(before, items, ok, groups.Keys - names)
        decreases |names|
      {
        var name :| name in names;
        GroupingKeepsOrder(before, items, name);
        ghost var tried := ToSet(GroupTried(groups[name], ok, name == NO_GROUP));
        TriedOfOne(before, items, ok, groups.Keys - names, name);
        HandleGroup(groups[name], ok, now, name == NO_GROUP);
        MarkTwice(before, done, tried, ok, now);
        done := done + tried;
        assert groups.Keys - (names - {name}) == (groups.Keys - names) + {name};
        names := names - {name};
      }
      assert groups.Keys - {} == groups.Keys;
    }

    method ProcessAllUnsentWebhooks(ok: nat -> bool, now: int, limit: nat)
      modifies this
      ensures inUse == old(inUse)
      ensures hooks == AfterPass(old(hooks), now, limit, ok)
    {
      var items := Selected(hooks, now, limit);
      for x := 0 to |items|
        invariant forall y :: 0 <= y < x ==> hooks[items[y]].readable
      {
        if !hooks[items[x]].readable {
          return;
        }
      }
      var groups := GroupByRequestID(items);
      AllGroups(hooks, now, limit, ok, groups);
      SendGroups(groups, items, ok, now);
    }

    /** Of overlapping ticks one is at work; the others find the flag set and do nothing. */
    method ProcessWebhooks(ok: nat -> bool, now: int, limit: nat)
      modifies this
      ensures inUse == old(inUse)
      ensures hooks == if old(inUse) then old(hooks) else AfterPass(old(hooks), now, limit, ok)
    {
      if inUse {
        return;
      }
      inUse := true;
      ProcessAllUnsentWebhooks(ok, now, limit);
      inUse := false;
    }
  }
}
