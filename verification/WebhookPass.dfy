/** What one pass of the sender does to each stored webhook, without the words of its definition: which
    are read, which of them are sent together, and which are tried. */
module WebhookPass {
  import opened Wrappers
  import opened WebhookSender

  // --------------------------------------------------------------------- when one is due

  /** The last attempt was in the hour that starts at this second. */
  predicate HourStarts(start: int, u: int) {
    start % 3600 == 0 && start <= u < start + 3600
  }

  predicate DayStarts(start: int, u: int) {
    start % 86400 == 0 && start <= u < start + 86400
  }

  /** A webhook that was not sent is due if it was never tried, or was last tried within a day of its
      creation; if the last attempt was within a week, once more than 3601 seconds passed since the start of
      the hour of that attempt; and else on any later day. */
  lemma DueIff(h: Hook, now: int, hour: int, day: int)
    requires h.updated.Some? ==> HourStarts(hour, h.updated.value) && DayStarts(day, h.updated.value)
    ensures Due(h, now) <==>
            !h.sent &&
            (h.updated.Some? && h.updated.value - h.created >= 86400 ==>
               if h.updated.value - h.created <= 604800 then now - hour > 3601 else now >= day + 86400)
  {
    if h.updated.Some? {
      var u := h.updated.value;
      assert u / HOUR * HOUR == hour;
      assert u / DAY * DAY == day;
      assert now / DAY > u / DAY <==> now >= day + 86400;
    }
  }

  lemma SameHour(now: int, u: int)
    ensures now / 3600 <= u / 3600 <==> now < u / 3600 * 3600 + 3600
    ensures HourStarts(u / 3600 * 3600, u)
  {
  }

  lemma SameDay(now: int, u: int)
    ensures now / 86400 <= u / 86400 <==> now < u / 86400 * 86400 + 86400
    ensures DayStarts(u / 86400 * 86400, u)
  {
  }

  /** So within its first week a webhook that failed is due again at the latest after 3602 seconds, and
      then at the latest after a day; and between a day and a week two attempts in one hour of the clock
      are never made. */
  lemma DueAgain(h: Hook, now: int)
    requires !h.sent && h.updated.Some?
    ensures h.updated.value - h.created <= 604800 && now - h.updated.value > 3601 ==> Due(h, now)
    ensures now - h.updated.value >= 86400 ==> Due(h, now)
    ensures 86400 <= h.updated.value - h.created <= 604800 && now / 3600 <= h.updated.value / 3600 ==> !Due(h, now)
    ensures h.updated.value - h.created > 604800 && now / 86400 <= h.updated.value / 86400 ==> !Due(h, now)
  {
    hide Due;
    var u := h.updated.value;
    SameHour(now, u);
    SameDay(now, u);
    DueIff(h, now, u / 3600 * 3600, u / 86400 * 86400);
  }

  // ------------------------------------------------------------------------ what is read

  /** The ids are the first due webhooks in the order of creation, up to a limit. */
  predicate FirstDue(hooks: seq<Hook>, now: int, limit: nat, ids: seq<nat>) {
    && |ids| <= limit && InRange(hooks, ids) && Ascending(ids)
    && (forall x :: 0 <= x < |ids| ==> Due(hooks[ids[x]], now))
    && (forall i :: 0 <= i < |hooks| && Due(hooks[i], now) && i !in ids ==>
          |ids| == limit && forall x :: 0 <= x < |ids| ==> ids[x] < i)
  }

  lemma SelectedIsFirst(hooks: seq<Hook>, now: int, limit: nat)
    ensures FirstDue(hooks, now, limit, Selected(hooks, now, limit))
  {
    var all, ids := DueIds(hooks, now, |hooks|), Selected(hooks, now, limit);
    forall i | 0 <= i < |hooks| && Due(hooks[i], now) && i !in ids
      ensures |ids| == limit && forall x :: 0 <= x < |ids| ==> ids[x] < i
    {
      var y :| 0 <= y < |all| && all[y] == i;
      assert |all| > limit;
      assert forall z :: 0 <= z < limit ==> ids[z] == all[z];
    }
  }

  lemma OneFirst(hooks: seq<Hook>, now: int, limit: nat, ids: seq<nat>, others: seq<nat>, x: nat)
    requires FirstDue(hooks, now, limit, ids) && FirstDue(hooks, now, limit, others)
    requires x < |ids| && x <= |others| && ids[..x] == others[..x]
    ensures x < |others| && others[x] <= ids[x]
  {
    var i := ids[x];
    assert i !in ids[..x];
    if i in others {
      var y :| 0 <= y < |others| && others[y] == i;
      assert forall z :: 0 <= z < x ==> others[z] == others[..x][z] && ids[z] == ids[..x][z];
    } else {
      assert |others| == limit;
    }
  }

  lemma {:induction false} SameFirst(hooks: seq<Hook>, now: int, limit: nat, ids: seq<nat>, others: seq<nat>, x: nat)
    requires FirstDue(hooks, now, limit, ids) && FirstDue(hooks, now, limit, others)
    requires x <= |ids|
    ensures x <= |others| && ids[..x] == others[..x]
  {
    if x > 0 {
      SameFirst(hooks, now, limit, ids, others, x - 1);
      OneFirst(hooks, now, limit, ids, others, x - 1);
      OneFirst(hooks, now, limit, others, ids, x - 1);
    }
  }

  /** A pass reads the first due webhooks in the order of creation, up to the limit, and nothing else. */
  lemma SelectedIff(hooks: seq<Hook>, now: int, limit: nat, ids: seq<nat>)
    ensures ids == Selected(hooks, now, limit) <==> FirstDue(hooks, now, limit, ids)
  {
    hide FirstDue, Selected;
    SelectedIsFirst(hooks, now, limit);
    if FirstDue(hooks, now, limit, ids) {
      var all := Selected(hooks, now, limit);
      SameFirst(hooks, now, limit, ids, all, |ids|);
      SameFirst(hooks, now, limit, all, ids, |all|);
      assert ids == ids[..|ids|] && all == all[..|all|];
    }
  }

  // -------------------------------------------------------------------- what is sent together

  /** The webhook is sent in the order of its request: it tells the status of a transfer, and its request
      has a name, and not the one that stands for none. */
  predicate Ordered(h: Hook) {
    h.isTransferStatus && h.requestId != "" && h.requestId != "none"
  }

  /** Two webhooks are in one group if both are of one request, or neither is ordered; the group of those is
      sent in parallel. */
  lemma SameGroupIff(g: Hook, h: Hook)
    ensures Name(g) == Name(h) <==>
            (Ordered(g) && Ordered(h) && g.requestId == h.requestId) || (!Ordered(g) && !Ordered(h))
    ensures Name(g) == NO_GROUP <==> !Ordered(g)
  {
  }

  // ------------------------------------------------------------------------ what is tried

  lemma {:induction false} ChunkTriedIff(chunk: seq<nat>, ok: nat -> bool, parallel: bool, x: nat)
    requires x < |chunk| && Ascending(chunk)
    ensures chunk[x] in ChunkTried(chunk, ok, parallel) <==> parallel || forall y :: 0 <= y < x ==> ok(chunk[y])
  {
    var rest := chunk[1..];
    assert forall y :: 0 <= y < |rest| ==> rest[y] == chunk[y + 1];
    if x > 0 {
      assert rest[x - 1] == chunk[x];
      if parallel || ok(chunk[0]) {
        ChunkTriedIff(rest, ok, parallel, x - 1);
        assert (forall y :: 0 <= y < x ==> ok(chunk[y])) <==>
               ok(chunk[0]) && forall y :: 0 <= y < x - 1 ==> ok(rest[y]);
      }
    }
  }

  /** The hundred of the group that the member is in. */
  predicate Hundred(start: nat, x: nat) {
    start % 100 == 0 && start <= x < start + 100
  }

  lemma InFirst(group: seq<nat>, ok: nat -> bool, parallel: bool, x: nat)
    requires CHUNK < |group| && x < CHUNK && Ascending(group)
    ensures group[x] in GroupTried(group, ok, parallel) <==> parallel || forall y :: 0 <= y < x ==> ok(group[y])
  {
    var first, rest := group[..CHUNK], group[CHUNK..];
    ChunkTriedIff(first, ok, parallel, x);
    assert group[x] in first;
    HalvesDiffer(group, CHUNK, group[x]);
    NotTried(rest, ok, parallel, group[x]);
  }

  lemma NotInFirst(group: seq<nat>, ok: nat -> bool, parallel: bool, x: nat)
    requires CHUNK <= x < |group| && Ascending(group)
    ensures group[x] !in ChunkTried(group[..CHUNK], ok, parallel)
  {
    assert forall y :: 0 <= y < CHUNK ==> group[..CHUNK][y] < group[x];
    if group[x] in ChunkTried(group[..CHUNK], ok, parallel) {
      ChunkTriedIn(group[..CHUNK], ok, parallel, group[x]);
    }
  }

  lemma ShiftedOk(group: seq<nat>, ok: nat -> bool, x: nat, start: nat)
    requires CHUNK <= start <= x < |group|
    ensures (forall y :: start <= y < x ==> ok(group[y])) <==>
            forall y :: start - CHUNK <= y < x - CHUNK ==> ok(group[CHUNK..][y])
  {
    var rest := group[CHUNK..];
    assert forall y :: 0 <= y < |rest| ==> rest[y] == group[y + CHUNK];
    assert forall y :: CHUNK <= y < |group| ==> group[y] == rest[y - CHUNK];
  }

  /** Members of a group are tried all at once, or in order: then one is tried exactly if all members before
      it in its hundred were delivered. */
  lemma {:induction false} GroupTriedIff(group: seq<nat>, ok: nat -> bool, parallel: bool, x: nat, start: nat)
    requires x < |group| && Hundred(start, x) && Ascending(group)
    ensures group[x] in GroupTried(group, ok, parallel) <==> parallel || forall y :: start <= y < x ==> ok(group[y])
    decreases |group|
  {
    if |group| <= CHUNK {
      ChunkTriedIff(group, ok, parallel, x);
    } else if x < CHUNK {
      InFirst(group, ok, parallel, x);
    } else {
      var rest := group[CHUNK..];
      NotInFirst(group, ok, parallel, x);
      assert rest[x - CHUNK] == group[x];
      GroupTriedIff(rest, ok, parallel, x - CHUNK, start - CHUNK);
      ShiftedOk(group, ok, x, start);
    }
  }

  /** What one pass does to a webhook that it reads, the `x`-th of its group: it is tried unless an earlier
      one of its request failed in the same hundred, and then it is marked with the time and, if that
      succeeded, as sent. */
  lemma PassTries(hooks: seq<Hook>, now: int, limit: nat, ok: nat -> bool, i: nat, x: nat, start: nat)
    requires var ids := Selected(hooks, now, limit);
             && i < |hooks| && i in ids && (forall y :: 0 <= y < |ids| ==> hooks[ids[y]].readable)
             && var group := Members(hooks, ids, Name(hooks[i]));
                x < |group| && group[x] == i && Hundred(start, x)
    ensures var group := Members(hooks, Selected(hooks, now, limit), Name(hooks[i]));
            AfterPass(hooks, now, limit, ok)[i] ==
            if Ordered(hooks[i]) && exists y :: start <= y < x && !ok(group[y]) then hooks[i]
            else hooks[i].(updated := Some(now), sent := ok(i))
  {
    hide GroupTried, Members, Due;
    var ids := Selected(hooks, now, limit);
    var group := Members(hooks, ids, Name(hooks[i]));
    SelectedIsFirst(hooks, now, limit);
    GroupingKeepsOrder(hooks, ids, Name(hooks[i]));
    GroupTriedIff(group, ok, Name(hooks[i]) == NO_GROUP, x, start);
    SameGroupIff(hooks[i], hooks[i]);
    NotSent(hooks, now, limit, i);
  }

  lemma NotSent(hooks: seq<Hook>, now: int, limit: nat, i: nat)
    requires i < |hooks| && i in Selected(hooks, now, limit)
    ensures !hooks[i].sent
  {
  }

  /** A pass leaves the webhooks alone that it does not read, and all of them if it cannot decode one that
      it reads. */
  lemma PassLeaves(hooks: seq<Hook>, now: int, limit: nat, ok: nat -> bool, i: nat)
    requires i < |hooks|
    requires var ids := Selected(hooks, now, limit);
             i !in ids || exists y :: 0 <= y < |ids| && !hooks[ids[y]].readable
    ensures AfterPass(hooks, now, limit, ok)[i] == hooks[i]
  {
    hide GroupTried, Members, Due;
  }
}
