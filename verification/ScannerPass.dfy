/** What one pass of the scanner does, exactly: which heights it commits, and when it rolls back. */
module ScannerPass {
  import opened Wrappers
  import opened BlockScanning
  import opened ScannerSafety

  /** How many blocks a batch holds. */
  function Size(env: Env): (n: nat)
    ensures n > 0
  {
    if env.blocksInChunk >= 1 then env.blocksInChunk else 1
  }

  /** The batch of a height, counted from the height after `base`. */
  function BatchOf(env: Env, base: int, height: int): int {
    (height - base - 1) / Size(env)
  }

  predicate IsFetched(env: Env, height: int) {
    env.fetch(height).Some?
  }

  /** The block at a height does not name another parent than the block before it, which for the first
      one is the stored block. */
  predicate Follows(env: Env, base: int, known: string, height: int) {
    IsFetched(env, height) && (height > base + 1 ==> IsFetched(env, height - 1)) &&
    var parent := env.fetch(height).value.prevHash;
    var before := if height > base + 1 then env.fetch(height - 1).value.hash else known;
    parent != "" && before != "" ==> parent == before
  }

  /** The transaction of a height goes through. */
  predicate Commits(env: Env, height: int) {
    env.commits(height) && height > 0
  }

  /** Between two states a height was committed. */
  ghost predicate CommittedSince(s: State, t: State, height: int) {
    exists i :: |s.log| <= i < |t.log| && t.log[i].Committed? && t.log[i].block.height == height
  }

  /** What was committed between two states is what the explorer has of these heights. */
  ghost predicate CommitsFetched(s: State, t: State, env: Env) {
    forall i :: |s.log| <= i < |t.log| && t.log[i].Committed? ==> FromNode(env, t.log[i].block)
  }

  function WithHeight(f: Fetched, height: int): Block {
    Block(height, f.hash, f.prevHash, f.webhooks)
  }

  /** Everything up to the end of the batch of a height can be fetched and follows, and the
      transactions up to the height go through. */
  ghost predicate Passes(env: Env, base: int, known: string, start: int, height: int) {
    && (forall g :: start <= g <= env.nodeHeight && BatchOf(env, base, g) <= BatchOf(env, base, height) ==>
          Follows(env, base, known, g))
    && (forall g :: start <= g <= height ==> Commits(env, g))
  }

  // ------------------------------------------------------------------------ one batch

  lemma InBatchIs(env: Env, base: int, k: nat, height: int)
    requires base < height
    ensures BatchOf(env, base, height) == k <==> base + 1 + k * Size(env) <= height <= base + (k + 1) * Size(env)
    ensures BatchOf(env, base, height) <= k <==> height <= base + (k + 1) * Size(env)
  {
    var x, c := height - base - 1, Size(env);
    assert x == c * (x / c) + x % c;
    assert (k + 1) * c == k * c + c;
    if x / c <= k - 1 {
      assert c * (x / c) <= c * (k - 1);
    } else if x / c >= k + 1 {
      assert c * (x / c) >= c * (k + 1);
    }
  }

  lemma SinceSplits(s: State, u: State, t: State, height: int)
    requires s.log <= u.log <= t.log
    ensures CommittedSince(s, t, height) <==> CommittedSince(s, u, height) || CommittedSince(u, t, height)
  {
    if CommittedSince(s, u, height) {
      var i :| |s.log| <= i < |u.log| && u.log[i].Committed? && u.log[i].block.height == height;
      assert t.log[i] == u.log[i];
    } else if CommittedSince(u, t, height) {
      var i :| |u.log| <= i < |t.log| && t.log[i].Committed? && t.log[i].block.height == height;
      assert t.log[i].block.height == height;
    } else {
      forall i | |s.log| <= i < |t.log| && t.log[i].Committed? ensures t.log[i].block.height != height {
        assert i < |u.log| ==> u.log[i] == t.log[i];
      }
    }
  }

  predicate AllCommit(env: Env, from: int, to: int) {
    forall g :: from <= g <= to ==> Commits(env, g)
  }

  predicate BlocksFrom(env: Env, blocks: seq<Block>, start: int) {
    forall k :: 0 <= k < |blocks| ==> blocks[k].height == start + k && FromNode(env, blocks[k])
  }

  /** The block is what the explorer has of its height. */
  predicate FromNode(env: Env, b: Block) {
    IsFetched(env, b.height) && b == WithHeight(env.fetch(b.height).value, b.height)
  }

  /** What committing a range of blocks changes: the heights up to the first that fails. */
  ghost predicate CommitsRange(s: State, t: State, ok: bool, env: Env, start: int, end: int) {
    && s.log <= t.log && t.row.Some? && t.running == s.running && t.rollbacks == s.rollbacks
    && (ok <==> AllCommit(env, start, end)) && CommitsFetched(s, t, env)
    && forall h :: CommittedSince(s, t, h) <==> start <= h <= end && AllCommit(env, start, h)
  }

  lemma CommitIff(s: State, env: Env, b: Block, checked: bool)
    requires s.row.Some? && FromNode(env, b)
    ensures var (t, ok) := Commit(s, env, b, true, checked); CommitsRange(s, t, ok, env, b.height, b.height)
  {
    var (t, ok) := Commit(s, env, b, true, checked);
    assert AllCommit(env, b.height, b.height) <==> Commits(env, b.height);
    if ok {
      assert t.log[|s.log|].block == b;
    }
  }

  lemma RangesJoin(s: State, u: State, t: State, ok: bool, env: Env, start: int, end: int)
    requires CommitsRange(s, u, true, env, start, start) && CommitsRange(u, t, ok, env, start + 1, end) && start <= end
    ensures CommitsRange(s, t, ok, env, start, end)
  {
    forall h ensures CommittedSince(s, t, h) <==> start <= h <= end && AllCommit(env, start, h) {
      SinceSplits(s, u, t, h);
      assert AllCommit(env, start, start);
      assert h > start ==> (AllCommit(env, start, h) <==> AllCommit(env, start + 1, h));
    }
    assert AllCommit(env, start, end) <==> AllCommit(env, start + 1, end);
  }

  lemma RangeStops(s: State, t: State, env: Env, start: int, end: int)
    requires CommitsRange(s, t, false, env, start, start) && start <= end
    ensures CommitsRange(s, t, false, env, start, end)
  {
    assert !Commits(env, start);
  }

  lemma {:induction false} CommitAllIff(s: State, env: Env, blocks: seq<Block>, start: int, checked: bool)
    requires s.row.Some? && BlocksFrom(env, blocks, start)
    ensures var (t, ok) := CommitAll(s, env, blocks, true, checked);
            CommitsRange(s, t, ok, env, start, start + |blocks| - 1)
    decreases |blocks|
  {
    hide Commit, CommitsRange;
    if blocks == [] {
      assert CommitsRange(s, s, true, env, start, start - 1) by {
        NoneCommitted(s, env, start);
      }
    } else {
      CommitAllOne(s, env, blocks, true, checked);
      CommitIff(s, env, blocks[0], checked);
      var (u, ok) := Commit(s, env, blocks[0], true, checked);
      if ok {
        RowStays(s, u, env, start);
        RestFrom(env, blocks, start);
        CommitAllIff(u, env, blocks[1..], start + 1, true);
        var (t, ok') := CommitAll(u, env, blocks[1..], true, true);
        RangesJoin(s, u, t, ok', env, start, start + |blocks| - 1);
      } else {
        RangeStops(s, u, env, start, start + |blocks| - 1);
      }
    }
  }

  lemma RestFrom(env: Env, blocks: seq<Block>, start: int)
    requires BlocksFrom(env, blocks, start) && blocks != []
    ensures BlocksFrom(env, blocks[1..], start + 1)
  {
    forall k | 0 <= k < |blocks| - 1 ensures blocks[1..][k] == blocks[k + 1] {
    }
  }

  lemma NoneCommitted(s: State, env: Env, start: int)
    requires s.row.Some?
    ensures CommitsRange(s, s, true, env, start, start - 1)
  {
  }

  lemma RowStays(s: State, u: State, env: Env, start: int)
    requires CommitsRange(s, u, true, env, start, start)
    ensures u.row.Some?
  {
  }

  // ----------------------------------------------------------------------- the batches

  /** The hash the block at `start` is checked against. */
  ghost predicate KnownAt(env: Env, base: int, known: string, start: int, now: string) {
    if start == base + 1 then now == known
    else start > base + 1 && IsFetched(env, start - 1) && now == env.fetch(start - 1).value.hash
  }

  predicate AllFetched(env: Env, from: int, to: int) {
    forall g :: from <= g <= to ==> IsFetched(env, g)
  }

  predicate AllFollow(env: Env, base: int, known: string, from: int, to: int) {
    forall g :: from <= g <= to ==> Follows(env, base, known, g)
  }

  lemma LoadsIff(env: Env, start: int, end: int)
    requires start <= end
    ensures Load(env, start, end - start + 1).Some? <==> AllFetched(env, start, end)
  {
    if AllFetched(env, start, end) {
      forall k | 0 <= k < end - start + 1 ensures SlotAt(env, start, k).Some? {
        assert IsFetched(env, start + k);
      }
    } else {
      var g :| start <= g <= end && !IsFetched(env, g);
      assert SlotAt(env, start, g - start).None?;
    }
  }

  /** The loaded blocks are accepted if and only if each follows the one before. */
  lemma LoadedAre(env: Env, start: int, end: int, blocks: seq<Block>, k: nat)
    requires start <= end && Load(env, start, end - start + 1) == Some(blocks) && k < |blocks|
    ensures blocks[k].height == start + k && IsFetched(env, start + k) && FromNode(env, blocks[k])
    ensures blocks[k].hash == env.fetch(start + k).value.hash
    ensures blocks[k].prevHash == env.fetch(start + k).value.prevHash
  {
    assert Some(blocks[k]) == SlotAt(env, start, k);
  }

  /** A loaded block names its parent exactly if its height follows. */
  lemma MatchesIff(env: Env, base: int, known: string, start: int, end: int, now: string, blocks: seq<Block>, k: nat)
    requires start <= end && KnownAt(env, base, known, start, now)
    requires Load(env, start, end - start + 1) == Some(blocks) && k < |blocks|
    ensures ParentMatches(blocks, now, k) <==> Follows(env, base, known, start + k)
  {
    hide Load;
    LoadedAre(env, start, end, blocks, k);
    if k > 0 {
      LoadedAre(env, start, end, blocks, k - 1);
    }
  }

  lemma LoadedRange(env: Env, start: int, end: int, blocks: seq<Block>)
    requires start <= end && Load(env, start, end - start + 1) == Some(blocks)
    ensures BlocksFrom(env, blocks, start) && |blocks| == end - start + 1
    ensures IsFetched(env, end) && blocks[|blocks| - 1].hash == env.fetch(end).value.hash
  {
    hide FromNode;
    forall k | 0 <= k < |blocks| ensures blocks[k].height == start + k && FromNode(env, blocks[k]) {
      LoadedAre(env, start, end, blocks, k);
    }
    LoadedAre(env, start, end, blocks, end - start);
  }

  lemma AcceptsIff(env: Env, base: int, known: string, start: int, end: int, now: string, blocks: seq<Block>)
    requires start <= end && KnownAt(env, base, known, start, now)
    requires Load(env, start, end - start + 1) == Some(blocks)
    ensures ChainOk(blocks, now) <==> AllFollow(env, base, known, start, end)
    ensures BlocksFrom(env, blocks, start) && |blocks| == end - start + 1
    ensures KnownAt(env, base, known, end + 1, blocks[|blocks| - 1].hash)
  {
    hide Load, ChainOk, ParentMatches, Follows;
    ChainOkIff(blocks, now);
    LoadedRange(env, start, end, blocks);
    forall k | 0 <= k < |blocks| ensures ParentMatches(blocks, now, k) <==> Follows(env, base, known, start + k) {
      MatchesIff(env, base, known, start, end, now, blocks, k);
    }
    if ChainOk(blocks, now) {
      forall g | start <= g <= end ensures Follows(env, base, known, g) {
        assert ParentMatches(blocks, now, g - start);
      }
    }
  }

  /** A block breaks the chain: its batch is fetched whole, and all batches before are committed. */
  ghost predicate BreaksAt(env: Env, base: int, known: string, start: int, height: int) {
    && start <= height <= env.nodeHeight && !Follows(env, base, known, height)
    && (forall g :: start <= g <= env.nodeHeight && BatchOf(env, base, g) <= BatchOf(env, base, height) ==>
       IsFetched(env, g))
    && (forall g :: start <= g <= env.nodeHeight && BatchOf(env, base, g) < BatchOf(env, base, height) ==>
          Follows(env, base, known, g) && Commits(env, g))
  }

  ghost predicate Breaks(env: Env, base: int, known: string, start: int) {
    exists h :: BreaksAt(env, base, known, start, h)
  }

  predicate Answered(env: Env) {
    env.startingBlock.Some? && env.rollbackHash.Some?
  }

  /** The commits and the rollback of the batches from a height on. */
  ghost predicate PassesExactly(s: State, t: State, env: Env, base: int, known: string, start: int) {
    && s.log <= t.log && CommitsFetched(s, t, env)
    && (forall h :: CommittedSince(s, t, h) <==> start <= h <= env.nodeHeight && Passes(env, base, known, start, h))
    && (t.rollbacks != s.rollbacks <==> Answered(env) && Breaks(env, base, known, start))
  }

  /** The first batch from `start` on is the `k`-th, and ends at `end`. */
  ghost predicate FirstBatch(env: Env, base: int, k: nat, start: int, end: int) {
    && base < start <= end <= env.nodeHeight
    && forall g :: start <= g <= env.nodeHeight ==>
         BatchOf(env, base, g) >= k && (BatchOf(env, base, g) == k <==> g <= end)
  }

  lemma FirstBatchIs(env: Env, base: int, k: nat, start: int, end: int)
    requires start == base + 1 + k * Size(env) <= env.nodeHeight &&
             end == Min(start + ChunkSize(env) - 1, env.nodeHeight)
    ensures FirstBatch(env, base, k, start, end)
    ensures end < env.nodeHeight ==> end + 1 == base + 1 + (k + 1) * Size(env)
  {
    assert (k + 1) * Size(env) == k * Size(env) + Size(env);
    forall g | start <= g <= env.nodeHeight
      ensures BatchOf(env, base, g) >= k && (BatchOf(env, base, g) == k <==> g <= end)
    {
      InBatchIs(env, base, k, g);
      if k > 0 {
        assert k * Size(env) == (k - 1) * Size(env) + Size(env);
        InBatchIs(env, base, k - 1, g);
      }
    }
  }

  /** A batch that cannot be fetched, or does not follow, commits nothing. */
  lemma NothingPasses(env: Env, base: int, known: string, k: nat, start: int, end: int)
    requires FirstBatch(env, base, k, start, end) && !AllFollow(env, base, known, start, end)
    ensures forall h :: start <= h <= env.nodeHeight ==> !Passes(env, base, known, start, h)
    ensures Breaks(env, base, known, start) <==> AllFetched(env, start, end)
  {
    var g :| start <= g <= end && !Follows(env, base, known, g);
    if AllFetched(env, start, end) {
      assert BreaksAt(env, base, known, start, g);
    } else {
      var x :| start <= x <= end && !IsFetched(env, x);
      forall h ensures !BreaksAt(env, base, known, start, h) {
        assert start <= h <= env.nodeHeight ==> BatchOf(env, base, x) <= BatchOf(env, base, h);
      }
    }
  }

  /** A batch that follows is committed up to the first transaction that fails, and then the pass ends. */
  lemma BatchStops(env: Env, base: int, known: string, k: nat, start: int, end: int)
    requires FirstBatch(env, base, k, start, end) && AllFollow(env, base, known, start, end)
    requires !AllCommit(env, start, end)
    ensures forall h :: start <= h <= env.nodeHeight ==>
              (Passes(env, base, known, start, h) <==> h <= end && AllCommit(env, start, h))
    ensures !Breaks(env, base, known, start)
  {
    var x :| start <= x <= end && !Commits(env, x);
    forall h ensures !BreaksAt(env, base, known, start, h) {
      assert end < h <= env.nodeHeight ==> BatchOf(env, base, x) < BatchOf(env, base, h);
    }
    forall h | start <= h <= env.nodeHeight
      ensures Passes(env, base, known, start, h) <==> h <= end && AllCommit(env, start, h)
    {
      if h <= end && AllCommit(env, start, h) {
        assert forall g :: start <= g <= h ==> Commits(env, g);
      }
    }
  }

  /** A batch that is committed whole leaves the rest to the batches after it. */
  lemma BatchGoesOn(env: Env, base: int, known: string, k: nat, start: int, end: int)
    requires FirstBatch(env, base, k, start, end) && AllFollow(env, base, known, start, end)
    requires AllCommit(env, start, end)
    ensures forall h :: start <= h <= end ==> Passes(env, base, known, start, h) && AllCommit(env, start, h)
    ensures forall h :: end < h <= env.nodeHeight ==>
              (Passes(env, base, known, start, h) <==> Passes(env, base, known, end + 1, h))
  {
  }

  lemma BreaksLater(env: Env, base: int, known: string, k: nat, start: int, end: int)
    requires FirstBatch(env, base, k, start, end) && AllFollow(env, base, known, start, end)
    requires AllCommit(env, start, end)
    ensures Breaks(env, base, known, start) <==> Breaks(env, base, known, end + 1)
  {
    hide Follows;
    AllFetchedIf(env, base, known, start, end);
    forall h ensures BreaksAt(env, base, known, start, h) <==> BreaksAt(env, base, known, end + 1, h) {
      if BreaksAt(env, base, known, end + 1, h) {
        forall g | start <= g <= env.nodeHeight && BatchOf(env, base, g) <= BatchOf(env, base, h)
          ensures IsFetched(env, g) {
        }
        assert BreaksAt(env, base, known, start, h);
      }
    }
    if Breaks(env, base, known, start) {
      var h :| BreaksAt(env, base, known, start, h);
      assert BreaksAt(env, base, known, end + 1, h);
    }
    if Breaks(env, base, known, end + 1) {
      var h :| BreaksAt(env, base, known, end + 1, h);
      assert BreaksAt(env, base, known, start, h);
    }
  }

  lemma AllFetchedIf(env: Env, base: int, known: string, from: int, to: int)
    requires AllFollow(env, base, known, from, to)
    ensures AllFetched(env, from, to)
  {
    forall g | from <= g <= to ensures IsFetched(env, g) {
      assert Follows(env, base, known, g);
    }
  }

  /** A rollback moves the memory before the incident, and commits nothing. */
  lemma RollbackIs(s: State, env: Env)
    ensures var t := Rollback(s, env);
            && s.log <= t.log && (forall h :: !CommittedSince(s, t, h))
            && (t.rollbacks != s.rollbacks <==> Answered(env))
            && (Answered(env) ==>
                  var height := env.startingBlock.value - 1;
                  && t.parsed == height && t.running == s.running && t.webhooks == s.webhooks
                  && t.row == if !env.rollbackWrites || height <= 0 then s.row
                              else if s.row.Some? then Some(Row(height, env.rollbackHash.value)) else None)
  {
  }

  lemma NothingDone(s: State, env: Env, base: int, known: string, start: int)
    requires start > env.nodeHeight ||
             ((forall h :: start <= h <= env.nodeHeight ==> !Passes(env, base, known, start, h)) &&
              !Breaks(env, base, known, start))
    ensures PassesExactly(s, s, env, base, known, start)
  {
  }

  lemma RolledBackIs(s: State, t: State, env: Env, base: int, known: string, start: int)
    requires t == Rollback(s, env) && Breaks(env, base, known, start)
    requires forall h :: start <= h <= env.nodeHeight ==> !Passes(env, base, known, start, h)
    ensures PassesExactly(s, t, env, base, known, start)
  {
    hide Passes, Breaks;
    RollbackIs(s, env);
  }

  lemma StopsAfter(s: State, u: State, env: Env, base: int, known: string, k: nat, start: int, end: int)
    requires FirstBatch(env, base, k, start, end) && AllFollow(env, base, known, start, end)
    requires CommitsRange(s, u, false, env, start, end)
    ensures PassesExactly(s, u, env, base, known, start)
  {
    hide Passes, Breaks, Follows, CommittedSince;
    BatchStops(env, base, known, k, start, end);
  }

  lemma GoesOnAfter(s: State, u: State, t: State, env: Env, base: int, known: string, k: nat, start: int, end: int)
    requires FirstBatch(env, base, k, start, end) && AllFollow(env, base, known, start, end)
    requires CommitsRange(s, u, true, env, start, end) && PassesExactly(u, t, env, base, known, end + 1)
    ensures PassesExactly(s, t, env, base, known, start)
  {
    hide Passes, Breaks, Follows, CommittedSince;
    BatchGoesOn(env, base, known, k, start, end);
    BreaksLater(env, base, known, k, start, end);
    forall h ensures CommittedSince(s, t, h) <==> start <= h <= env.nodeHeight && Passes(env, base, known, start, h) {
      SinceSplits(s, u, t, h);
    }
  }

  /** The batches from the `k`-th on. */
  lemma {:induction false} BatchesExactly(s: State, env: Env, base: int, known: string, k: nat, start: int,
                                          now: string, checked: bool)
    requires s.row.Some? && KnownAt(env, base, known, start, now)
    requires start == base + 1 + k * Size(env) || start > env.nodeHeight
    ensures PassesExactly(s, Batches(s, env, start, true, now, checked), env, base, known, start)
    decreases env.nodeHeight - start + 1
  {
    hide Load, CommitAll, PassesExactly, Passes, Breaks, CommitsRange, Rollback, FirstBatch, KnownAt, AllFollow,
         AllFetched, ChainOk;
    if start > env.nodeHeight {
      NothingDone(s, env, base, known, start);
    } else {
      var end := Min(start + ChunkSize(env) - 1, env.nodeHeight);
      FirstBatchIs(env, base, k, start, end);
      LoadsIff(env, start, end);
      var loaded := Load(env, start, end - start + 1);
      if loaded.None? {
        NotFetched(env, base, known, start, end);
        NothingPasses(env, base, known, k, start, end);
        NothingDone(s, env, base, known, start);
      } else {
        var blocks := loaded.value;
        BatchesOne(s, env, start, true, now, checked, end, blocks);
        AcceptsIff(env, base, known, start, end, now, blocks);
        if !ChainOk(blocks, now) {
          NothingPasses(env, base, known, k, start, end);
          RolledBackIs(s, Rollback(s, env), env, base, known, start);
        } else {
          CommitAllIff(s, env, blocks, start, checked);
          var (u, ok) := CommitAll(s, env, blocks, true, checked);
          if !ok {
            StopsAfter(s, u, env, base, known, k, start, end);
          } else {
            RangeKeepsRow(s, u, env, start, end);
            BatchesExactly(u, env, base, known, k + 1, end + 1, blocks[|blocks| - 1].hash, true);
            var t := Batches(u, env, end + 1, true, blocks[|blocks| - 1].hash, true);
            GoesOnAfter(s, u, t, env, base, known, k, start, end);
          }
        }
      }
    }
  }

  lemma RangeKeepsRow(s: State, u: State, env: Env, start: int, end: int)
    requires CommitsRange(s, u, true, env, start, end)
    ensures u.row.Some?
  {
  }

  lemma NotFetched(env: Env, base: int, known: string, start: int, end: int)
    requires !AllFetched(env, start, end)
    ensures !AllFollow(env, base, known, start, end)
  {
    var g :| start <= g <= end && !IsFetched(env, g);
    assert !Follows(env, base, known, g);
  }

  /** The stored hash, if it was read. */
  function StoredHash(s: State, env: Env): string {
    if env.rowRead && s.row.Some? then s.row.value.hash else ""
  }

  /** A pass of a scanner that has parsed blocks commits a height above the last if and only if all
      blocks up to the end of its batch can be fetched and name the block before for their parent, as
      far as the hashes are known, and the transactions of all heights up to it go through. It rolls
      back if and only if the incident is answered and there is a block that names another parent, in
      a batch that can be fetched, after batches that were committed whole. */
  lemma PassExactly(s: State, env: Env)
    requires s.running && s.row.Some? && s.parsed != -1 && s.parsed < env.nodeHeight && env.nodeHeight != 0
    ensures PassesExactly(s, Pass(s, env), env, s.parsed, StoredHash(s, env), s.parsed + 1)
  {
    hide PassesExactly;
    BatchesExactly(s, env, s.parsed, StoredHash(s, env), 0, s.parsed + 1, StoredHash(s, env), env.rowRead);
  }

  /** A pass of a scanner that never parsed a block takes the last block of the node only, unchecked. */
  lemma FirstPassExactly(s: State, env: Env)
    requires s.running && s.row.None? && s.parsed == -1 && env.nodeHeight > 0
    ensures var t, block := Pass(s, env), env.fetch(env.nodeHeight);
            if block.Some? && env.commits(env.nodeHeight)
            then
              && t.row == Some(Row(env.nodeHeight, block.value.hash)) && t.parsed == env.nodeHeight
              && t.webhooks == s.webhooks + block.value.webhooks && |t.log| == |s.log| + 1
            else t == s
  {
    var h := env.nodeHeight;
    if env.fetch(h).Some? {
      var f := env.fetch(h).value;
      LoadOne(env, h);
      var b := Block(h, f.hash, f.prevHash, f.webhooks);
      BatchesOne(s, env, h, false, "", env.rowRead, h, [b]);
      CommitAllOne(s, env, [b], false, env.rowRead);
    } else {
      assert SlotAt(env, h, 0).None?;
    }
  }

  /** A pass does nothing before a start, or when nothing is new, or the height of the node is not known. */
  lemma IdlePass(s: State, env: Env)
    ensures !s.running || s.parsed >= env.nodeHeight || env.nodeHeight == 0 ==> Pass(s, env) == s
  {
  }
}
