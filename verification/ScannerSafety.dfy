/** What holds of the scanner after any sequence of starts and passes, whatever the node, the
    explorer and the database answer. */
module ScannerSafety {
  import opened Wrappers
  import opened BlockScanning

  datatype Action = PassWith(env: Env) | StartWith(readable: bool)

  function Act(s: State, a: Action): State {
    match a
    case PassWith(env) => Pass(s, env)
    case StartWith(readable) => Started(s, readable)
  }

  /** The state after some actions of a scanner whose chain was never processed before. */
  function After(actions: seq<Action>): State {
    if actions == [] then INITIAL
    else Act(After(actions[..|actions| - 1]), actions[|actions| - 1])
  }

  // ------------------------------------------------------------- what the log says

  function RowOf(e: Event): Row {
    match e
    case Committed(b, _, _, _) => Row(b.height, b.hash)
    case RolledBack(number, hash) => Row(number, hash)
  }

  /** Every block that was checked against the stored hash has it for its parent, unless one of the
      two hashes is not known. */
  predicate Linked(log: seq<Event>) {
    forall i :: 1 <= i < |log| && log[i].Committed? && log[i].checked ==>
      var parent, stored := log[i].block.prevHash, RowOf(log[i - 1]).hash;
      parent != "" && stored != "" ==> parent == stored
  }

  /** Every commit is of the height after the stored one, unless memory and row disagreed. */
  predicate OneByOne(log: seq<Event>) {
    forall i :: 1 <= i < |log| && log[i].Committed? && !log[i].torn ==>
      log[i].block.height == RowOf(log[i - 1]).number + 1
  }

  /** The row was created by the first commit and only updated since. */
  predicate CreatedOnce(log: seq<Event>) {
    forall i :: 0 <= i < |log| ==> ((log[i].Committed? && log[i].created) <==> i == 0)
  }

  function WebhooksOf(e: Event): seq<nat> {
    if e.Committed? then e.block.webhooks else []
  }

  /** The webhooks of the committed blocks, in order. */
  function AllWebhooks(log: seq<Event>): seq<nat> {
    if log == [] then [] else AllWebhooks(log[..|log| - 1]) + WebhooksOf(log[|log| - 1])
  }

  ghost predicate CommittedAt(log: seq<Event>, height: int) {
    exists i :: 0 <= i < |log| && log[i].Committed? && log[i].block.height == height
  }

  /** All heights from the first committed one on were committed. */
  ghost predicate Covered(log: seq<Event>, last: int)
    requires log != [] ==> log[0].Committed?
  {
    log != [] ==> forall h :: log[0].block.height <= h <= last ==> CommittedAt(log, h)
  }

  /** No rollback moved the memory past the highest height committed. */
  predicate OnlyKnown(moves: seq<Move>) {
    forall i :: 0 <= i < |moves| ==> moves[i].to <= moves[i].highest
  }

  /** All heights from the first committed one to the highest were committed, and what the scanner
      goes on from is not past them. */
  ghost predicate NoGap(s: State)
    requires s.log != [] ==> s.log[0].Committed?
  {
    && Covered(s.log, Highest(s.log))
    && (s.row.Some? ==> s.row.value.number <= Highest(s.log))
    && (s.running ==> s.parsed <= Highest(s.log))
  }

  ghost predicate Inv(s: State) {
    var log := s.log;
    && CreatedOnce(log) && Linked(log) && OneByOne(log)
    && s.webhooks == AllWebhooks(log)
    && s.row == (if log == [] then None else Some(RowOf(log[|log| - 1])))
    && (s.row.Some? ==> s.row.value.number > 0)
    && (s.torn ==> s.row.Some?)
    && (s.running && !s.torn ==> s.parsed == if s.row.Some? then s.row.value.number else NONE_PARSED)
    && (OnlyKnown(s.rollbacks) ==> NoGap(s))
  }

  // ------------------------------------------------------------------- one commit

  lemma CoverGrows(log: seq<Event>, e: Event, last: int)
    requires log != [] && log[0].Committed? && Covered(log, last)
    ensures Covered(log + [e], last)
    ensures e.Committed? && e.block.height == last + 1 ==> Covered(log + [e], last + 1)
  {
    var all := log + [e];
    forall h | log[0].block.height <= h <= last ensures CommittedAt(all, h) {
      assert CommittedAt(log, h);
      var i :| 0 <= i < |log| && log[i].Committed? && log[i].block.height == h;
      assert all[i] == log[i];
    }
    if e.Committed? && e.block.height == last + 1 {
      assert all[|log|].block.height == last + 1;
    }
  }

  lemma HighestGrows(log: seq<Event>, e: Event)
    ensures Highest(log + [e]) == if e.Committed? && e.block.height > Highest(log) then e.block.height else Highest(log)
  {
    assert (log + [e])[..|log|] == log;
  }

  /** A committed height is not above the highest. */
  lemma {:induction false} HighestIs(log: seq<Event>, height: int)
    requires CommittedAt(log, height)
    ensures height <= Highest(log)
  {
    var n := |log| - 1;
    var i :| 0 <= i < |log| && log[i].Committed? && log[i].block.height == height;
    if i < n {
      assert log[..n][i] == log[i];
      HighestIs(log[..n], height);
    }
  }

  lemma WebhooksGrow(log: seq<Event>, e: Event)
    ensures AllWebhooks(log + [e]) == AllWebhooks(log) + WebhooksOf(e)
  {
    assert (log + [e])[..|log|] == log;
  }

  /** A commit of a height no more than one above the highest leaves no gap. */
  lemma GapStays(s: State, t: State, e: Event)
    requires s.log == [] || (s.log[0].Committed? && NoGap(s) && e.Committed? && e.block.height <= Highest(s.log) + 1)
    requires e.Committed? && e.block.height > 0 && t.log == s.log + [e]
    requires t.row == Some(RowOf(e)) && t.parsed == e.block.height
    ensures NoGap(t)
  {
    HighestGrows(s.log, e);
    if s.log == [] {
      assert t.log[0] == e;
    } else {
      CoverGrows(s.log, e, Highest(s.log));
    }
  }

  /** A block may be committed: the row exists and the block is the next one and fits, or no block
      was ever committed. */
  predicate MayCommit(s: State, b: Block, exists_: bool, checked: bool) {
    s.running &&
    if exists_ then s.row.Some? && b.height == s.parsed + 1 && (checked ==> Fits(b.prevHash, s.row.value.hash))
    else s.row.Some? || s.log == []
  }

  lemma CommitKeeps(s: State, env: Env, b: Block, exists_: bool, checked: bool)
    requires Inv(s) && MayCommit(s, b, exists_, checked)
    ensures var (t, ok) := Commit(s, env, b, exists_, checked);
            && Inv(t) && t.running
            && (ok ==> t.parsed == b.height && t.row == Some(Row(b.height, b.hash)))
  {
    var (t, ok) := Commit(s, env, b, exists_, checked);
    if ok {
      var e := Committed(b, !exists_, checked, s.torn);
      WebhooksGrow(s.log, e);
      if OnlyKnown(s.rollbacks) {
        GapStays(s, t, e);
      }
    }
  }

  /** Blocks that may be committed one after the other. */
  predicate MayCommitAll(s: State, blocks: seq<Block>, exists_: bool, checked: bool) {
    && (blocks != [] ==> MayCommit(s, blocks[0], exists_, checked))
    && forall k :: 1 <= k < |blocks| ==>
         blocks[k].height == blocks[k - 1].height + 1 && Fits(blocks[k].prevHash, blocks[k - 1].hash)
  }

  lemma RestMayCommit(s: State, t: State, blocks: seq<Block>, exists_: bool, checked: bool)
    requires MayCommitAll(s, blocks, exists_, checked) && blocks != []
    requires t.running && t.parsed == blocks[0].height && t.row == Some(Row(blocks[0].height, blocks[0].hash))
    ensures MayCommitAll(t, blocks[1..], true, true)
  {
  }

  lemma CommitAllOne(s: State, env: Env, blocks: seq<Block>, exists_: bool, checked: bool)
    requires blocks != []
    ensures var (t, ok) := Commit(s, env, blocks[0], exists_, checked);
            CommitAll(s, env, blocks, exists_, checked) == if ok then CommitAll(t, env, blocks[1..], true, true)
              else (t, false)
  {
  }

  /** The state after some commits: the promises, and the height the row is at. */
  ghost predicate Kept(t: State, done: bool, height: int, hash: string) {
    Inv(t) && t.running && (done ==> t.parsed == height && t.row == Some(Row(height, hash)))
  }

  lemma {:induction false} CommitAllKeeps(s: State, env: Env, blocks: seq<Block>, exists_: bool, checked: bool)
    requires Inv(s) && s.running && MayCommitAll(s, blocks, exists_, checked) && blocks != []
    ensures var (t, ok) := CommitAll(s, env, blocks, exists_, checked);
            var last := blocks[|blocks| - 1];
            exists u :: u == t && Kept(u, ok, last.height, last.hash)
    decreases |blocks|
  {
    CommitKeeps(s, env, blocks[0], exists_, checked);
    var (t, ok) := Commit(s, env, blocks[0], exists_, checked);
    assert Kept(t, ok, blocks[0].height, blocks[0].hash);
    CommitAllOne(s, env, blocks, exists_, checked);
    if ok && |blocks| > 1 {
      RestMayCommit(s, t, blocks, exists_, checked);
      CommitAllKeeps(t, env, blocks[1..], true, true);
      assert blocks[1..][|blocks| - 2] == blocks[|blocks| - 1];
    } else if ok {
      assert CommitAll(t, env, blocks[1..], true, true) == (t, true);
    } else {
      assert Kept(t, ok, blocks[|blocks| - 1].height, blocks[|blocks| - 1].hash);
    }
  }

  // --------------------------------------------------------------- rollbacks, batches

  lemma OnlyKnownBefore(moves: seq<Move>, move: Move)
    requires OnlyKnown(moves + [move])
    ensures OnlyKnown(moves) && move.to <= move.highest
  {
    var all := moves + [move];
    assert all[|moves|] == move;
    forall i | 0 <= i < |moves| ensures moves[i].to <= moves[i].highest {
      assert all[i] == moves[i];
    }
  }

  lemma RollbackKeeps(s: State, env: Env)
    requires Inv(s) && s.running && s.row.Some?
    ensures Inv(Rollback(s, env))
  {
    var t := Rollback(s, env);
    if t != s {
      var height := env.startingBlock.value - 1;
      if OnlyKnown(t.rollbacks) {
        OnlyKnownBefore(s.rollbacks, Move(height, Highest(s.log)));
      }
      if t.log != s.log {
        var e := RolledBack(height, env.rollbackHash.value);
        WebhooksGrow(s.log, e);
        HighestGrows(s.log, e);
        if OnlyKnown(t.rollbacks) {
          CoverGrows(s.log, e, Highest(s.log));
        }
      }
    }
  }

  /** The batches from `start` on are about to be handled. */
  predicate AtBatch(s: State, env: Env, start: int, exists_: bool, known: string, checked: bool) {
    && s.running
    && (if exists_ then s.row.Some? && start == s.parsed + 1 && (checked ==> known == s.row.value.hash)
        else start >= env.nodeHeight && (s.row.Some? || s.log == []))
  }

  lemma BatchMayCommit(s: State, env: Env, start: int, exists_: bool, known: string, checked: bool, end: int,
                       blocks: seq<Block>)
    requires AtBatch(s, env, start, exists_, known, checked) && start <= end <= env.nodeHeight
    requires Load(env, start, end - start + 1) == Some(blocks) && (exists_ ==> ChainOk(blocks, known))
    ensures MayCommitAll(s, blocks, exists_, checked) && blocks != [] && blocks[|blocks| - 1].height == end
  {
    forall k | 0 <= k < |blocks| ensures blocks[k].height == start + k && (exists_ ==> FitsAt(blocks, known, k)) {
      assert Some(blocks[k]) == SlotAt(env, start, k);
    }
    forall k | 1 <= k < |blocks|
      ensures blocks[k].height == blocks[k - 1].height + 1 && Fits(blocks[k].prevHash, blocks[k - 1].hash)
    {
      assert exists_ && FitsAt(blocks, known, k);
    }
    if exists_ {
      assert FitsAt(blocks, known, 0);
    }
  }

  /** The promises hold of a state, as one fact. */
  ghost predicate Holds(s: State) {
    exists t :: t == s && Inv(t)
  }

  /** A good batch keeps the promises, and if it is committed whole, the next one can be handled. */
  lemma BatchCommits(s: State, env: Env, start: int, exists_: bool, known: string, checked: bool, end: int,
                     blocks: seq<Block>)
    requires Inv(s) && AtBatch(s, env, start, exists_, known, checked) && start <= end <= env.nodeHeight
    requires Load(env, start, end - start + 1) == Some(blocks) && (exists_ ==> ChainOk(blocks, known))
    ensures var (t, ok) := CommitAll(s, env, blocks, exists_, checked);
            Holds(t) && blocks != [] && (ok ==> AtBatch(t, env, end + 1, true, blocks[|blocks| - 1].hash, true))
  {
    BatchMayCommit(s, env, start, exists_, known, checked, end, blocks);
    CommitAllKeeps(s, env, blocks, exists_, checked);
    var (t, ok) := CommitAll(s, env, blocks, exists_, checked);
    assert Kept(t, ok, end, blocks[|blocks| - 1].hash);
  }

  /** One batch keeps the promises, and the rest of the pass starts from what it leaves. */
  lemma BatchKeeps(s: State, env: Env, start: int, exists_: bool, known: string, checked: bool)
    returns (after: State, more: bool, next: int, hash: string)
    requires Inv(s) && AtBatch(s, env, start, exists_, known, checked)
    ensures Holds(after)
    ensures Batches(s, env, start, exists_, known, checked) == if more then Batches(after, env, next, true, hash, true)
            else after
    ensures more ==> start < next && start <= env.nodeHeight && AtBatch(after, env, next, true, hash, true)
  {
    hide Load, CommitAll;
    after, more, next, hash := s, false, start, "";
    if start <= env.nodeHeight {
      var end := Min(start + ChunkSize(env) - 1, env.nodeHeight);
      var loaded := Load(env, start, end - start + 1);
      if loaded.Some? {
        var blocks := loaded.value;
        BatchesOne(s, env, start, exists_, known, checked, end, blocks);
        if exists_ && !ChainOk(blocks, known) {
          RollbackKeeps(s, env);
          after := Rollback(s, env);
        } else {
          BatchCommits(s, env, start, exists_, known, checked, end, blocks);
          var (t, ok) := CommitAll(s, env, blocks, exists_, checked);
          after, more, next, hash := t, ok, end + 1, blocks[|blocks| - 1].hash;
        }
      }
    }
  }

  lemma {:induction false} BatchesKeep(s: State, env: Env, start: int, exists_: bool, known: string, checked: bool)
    requires Inv(s) && AtBatch(s, env, start, exists_, known, checked)
    ensures Holds(Batches(s, env, start, exists_, known, checked))
    decreases env.nodeHeight - start + 1
  {
    var after, more, next, hash := BatchKeeps(s, env, start, exists_, known, checked);
    if more {
      BatchesKeep(after, env, next, true, hash, true);
    }
  }

  lemma PassKeeps(s: State, env: Env)
    requires Inv(s)
    ensures Inv(Pass(s, env))
  {
    if !Idle(s, env) {
      BatchesKeep(s, env, Base(s, env) + 1, s.parsed != NONE_PARSED, KnownHash(s, env), env.rowRead);
    }
  }

  /** After any sequence of starts and passes: each checked block fits the hash stored before it;
      each commit is of the next height; the row was created once, by the first commit, and is what
      the last commit or rollback stored; the inserted webhooks are those of the committed blocks;
      memory and row agree unless a rollback failed to write the row; and if no rollback went past
      the highest height committed by then, all heights from the first committed to the last parsed
      were committed. */
  lemma {:induction false} ScannerSafety(actions: seq<Action>)
    ensures Inv(After(actions))
  {
    if actions != [] {
      var s := After(actions[..|actions| - 1]);
      ScannerSafety(actions[..|actions| - 1]);
      match actions[|actions| - 1]
      case PassWith(env) => PassKeeps(s, env);
      case StartWith(_) =>
    }
  }

  // ------------------------------------------------------------------------ coverage

  /** All heights from the first committed one to where the row and the memory are were committed. */
  ghost predicate CoveredIn(s: State)
    requires s.log != [] ==> s.log[0].Committed?
  {
    s.row.Some? ==> Covered(s.log, s.row.value.number) && (s.running ==> Covered(s.log, s.parsed))
  }

  /** Without a rollback past the highest height all heights are covered. */
  lemma KnownCovers(s: State)
    requires Inv(s) && OnlyKnown(s.rollbacks)
    ensures CoveredIn(s)
  {
  }

  /** The memory is where the last rollback put it. */
  predicate JustRolled(s: State, t: State) {
    && |t.rollbacks| == |s.rollbacks| + 1 && s.rollbacks <= t.rollbacks && t.running && t.row.Some?
    && var m := t.rollbacks[|s.rollbacks|]; t.parsed == m.to && m.highest == Highest(t.log)
  }

  predicate RolledFrom(s: State, t: State) {
    t.rollbacks == s.rollbacks || JustRolled(s, t)
  }

  lemma RollbackRolls(s: State, env: Env)
    requires s.running && s.row.Some?
    ensures RolledFrom(s, Rollback(s, env))
  {
    if Rollback(s, env).log != s.log {
      HighestGrows(s.log, RolledBack(env.startingBlock.value - 1, env.rollbackHash.value));
    }
  }

  lemma {:induction false} CommitAllRuns(s: State, env: Env, blocks: seq<Block>, exists_: bool, checked: bool)
    requires exists_ ==> s.row.Some?
    ensures var (t, ok) := CommitAll(s, env, blocks, exists_, checked);
            t.running == s.running && t.rollbacks == s.rollbacks && (ok && blocks != [] ==> t.row.Some?)
    decreases |blocks|
  {
    if blocks != [] {
      CommitAllOne(s, env, blocks, exists_, checked);
      var (t, ok) := Commit(s, env, blocks[0], exists_, checked);
      if ok {
        CommitAllRuns(t, env, blocks[1..], true, true);
      }
    }
  }

  lemma {:induction false} BatchesRoll(s: State, env: Env, start: int, exists_: bool, known: string, checked: bool)
    requires s.running && (exists_ ==> s.row.Some?)
    ensures RolledFrom(s, Batches(s, env, start, exists_, known, checked))
    decreases env.nodeHeight - start + 1
  {
    hide Load, CommitAll;
    if start <= env.nodeHeight {
      var end := Min(start + ChunkSize(env) - 1, env.nodeHeight);
      var loaded := Load(env, start, end - start + 1);
      if loaded.Some? {
        var blocks := loaded.value;
        BatchesOne(s, env, start, exists_, known, checked, end, blocks);
        if exists_ && !ChainOk(blocks, known) {
          RollbackRolls(s, env);
        } else {
          var (u, ok) := CommitAll(s, env, blocks, exists_, checked);
          CommitAllRuns(s, env, blocks, exists_, checked);
          if ok {
            var hash := blocks[|blocks| - 1].hash;
            assert Batches(s, env, start, exists_, known, checked) == Batches(u, env, end + 1, true, hash, true);
            BatchesRoll(u, env, end + 1, true, hash, true);
          }
        }
      }
    }
  }

  lemma ActRolls(s: State, a: Action)
    requires Inv(s)
    ensures RolledFrom(s, Act(s, a))
  {
    match a
    case PassWith(env) =>
      if !Idle(s, env) {
        BatchesRoll(s, env, Base(s, env) + 1, s.parsed != NONE_PARSED, KnownHash(s, env), env.rowRead);
      }
    case StartWith(_) =>
  }

  /** Right after a rollback the heights are covered exactly if it did not go past the highest. */
  lemma RolledCoversIff(s: State, t: State)
    requires Inv(s) && Inv(t) && OnlyKnown(s.rollbacks) && JustRolled(s, t)
    ensures var m := t.rollbacks[|s.rollbacks|];
            && (OnlyKnown(t.rollbacks) <==> m.to <= m.highest)
            && (CoveredIn(t) <==> m.to <= m.highest)
  {
    var m := t.rollbacks[|s.rollbacks|];
    if m.to <= m.highest {
      forall i | 0 <= i < |t.rollbacks| ensures t.rollbacks[i].to <= t.rollbacks[i].highest {
        if i < |s.rollbacks| {
          assert t.rollbacks[i] == s.rollbacks[i];
        }
      }
      KnownCovers(t);
    } else if CoveredIn(t) {
      FirstIsCommitted(t.log);
      assert CommittedAt(t.log, m.to);
      HighestIs(t.log, m.to);
    }
  }

  lemma FirstIsCommitted(log: seq<Event>)
    requires log != [] && log[0].Committed?
    ensures log[0].block.height <= Highest(log)
  {
    assert CommittedAt(log, log[0].block.height);
    HighestIs(log, log[0].block.height);
  }

  /** With no gap so far, a rollback to the height before the incident leaves all heights covered if
      and only if that height is not past the highest one ever committed. */
  lemma RollbackCoversIff(s: State, env: Env)
    requires Inv(s) && OnlyKnown(s.rollbacks) && s.running && s.row.Some?
    requires env.startingBlock.Some? && env.rollbackHash.Some?
    ensures Inv(Rollback(s, env)) && (CoveredIn(Rollback(s, env)) <==> env.startingBlock.value - 1 <= Highest(s.log))
  {
    RollbackKeeps(s, env);
    RollbackRolls(s, env);
    assert Rollback(s, env).rollbacks[|s.rollbacks|] == Move(env.startingBlock.value - 1, Highest(s.log));
    RolledCoversIff(s, Rollback(s, env));
  }

  ghost predicate CoveredAfter(actions: seq<Action>) {
    exists s :: s == After(actions) && Inv(s) && CoveredIn(s)
  }

  ghost predicate AlwaysCovered(actions: seq<Action>) {
    forall k :: 0 <= k <= |actions| ==> CoveredAfter(actions[..k])
  }

  lemma CoveredIs(actions: seq<Action>)
    ensures Inv(After(actions)) && (CoveredAfter(actions) <==> CoveredIn(After(actions)))
  {
    ScannerSafety(actions);
  }

  lemma AlwaysBefore(actions: seq<Action>)
    requires actions != []
    ensures AlwaysCovered(actions) <==> AlwaysCovered(actions[..|actions| - 1]) && CoveredAfter(actions)
  {
    var n := |actions| - 1;
    assert actions[..|actions|] == actions;
    forall k | 0 <= k <= n ensures actions[..n][..k] == actions[..k] {
    }
  }

  /** One more action: either no rollback, or one whose height decides. */
  lemma CoveredNext(s: State, t: State)
    requires Inv(s) && Inv(t) && RolledFrom(s, t)
    ensures OnlyKnown(s.rollbacks) ==> (CoveredIn(t) <==> OnlyKnown(t.rollbacks))
    ensures OnlyKnown(t.rollbacks) ==> OnlyKnown(s.rollbacks)
  {
    if t.rollbacks == s.rollbacks {
      if OnlyKnown(t.rollbacks) {
        KnownCovers(t);
      }
    } else {
      if OnlyKnown(t.rollbacks) {
        forall i | 0 <= i < |s.rollbacks| ensures s.rollbacks[i].to <= s.rollbacks[i].highest {
          assert t.rollbacks[i] == s.rollbacks[i];
        }
      }
      if OnlyKnown(s.rollbacks) {
        RolledCoversIff(s, t);
      }
    }
  }

  /** Throughout any sequence of starts and passes all heights from the first committed one on are
      covered, if and only if no rollback went past the highest height ever committed by then. */
  lemma {:induction false} CoverageIff(actions: seq<Action>)
    ensures AlwaysCovered(actions) <==> OnlyKnown(After(actions).rollbacks)
  {
    CoveredIs(actions);
    if actions == [] {
      assert actions[..0] == actions;
    } else {
      var before := actions[..|actions| - 1];
      CoverageIff(before);
      CoveredIs(before);
      AlwaysBefore(actions);
      ActRolls(After(before), actions[|actions| - 1]);
      CoveredNext(After(before), After(actions));
    }
  }

  // -------------------------------------------------------------------- whole batches

  /** The block at a height has the one before it for its parent, unless a hash is not known. */
  predicate LinkAt(env: Env, height: int) {
    && env.fetch(height - 1).Some? && env.fetch(height).Some?
    && var parent, before := env.fetch(height).value.prevHash, env.fetch(height - 1).value.hash;
       parent != "" && before != "" ==> parent == before
  }

  /** All blocks of a range can be fetched, and each fits the one before it. */
  ghost predicate RangeLinked(env: Env, from: int, to: int) {
    && (forall g :: from <= g <= to ==> env.fetch(g).Some?)
    && (forall g :: from < g <= to ==> LinkAt(env, g))
  }

  /** Batch `k` of a pass that starts after height `base` is sound from end to end. */
  ghost predicate BatchSound(env: Env, base: int, k: nat) {
    var from := base + 1 + k * ChunkSize(env);
    RangeLinked(env, from, Min(from + ChunkSize(env) - 1, env.nodeHeight))
  }

  predicate InBatch(env: Env, base: int, k: nat, height: int) {
    var from := base + 1 + k * ChunkSize(env);
    from <= height <= Min(from + ChunkSize(env) - 1, env.nodeHeight)
  }

  /** Every block the pass committed belongs to a batch without a broken link. */
  ghost predicate SoundCommits(env: Env, base: int, log: seq<Event>, from: nat) {
    forall i :: from <= i < |log| && log[i].Committed? ==>
      exists k: nat :: InBatch(env, base, k, log[i].block.height) && BatchSound(env, base, k)
  }

  lemma LoadedIsLinked(env: Env, start: int, end: int, blocks: seq<Block>, known: string)
    requires start <= end && Load(env, start, end - start + 1) == Some(blocks)
    requires ChainOk(blocks, known) || start == end
    ensures RangeLinked(env, start, end)
  {
    forall g | start <= g <= end ensures BlockAt(env, g) == Some(blocks[g - start]) && env.fetch(g).Some? {
      assert SlotAt(env, start, g - start) == BlockAt(env, g);
    }
    forall g | start < g <= end ensures LinkAt(env, g) {
      assert FitsAt(blocks, known, g - start);
      assert BlockAt(env, g - 1) == Some(blocks[g - 1 - start]);
    }
  }

  /** Committing blocks logs some of them. */
  lemma {:induction false} CommitAllLogs(s: State, env: Env, blocks: seq<Block>, exists_: bool, checked: bool)
    ensures var t := CommitAll(s, env, blocks, exists_, checked).0;
            && s.log <= t.log
            && forall i :: |s.log| <= i < |t.log| ==> t.log[i].Committed? && t.log[i].block in blocks
    decreases |blocks|
  {
    if blocks != [] {
      CommitAllOne(s, env, blocks, exists_, checked);
      var (t, ok) := Commit(s, env, blocks[0], exists_, checked);
      if ok {
        CommitAllLogs(t, env, blocks[1..], true, true);
      }
    }
  }

  /** The blocks a batch commits are of that batch. */
  lemma BatchLogsSound(s: State, env: Env, base: int, k: nat, start: int, exists_: bool, known: string, checked: bool,
                       end: int, blocks: seq<Block>, u: State)
    requires start == base + 1 + k * ChunkSize(env) && start <= end == Min(start + ChunkSize(env) - 1, env.nodeHeight)
    requires Load(env, start, end - start + 1) == Some(blocks) && (ChainOk(blocks, known) || start == end)
    requires u == CommitAll(s, env, blocks, exists_, checked).0
    ensures s.log <= u.log && SoundCommits(env, base, u.log, |s.log|)
    ensures forall i :: |s.log| <= i < |u.log| ==> u.log[i].Committed?
  {
    LoadedIsLinked(env, start, end, blocks, known);
    CommitAllLogs(s, env, blocks, exists_, checked);
    forall i | |s.log| <= i < |u.log|
      ensures InBatch(env, base, k, u.log[i].block.height) && BatchSound(env, base, k)
    {
      var x :| 0 <= x < |blocks| && blocks[x] == u.log[i].block;
      assert Some(blocks[x]) == SlotAt(env, start, x);
    }
  }

  lemma {:induction false} BatchesSound(s: State, env: Env, base: int, k: nat, start: int, exists_: bool,
                                        known: string, checked: bool)
    requires start == base + 1 + k * ChunkSize(env) || start > env.nodeHeight
    requires exists_ || start >= env.nodeHeight
    ensures var t := Batches(s, env, start, exists_, known, checked);
            s.log <= t.log && SoundCommits(env, base, t.log, |s.log|)
    decreases env.nodeHeight - start + 1
  {
    hide Load, CommitAll;
    if start <= env.nodeHeight {
      var end := Min(start + ChunkSize(env) - 1, env.nodeHeight);
      var loaded := Load(env, start, end - start + 1);
      if loaded.Some? {
        var blocks := loaded.value;
        BatchesOne(s, env, start, exists_, known, checked, end, blocks);
        if !exists_ || ChainOk(blocks, known) {
          var (u, ok) := CommitAll(s, env, blocks, exists_, checked);
          BatchLogsSound(s, env, base, k, start, exists_, known, checked, end, blocks, u);
          if ok {
            assert base + 1 + (k + 1) * ChunkSize(env) == start + ChunkSize(env);
            var hash := blocks[|blocks| - 1].hash;
            assert Batches(s, env, start, exists_, known, checked) == Batches(u, env, end + 1, true, hash, true);
            BatchesSound(u, env, base, k + 1, end + 1, true, hash, true);
          }
        }
      }
    }
  }

  /** In one pass a batch with a block that cannot be fetched, or with a broken link, commits
      nothing: every block the pass commits is of a batch that is sound from end to end. */
  lemma BrokenBatchCommitsNothing(s: State, env: Env)
    ensures s.log <= Pass(s, env).log && SoundCommits(env, Base(s, env), Pass(s, env).log, |s.log|)
  {
    if !Idle(s, env) {
      BatchesSound(s, env, Base(s, env), 0, Base(s, env) + 1, s.parsed != NONE_PARSED, KnownHash(s, env), env.rowRead);
    }
  }

  // ----------------------------------------------------------------- the missing case

  /** The answers of a node whose blocks all fit until the incident says to start at height 9. */
  function Forward(nodeHeight: int, broken: int): Env {
    Env(nodeHeight, 1, true, h => Some(Fetched("", if h == broken then "x" else "", [])), h => true, Some(9),
      Some("y"), true)
  }

  lemma LoadOne(env: Env, height: int)
    requires BlockAt(env, height).Some?
    ensures Load(env, height, 1) == Some([BlockAt(env, height).value])
  {
    assert SlotAt(env, height, 0) == BlockAt(env, height);
    assert Load(env, height, 1).value == [BlockAt(env, height).value];
  }

  /** A pass over one block. */
  lemma PassOne(s: State, env: Env, b: Block)
    requires s.running && env.nodeHeight > 0 && s.parsed < env.nodeHeight && env.blocksInChunk == 1
    requires b.height == Base(s, env) + 1 && BlockAt(env, b.height) == Some(b)
    requires b.height == env.nodeHeight || (s.parsed != NONE_PARSED && !Fits(b.prevHash, KnownHash(s, env)))
    ensures Pass(s, env) ==
            if s.parsed != NONE_PARSED && !Fits(b.prevHash, KnownHash(s, env)) then Rollback(s, env)
            else Commit(s, env, b, s.parsed != NONE_PARSED, env.rowRead).0
  {
    LoadOne(env, b.height);
    BatchesOne(s, env, b.height, s.parsed != NONE_PARSED, KnownHash(s, env), env.rowRead, b.height, [b]);
    assert ChainOk([b], KnownHash(s, env)) == FitsAt([b], KnownHash(s, env), 0);
    CommitAllOne(s, env, [b], s.parsed != NONE_PARSED, env.rowRead);
  }

  lemma AfterOne(actions: seq<Action>, a: Action)
    ensures After(actions + [a]) == Act(After(actions), a)
  {
    assert (actions + [a])[..|actions|] == actions;
  }

  const FIRST := Env(5, 1, true, h => Some(Fetched("a", "", [])), h => true, None, None, true)

  const CREATED := Committed(Block(5, "a", "", []), true, true, false)

  lemma FirstCommit(actions: seq<Action>)
    requires After(actions) == State(true, NONE_PARSED, None, [], [], [], false)
    ensures After(actions + [PassWith(FIRST)]) == State(true, 5, Some(Row(5, "a")), [], [CREATED], [], false)
  {
    AfterOne(actions, PassWith(FIRST));
    PassOne(After(actions), FIRST, Block(5, "a", "", []));
  }

  lemma BrokenBlock(actions: seq<Action>)
    requires After(actions) == State(true, 5, Some(Row(5, "a")), [], [CREATED], [], false)
    ensures After(actions + [PassWith(Forward(9, 6))]) ==
            State(true, 8, Some(Row(8, "y")), [], [CREATED, RolledBack(8, "y")], [Move(8, 5)], false)
  {
    assert Highest([CREATED]) == 5 by {
      HighestGrows([], CREATED);
      assert [] + [CREATED] == [CREATED];
    }
    AfterOne(actions, PassWith(Forward(9, 6)));
    PassOne(After(actions), Forward(9, 6), Block(6, "", "x", []));
  }

  lemma GoesOnBehind(actions: seq<Action>)
    requires After(actions) == State(true, 8, Some(Row(8, "y")), [], [CREATED, RolledBack(8, "y")], [Move(8, 5)], false)
    ensures var s := After(actions + [PassWith(Forward(9, 0))]);
            s.running && s.parsed == 9 &&
            s.log == [CREATED, RolledBack(8, "y"), Committed(Block(9, "", "", []), false, true, false)]
  {
    AfterOne(actions, PassWith(Forward(9, 0)));
    PassOne(After(actions), Forward(9, 0), Block(9, "", "", []));
  }

  /** A rollback past the highest height leaves heights uncommitted behind: after a start, a first
      commit at height 5 and a broken block, the incident starts again at 9, and 6, 7 and 8 are
      passed. */
  lemma ForwardRollbackSkips()
    ensures var s := After([StartWith(true)] + [PassWith(FIRST)] + [PassWith(Forward(9, 6))] +
                           [PassWith(Forward(9, 0))]);
            && s.running && s.log != [] && s.log[0] == CREATED && CREATED.block.height == 5
            && s.parsed == 9 && !CommittedAt(s.log, 7)
  {
    var one := [StartWith(true)];
    AfterOne([], StartWith(true));
    assert [] + [StartWith(true)] == one;
    FirstCommit(one);
    BrokenBlock(one + [PassWith(FIRST)]);
    GoesOnBehind(one + [PassWith(FIRST)] + [PassWith(Forward(9, 6))]);
  }
}
