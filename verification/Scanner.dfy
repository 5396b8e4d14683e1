/** The block scanner: its state, what one pass over the new blocks does to it, and the object that
    does it in place.

    The functions say what a pass means; the methods of the class are proved to do just that. */
module BlockScanning {
  import opened Wrappers

  /** What is fetched for one height; a webhook stands for one event at one of our addresses. */
  datatype Fetched = Fetched(hash: string, prevHash: string, webhooks: seq<nat>)

  datatype Block = Block(height: int, hash: string, prevHash: string, webhooks: seq<nat>)

  /** The processed-block row of the chain. */
  datatype Row = Row(number: int, hash: string)

  /** A change of the row. `checked` says that the hash stored before was known when the block was
      committed, `torn` that memory and row disagreed then. */
  datatype Event =
    | Committed(block: Block, created: bool, checked: bool, torn: bool)
    | RolledBack(number: int, hash: string)

  /** A rollback of the memory: to which height, and the highest one ever committed by then. */
  datatype Move = Move(to: int, highest: int)

  datatype State = State(
    running: bool,            // the scanner was started with a readable row
    parsed: int,              // the height in memory; -1 if no block was ever parsed
    row: Option<Row>,
    webhooks: seq<nat>,       // every webhook ever inserted
    log: seq<Event>,          // every change of the row
    rollbacks: seq<Move>,     // every rollback of the memory
    torn: bool)               // a rollback moved the memory and failed to move the row

  /** The answers one pass may get. */
  datatype Env = Env(
    nodeHeight: int,                   // of the last block of the node
    blocksInChunk: int,
    rowRead: bool,                     // the last block can be read
    fetch: int -> Option<Fetched>,     // by height
    commits: int -> bool,              // by height: the database transaction goes through
    startingBlock: Option<nat>,        // where the incident says to start again
    rollbackHash: Option<string>,
    rollbackWrites: bool)

  const NONE_PARSED := -1

  /** Before the first start. */
  const INITIAL := State(false, 0, None, [], [], [], false)

  /** The highest height ever committed. */
  function Highest(log: seq<Event>): int {
    if log == [] then NONE_PARSED
    else
      var before, e := Highest(log[..|log| - 1]), log[|log| - 1];
      if e.Committed? && e.block.height > before then e.block.height else before
  }

  // ------------------------------------------------------------------- one block

  /** Two hashes fit unless both are known and differ. */
  predicate Fits(prevHash: string, hash: string) {
    prevHash == "" || hash == "" || prevHash == hash
  }

  /** Block `k` fits the one before it, and the first one the last known hash. */
  predicate FitsAt(blocks: seq<Block>, known: string, k: nat)
    requires k < |blocks|
  {
    Fits(blocks[k].prevHash, if k == 0 then known else blocks[k - 1].hash)
  }

  predicate ChainOk(blocks: seq<Block>, known: string) {
    forall k :: 0 <= k < |blocks| ==> FitsAt(blocks, known, k)
  }

  /** The parent a block names is the hash before it, unless one of them is not known. */
  predicate ParentMatches(blocks: seq<Block>, known: string, k: nat)
    requires k < |blocks|
  {
    var parent, before := blocks[k].prevHash, if k == 0 then known else blocks[k - 1].hash;
    parent != "" && before != "" ==> parent == before
  }

  /** A chain is accepted if and only if the parents match throughout. */
  lemma ChainOkIff(blocks: seq<Block>, known: string)
    ensures ChainOk(blocks, known) <==> forall k :: 0 <= k < |blocks| ==> ParentMatches(blocks, known, k)
  {
    forall k | 0 <= k < |blocks| ensures FitsAt(blocks, known, k) <==> ParentMatches(blocks, known, k) {
    }
  }

  function BlockAt(env: Env, height: int): Option<Block> {
    match env.fetch(height)
    case None => None
    case Some(f) => Some(Block(height, f.hash, f.prevHash, f.webhooks))
  }

  /** The block in slot `k` of a range. */
  function SlotAt(env: Env, from: int, k: nat): Option<Block> {
    BlockAt(env, from + k)
  }

  /** The blocks of a range, if all of them can be fetched. */
  function Load(env: Env, from: int, n: nat): (r: Option<seq<Block>>)
    ensures r.Some? ==> |r.value| == n && forall k :: 0 <= k < n ==> Some(r.value[k]) == SlotAt(env, from, k)
  {
    if forall k :: 0 <= k < n ==> SlotAt(env, from, k).Some?
    then Some(seq(n, k requires 0 <= k < n => SlotAt(env, from, k).value))
    else None
  }

  /** One transaction inserts the webhooks of a block and moves the row, or does nothing. The row
      is created once and updated from then on; heights up to zero are refused. */
  function Commit(s: State, env: Env, b: Block, exists_: bool, checked: bool): (r: (State, bool)) {
    if !env.commits(b.height) || b.height <= 0 || (!exists_ && s.row.Some?) then (s, false)
    else
      var row := if !exists_ || s.row.Some? then Some(Row(b.height, b.hash)) else None;
      (s.(parsed := b.height, row := row, webhooks := s.webhooks + b.webhooks,
          log := s.log + [Committed(b, !exists_, checked, s.torn)], torn := false), true)
  }

  /** Commits blocks one after the other, up to the first that fails. */
  function CommitAll(s: State, env: Env, blocks: seq<Block>, exists_: bool, checked: bool): (r: (State, bool))
    decreases |blocks|
  {
    if blocks == [] then (s, true)
    else
      var (after, ok) := Commit(s, env, blocks[0], exists_, checked);
      if !ok then (after, false) else CommitAll(after, env, blocks[1..], true, true)
  }

  /** A rollback moves the memory first, and the row with a transaction of its own. */
  function Rollback(s: State, env: Env): State {
    if env.startingBlock.None? || env.rollbackHash.None? then s
    else
      var height := env.startingBlock.value - 1;
      var moved := s.(parsed := height, torn := true, rollbacks := s.rollbacks + [Move(height, Highest(s.log))]);
      if !env.rollbackWrites || height <= 0 then moved
      else
        moved.(row := if s.row.Some? then Some(Row(height, env.rollbackHash.value)) else None,
               log := s.log + [RolledBack(height, env.rollbackHash.value)],
               torn := false)
  }

  // --------------------------------------------------------------------- one pass

  function ChunkSize(env: Env): (n: nat)
    ensures n > 0
  {
    if env.blocksInChunk <= 0 then 1 else env.blocksInChunk
  }

  function Min(a: int, b: int): int {
    if a <= b then a else b
  }

  /** The batches from height `start` on. `known` is the hash of the block before, if it is known. */
  function Batches(s: State, env: Env, start: int, exists_: bool, known: string, checked: bool): State
    decreases env.nodeHeight - start + 1
  {
    if start > env.nodeHeight then s
    else
      var end := Min(start + ChunkSize(env) - 1, env.nodeHeight);
      var blocks := Load(env, start, end - start + 1);
      if blocks.None? then s
      else if exists_ && !ChainOk(blocks.value, known) then Rollback(s, env)
      else
        var (after, ok) := CommitAll(s, env, blocks.value, exists_, checked);
        if !ok then after
        else Batches(after, env, end + 1, true, blocks.value[end - start].hash, true)
  }

  /** One batch, then the rest. */
  lemma BatchesOne(s: State, env: Env, start: int, exists_: bool, known: string, checked: bool, end: int,
                   blocks: seq<Block>)
    requires start <= env.nodeHeight && end == Min(start + ChunkSize(env) - 1, env.nodeHeight)
    requires Load(env, start, end - start + 1) == Some(blocks)
    ensures start <= end && |blocks| == end - start + 1
    ensures Batches(s, env, start, exists_, known, checked) ==
            if exists_ && !ChainOk(blocks, known) then Rollback(s, env)
            else
              var (after, ok) := CommitAll(s, env, blocks, exists_, checked);
              if !ok then after else Batches(after, env, end + 1, true, blocks[|blocks| - 1].hash, true)
  {
    hide CommitAll;
  }

  predicate Idle(s: State, env: Env) {
    !s.running || s.parsed >= env.nodeHeight || env.nodeHeight == 0
  }

  /** The height before the first one a pass fetches. */
  function Base(s: State, env: Env): int {
    if s.parsed == NONE_PARSED then env.nodeHeight - 1 else s.parsed
  }

  /** The hash the first block of a pass is checked against. */
  function KnownHash(s: State, env: Env): string {
    if s.parsed != NONE_PARSED && env.rowRead && s.row.Some? then s.row.value.hash else ""
  }

  function Pass(s: State, env: Env): State {
    if Idle(s, env) then s
    else Batches(s, env, Base(s, env) + 1, s.parsed != NONE_PARSED, KnownHash(s, env), env.rowRead)
  }

  /** A start reads the row; if that fails the scanner does not run. */
  function Started(s: State, readable: bool): State {
    if !readable then s.(running := false)
    else s.(running := true, torn := false, parsed := if s.row.Some? then s.row.value.number else NONE_PARSED)
  }

  // -------------------------------------------------------------------- the object

  class BlockScanner {
    var running: bool
    var parsed: int
    var row: Option<Row>
    var webhooks: seq<nat>
    ghost var log: seq<Event>
    ghost var rollbacks: seq<Move>
    ghost var torn: bool

    ghost function Value(): State
      reads this
    {
      State(running, parsed, row, webhooks, log, rollbacks, torn)
    }

    constructor ()
      ensures Value() == INITIAL
    {
      running, parsed, row, webhooks := false, 0, None, [];
      log, rollbacks, torn := [], [], false;
    }

    method Start(readable: bool)
      modifies this
      ensures Value() == Started(old(Value()), readable)
    {
      if !readable {
        running := false;
        return;
      }
      running, torn := true, false;
      match row
      case None => parsed := NONE_PARSED;
      case Some(r) => parsed := r.number;
    }

    /** Fetches a range of blocks into slots of their own, then looks for errors. */
    method LoadBlocks(env: Env, from: int, size: nat) returns (r: Option<seq<Block>>)
      ensures r == Load(env, from, size)
    {
      var results := new Option<Block>[size];
      for idx := 0 to size
        invariant forall k :: 0 <= k < idx ==> results[k] == SlotAt(env, from, k)
      {
        assert SlotAt(env, from, idx) == BlockAt(env, from + idx);
        results[idx] := BlockAt(env, from + idx);
      }
      var blocks := [];
      for idx := 0 to size
        invariant |blocks| == idx && forall k :: 0 <= k < idx ==> results[k] == Some(blocks[k])
        invariant forall k :: 0 <= k < size ==> results[k] == SlotAt(env, from, k)
      {
        match results[idx] {
          case None =>
            assert SlotAt(env, from, idx).None?;
            return None;
          case Some(b) => blocks := blocks + [b];
        }
      }
      forall k | 0 <= k < size ensures SlotAt(env, from, k) == Some(blocks[k]) {
        assert results[k].Some?;
      }
      assert blocks == Load(env, from, size).value;
      r := Some(blocks);
    }

    method ValidateChain(blocks: seq<Block>, lastKnownHash: string) returns (ok: bool)
      ensures ok == ChainOk(blocks, lastKnownHash)
      ensures ok <==> forall k :: 0 <= k < |blocks| ==> ParentMatches(blocks, lastKnownHash, k)
    {
      ChainOkIff(blocks, lastKnownHash);
      for i := 0 to |blocks|
        invariant forall k :: 0 <= k < i ==> FitsAt(blocks, lastKnownHash, k)
      {
        var expected := lastKnownHash;
        if i > 0 {
          expected := blocks[i - 1].hash;
        }
        if blocks[i].prevHash != "" && expected != "" && blocks[i].prevHash != expected {
          assert !FitsAt(blocks, lastKnownHash, i);
          return false;
        }
      }
      ok := true;
    }

    method CommitBlockResult(env: Env, b: Block, existsLastBlock: bool, ghost checked: bool) returns (ok: bool)
      modifies this
      ensures (Value(), ok) == Commit(old(Value()), env, b, existsLastBlock, checked)
    {
      if !env.commits(b.height) || b.height <= 0 {
        return false;
      }
      if existsLastBlock {
        if row.Some? {
          row := Some(Row(b.height, b.hash));
        }
      } else if row.Some? {
        return false;
      } else {
        row := Some(Row(b.height, b.hash));
      }
      webhooks := webhooks + b.webhooks;
      log, torn := log + [Committed(b, !existsLastBlock, checked, torn)], false;
      parsed := b.height;
      ok := true;
    }

    method CommitResults(env: Env, results: seq<Block>, existsLastBlock: bool, ghost checked: bool) returns (ok: bool)
      modifies this
      ensures (Value(), ok) == CommitAll(old(Value()), env, results, existsLastBlock, checked)
    {
      var exists_ := existsLastBlock;
      ghost var known := checked;
      assert results[0..] == results;
      for i := 0 to |results|
        invariant CommitAll(Value(), env, results[i..], exists_, known)
                  == CommitAll(old(Value()), env, results, existsLastBlock, checked)
      {
        assert results[i..][1..] == results[i + 1..];
        ok := CommitBlockResult(env, results[i], exists_, known);
        if !ok {
          return;
        }
        exists_, known := true, true;
      }
      ok := true;
    }

    method HandleRollback(env: Env)
      modifies this
      ensures Value() == Rollback(old(Value()), env)
    {
      if env.startingBlock.None? || env.rollbackHash.None? {
        return;
      }
      var height := env.startingBlock.value - 1;
      rollbacks := rollbacks + [Move(height, Highest(log))];
      parsed, torn := height, true;
      if env.rollbackWrites && height > 0 {
        if row.Some? {
          row := Some(Row(height, env.rollbackHash.value));
        }
        log, torn := log + [RolledBack(height, env.rollbackHash.value)], false;
      }
    }

    /** One batch: loaded, validated if a block is stored already, and committed. `more` says that
        the pass goes on after `batchEnd`. */
    method HandleBatch(env: Env, batchStart: int, existsLastBlock: bool, known: string, ghost checked: bool)
      returns (more: bool, batchEnd: int, lastHash: string)
      requires batchStart <= env.nodeHeight
      modifies this
      ensures more ==> batchStart <= batchEnd
      ensures Batches(old(Value()), env, batchStart, existsLastBlock, known, checked) ==
              if more then Batches(Value(), env, batchEnd + 1, true, lastHash, true) else Value()
    {
      more, lastHash := false, "";
      batchEnd := Min(batchStart + ChunkSize(env) - 1, env.nodeHeight);
      var results := LoadBlocks(env, batchStart, batchEnd - batchStart + 1);
      if results.None? {
        return;
      }
      var blocks := results.value;
      BatchesOne(Value(), env, batchStart, existsLastBlock, known, checked, batchEnd, blocks);
      if existsLastBlock {
        var valid := ValidateChain(blocks, known);
        if !valid {
          HandleRollback(env);
          return;
        }
      }
      more := CommitResults(env, blocks, existsLastBlock, checked);
      lastHash := blocks[|blocks| - 1].hash;
    }

    method HandleBlocks(env: Env)
      modifies this
      ensures Value() == Pass(old(Value()), env)
    {
      if !running || parsed >= env.nodeHeight || env.nodeHeight == 0 {
        return;
      }
      var last := parsed;
      var existsLastBlock := true;
      if last == NONE_PARSED {
        last := env.nodeHeight - 1;
        existsLastBlock := false;
      }
      var lastKnownHash := "";
      if existsLastBlock && env.rowRead && row.Some? {
        lastKnownHash := row.value.hash;
      }
      ghost var checked := env.rowRead;
      ghost var goal := Pass(Value(), env);
      var batchStart := last + 1;
      while batchStart <= env.nodeHeight
        invariant Batches(Value(), env, batchStart, existsLastBlock, lastKnownHash, checked) == goal
        decreases env.nodeHeight - batchStart + 1
      {
        var more, batchEnd, hash := HandleBatch(env, batchStart, existsLastBlock, lastKnownHash, checked);
        if !more {
          return;
        }
        batchStart, existsLastBlock, lastKnownHash, checked := batchEnd + 1, true, hash, true;
      }
    }
  }
}
