/** What the object of a Tron transfer does in place, with database transactions that are undone and
    with loops. The methods are proved to reply what the functions of FsmTron.dfy say. */
module FsmTronSteps {
  import opened Wrappers
  import opened Names
  import opened Engine
  import opened Transfers
  import F = FsmTron

  class Fsm {
    const request: F.Request
    const tape: nat -> F.Answer
    var read: nat
    var txHash: Option<nat>
    var history: seq<TransferStatus>
    var sends: seq<Tx>
    var rows: seq<Tx>
    var deaths: multiset<TxType>
    var delegatedFrom: bool
    var sights: seq<Sight>
    var nextStage: Option<StageName>   // set on the workflow by a jump
    var nextStep: Option<StepName>
    var failed: bool                   // set on the workflow by the failure event
    var skipError: bool

    constructor (request: F.Request, tape: nat -> F.Answer)
      ensures World() == F.Begin(request, tape) && Clean()
    {
      this.request, this.tape := request, tape;
      read, txHash, history, sends, rows, deaths, delegatedFrom, sights := 0, None, [], [], [], multiset{}, false, [];
      nextStage, nextStep, failed, skipError := None, None, false, false;
    }

    ghost function World(): F.World
      reads this
    {
      F.World(request, tape, read, txHash, history, sends, rows, deaths, delegatedFrom, sights)
    }

    /** Nothing was set on the workflow yet. */
    predicate Clean()
      reads this
    {
      nextStage.None? && nextStep.None? && !failed && !skipError
    }

    /** What the engine learns of a call that ended with `o`. */
    ghost function Said(o: Outcome): Reply<F.World>
      reads this
    {
      Reply(World(), o, nextStage, nextStep, failed, skipError)
    }

    /** The row is written first, in a database transaction that is undone if the node refuses, or if
        the process dies before it is committed. */
    method Broadcast(a: F.Answer, c: Context, kind: TxType) returns (o: Outcome)
      requires Clean()
      modifies this`sends, this`rows, this`deaths
      ensures Said(o) == F.Send(old(World()), a, c, kind)
    {
      var recorded := F.TxTypeOf(c.currentStep);
      if a.hash.None? || recorded.None? {
        return Err(Plain);
      }
      var committed := rows;
      rows := rows + [Tx(recorded.value, a.hash.value)];
      if !a.accepted {
        rows := committed;
        return Err(Plain);
      }
      sends := sends + [Tx(kind, a.hash.value)];
      o := Done;
      if a.death.DiesSent? {
        if a.hash.value in a.death.lost {
          rows := committed;
        }
        deaths := deaths + multiset{kind};
        o := Died;
      }
      RecordsOne(a, recorded.value, committed);
      RecordsOne(a, kind, old(sends));
    }

    /** Of one transaction its row is all that is recorded, or nothing. */
    static lemma RecordsOne(a: F.Answer, kind: TxType, before: seq<Tx>)
      requires a.hash.Some?
      ensures F.Txs(kind, [a.hash.value]) == [Tx(kind, a.hash.value)]
      ensures before + F.Txs(kind, F.Committed(a, [a.hash.value])) ==
              if a.death.DiesSent? && a.hash.value in a.death.lost then before else before + [Tx(kind, a.hash.value)]
    {
      var hashes := [a.hash.value];
      assert hashes[..0] == [];
      if a.death.DiesSent? {
        assert F.Without(hashes, a.death.lost) == if a.hash.value in a.death.lost then [] else hashes;
      }
    }

    method LookUp(a: F.Answer, hash: nat)
      modifies this`sights
      ensures World() == F.LookedUp(old(World()), a, hash)
    {
      var l := a.lookup(hash);
      if l.Found? {
        sights := sights + [Sight(hash, l.success, l.confirmations)];
      }
    }

    method CheckTransactionConfirmations(a: F.Answer, tx: Tx, needed: nat) returns (o: Outcome)
      requires Clean()
      modifies this`sights
      ensures Said(o) == F.CheckConfirmations(old(World()), a, tx, needed)
    {
      LookUp(a, tx.hash);
      var l := a.lookup(tx.hash);
      if l.LookupFails? || !a.expensesStored {
        return Err(Plain);
      }
      if !l.success {
        return Err(FailedTransfer);
      }
      o := if l.confirmations < needed then Err(Plain) else Done;
    }

    static lemma OneMoreEnds(a: F.Answer, txs: seq<Tx>, k: nat, e: Error)
      requires k < |txs|
      ensures F.AnyEnds(a, txs[..k + 1], e) ==
              (F.AnyEnds(a, txs[..k], e) || F.Confirmed(a, txs[k].hash, F.SYSTEM_CONFIRMATIONS) == Err(e))
    {
      if F.AnyEnds(a, txs[..k], e) {
        var i :| 0 <= i < k && F.Confirmed(a, txs[..k][i].hash, F.SYSTEM_CONFIRMATIONS) == Err(e);
        assert txs[..k + 1][i] == txs[i];
      }
      assert txs[..k + 1][k] == txs[k];
      if F.AnyEnds(a, txs[..k + 1], e) && F.Confirmed(a, txs[k].hash, F.SYSTEM_CONFIRMATIONS) != Err(e) {
        var i :| 0 <= i < k + 1 && F.Confirmed(a, txs[..k + 1][i].hash, F.SYSTEM_CONFIRMATIONS) == Err(e);
        assert txs[..k][i] == txs[i];
      }
    }

    /** Checks several transactions; of the errors one is returned. */
    method CheckAll(a: F.Answer, txs: seq<Tx>) returns (o: Outcome)
      requires Clean()
      modifies this`sights
      ensures Said(o) == F.CheckAll(old(World()), a, txs)
    {
      var fatal, plain := false, false;
      for k := 0 to |txs|
        invariant Clean() && World() == F.AllLookedUp(old(World()), a, txs[..k])
        invariant fatal == F.AnyEnds(a, txs[..k], FailedTransfer) && plain == F.AnyEnds(a, txs[..k], Plain)
      {
        assert txs[..k + 1][..k] == txs[..k];
        var one := CheckTransactionConfirmations(a, txs[k], F.SYSTEM_CONFIRMATIONS);
        OneMoreEnds(a, txs, k, FailedTransfer);
        OneMoreEnds(a, txs, k, Plain);
        fatal, plain := fatal || one == Err(FailedTransfer), plain || one == Err(Plain);
      }
      assert txs[..|txs|] == txs;
      if fatal && (!plain || a.giveUpFirst) {
        return Err(FailedTransfer);
      }
      o := if plain then Err(Plain) else Done;
    }

    /** Since the world was `w` some hashes were reclaimed, and nothing else has changed. */
    ghost predicate Reclaimed(w: F.World, a: F.Answer, kind: Option<TxType>, hashes: seq<nat>)
      reads this
    {
      && (kind.None? ==> hashes == [])
      && World() == w.(sends := w.sends + F.Txs(ReclaimResources, hashes),
                       rows := w.rows + (if kind.Some? then F.Txs(kind.value, F.Committed(a, hashes)) else []))
    }

    method ReclaimEntry(a: F.Answer, kind: Option<TxType>, e: F.Frozen, failed: set<F.Resource>, ghost w: F.World,
                        ghost hashes: seq<nat>)
      returns (still: set<F.Resource>, sent: bool, ghost more: seq<nat>)
      requires Reclaimed(w, a, kind, hashes)
      modifies this`sends, this`rows
      ensures F.Loops(more, still) == F.ReclaimOne(a, kind.Some?, F.Loops(hashes, failed), e)
      ensures Reclaimed(w, a, kind, more) && sent == (more != hashes) && |hashes| <= |more|
    {
      still, sent, more := failed, false, hashes;
      if F.Kept(a, e.resource).Usable? && e.ours && e.amount != 0 && e.resource !in failed {
        if e.hash.None? || kind.None? {
          still := failed + {e.resource};
        } else {
          if !(a.death.DiesSent? && e.hash.value in a.death.lost) {
            rows := rows + [Tx(kind.value, e.hash.value)];
          }
          sends := sends + [Tx(ReclaimResources, e.hash.value)];
          sent, more := true, hashes + [e.hash.value];
          CommitsOne(a, kind.value, hashes, e.hash.value);
          F.TxsGrow(ReclaimResources, hashes, e.hash.value);
        }
      }
    }

    static lemma CommitsOne(a: F.Answer, kind: TxType, hashes: seq<nat>, hash: nat)
      ensures F.Txs(kind, F.Committed(a, hashes + [hash])) ==
              F.Txs(kind, F.Committed(a, hashes)) +
              if a.death.DiesSent? && hash in a.death.lost then [] else [Tx(kind, hash)]
    {
      assert (hashes + [hash])[..|hashes|] == hashes;
      if a.death.DiesSent? && hash in a.death.lost {
        assert F.Committed(a, hashes + [hash]) == F.Committed(a, hashes);
      } else {
        assert F.Committed(a, hashes + [hash]) == F.Committed(a, hashes) + [hash];
        F.TxsGrow(kind, F.Committed(a, hashes), hash);
      }
    }

    /** Reclaims the staked resources that were delegated, each until the first it cannot. */
    method ReclaimFrozen(a: F.Answer, c: Context) returns (o: Outcome)
      requires Clean()
      modifies this`sends, this`rows, this`deaths
      ensures Said(o) == F.ReclaimFrozen(old(World()), a, c)
    {
      var kind := F.TxTypeOf(c.currentStep);
      var failed: set<F.Resource> := {};
      if a.energyKept.Unusable? {
        failed := failed + {F.Energy};
      }
      if a.bandwidthKept.Unusable? {
        failed := failed + {F.Bandwidth};
      }
      ghost var hashes: seq<nat> := [];
      var any, one := false, false;
      F.NothingReclaimed(a, kind.Some?);
      for k := 0 to |a.frozen|
        invariant F.ReclaimLoops(a, kind.Some?, a.frozen[..k]) == F.Loops(hashes, failed)
        invariant Reclaimed(old(World()), a, kind, hashes) && any == (hashes != [])
      {
        assert a.frozen[..k + 1][..k] == a.frozen[..k];
        failed, one, hashes := ReclaimEntry(a, kind, a.frozen[k], failed, old(World()), hashes);
        any := any || one;
      }
      assert a.frozen[..|a.frozen|] == a.frozen;
      if any && a.death.DiesSent? {
        deaths := deaths + multiset{ReclaimResources};
        return Died;
      }
      o := if failed != {} then Err(Plain) else Done;
    }
  }
}
