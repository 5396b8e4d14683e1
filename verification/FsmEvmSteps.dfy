/** Sending the base asset, as the object of an EVM transfer does it: in place, and with a database
    transaction that is undone. It is proved to reply what the function of FsmEvm.dfy says. */
module FsmEvmSteps {
  import opened Wrappers
  import opened Names
  import opened Engine
  import opened Transfers
  import F = FsmEvm

  class Fsm {
    const minConfirmations: nat
    const request: F.Request
    const tape: nat -> F.Answer
    var read: nat
    var txHash: Option<nat>
    var history: seq<TransferStatus>
    var sends: seq<Tx>
    var lost: seq<F.Lost>
    var rows: seq<Tx>
    var quotes: seq<F.Quote>
    var sights: seq<Sight>
    var nextStage: Option<StageName>   // set on the workflow by a jump
    var nextStep: Option<StepName>

    constructor (minConfirmations: nat, request: F.Request, tape: nat -> F.Answer)
      ensures World() == F.Begin(minConfirmations, request, tape) && !Jumps()
    {
      this.minConfirmations, this.request, this.tape := minConfirmations, request, tape;
      read, txHash, history, sends, lost, rows, quotes, sights := 0, None, [], [], [], [], [], [];
      nextStage, nextStep := None, None;
    }

    ghost function World(): F.World
      reads this
    {
      F.World(minConfirmations, request, tape, read, txHash, history, sends, lost, rows, quotes, sights)
    }

    predicate Jumps()
      reads this
    {
      nextStage.Some? || nextStep.Some?
    }

    /** What the engine learns of a call that ended with `o`. */
    ghost function Said(o: Outcome): Reply<F.World>
      reads this
    {
      Reply(World(), o, nextStage, nextStep, false, false)
    }

    /** The row is written first, in a database transaction that is undone if the node refuses, or
        if the process dies before it is committed. */
    method SendBaseAsset(a: F.Answer, c: Context) returns (o: Outcome)
      requires !Jumps()
      modifies this
      ensures Said(o) == F.SendBaseAsset(old(World()), a, c)
    {
      var kind := F.TxTypeOf(c.currentStep);
      if a.hash.None? || kind.None? {
        return Err(Plain);
      }
      var committed := rows;
      rows := rows + [Tx(kind.value, a.hash.value)];
      if !a.accepted {
        rows := committed;
        return Err(Plain);
      }
      var tx := Tx(if c.step == StepSending then Transfer else SendBurnBaseAsset, a.hash.value);
      if a.death == F.DiesSent {
        rows, lost := committed, lost + [F.Lost(read - 1, tx)];
        return Died;
      }
      sends := sends + [tx];
      o := if a.death == F.DiesRecorded then Died else Done;
    }
  }
}
