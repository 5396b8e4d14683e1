/** The jobs of a transfer: the workflow object is built from the stored snapshot and run, again and
    again. What is promised of the runs holds of what the object leaves. */
module TransferJobs {
  import opened Wrappers
  import opened Names
  import opened Engine
  import opened History
  import opened Transfers
  import opened WorkflowRun
  import opened StatusLog
  import U = FsmUtxo
  import US = FsmUtxoSafety
  import UM = FsmUtxoMoves
  import E = FsmEvm
  import ES = FsmEvmSafety
  import EM = FsmEvmMoves
  import T = FsmTron
  import TR = FsmTronRouting
  import TS = FsmTronSafety
  import TI = FsmTronItinerary
  import TC = FsmTronCompensation

  lemma UtxoNeverFails(w: U.World, c: Context)
    ensures !U.CallStep(w, c).fail
  {
  }

  lemma EvmSendsNeverFail(w: E.World, a: E.Answer, c: Context)
    ensures !E.SendBaseAsset(w, a, c).fail && !E.SendToken(w, a, c).fail && !E.EnsureTxInBlockchain(w, a, 0).fail
  {
    hide E.TxTypeOf, E.LookedUp, E.Lose;
  }

  lemma EvmStepsNeverFail(w: E.World, a: E.Answer, c: Context)
    ensures !E.SendBaseAssetForBurn(w, a, c).fail && !E.Sending(w, a, c).fail && !E.WaitingConfirmations(w, a).fail
    ensures !E.WaitingTopUp(w, a).fail && !E.WaitingForTheFirstConfirmation(w, a).fail
  {
    hide Recorded, E.SendBaseAsset, E.SendToken, E.LookedUp, E.StoreStatus;
    EvmSendsNeverFail(w, a, c);
    forall v ensures !E.SendBaseAsset(v, a, c).fail {
      EvmSendsNeverFail(v, a, c);
    }
  }

  lemma EvmNeverFails(w: E.World, c: Context)
    ensures !E.CallStep(w, c).fail
  {
    hide E.SendBaseAssetForBurn, E.Sending, E.WaitingTopUp, E.WaitingForTheFirstConfirmation, E.WaitingConfirmations,
      E.StoreStatus;
    EvmStepsNeverFail(w.(read := w.read + 1), w.tape(w.read), c);
  }

  lemma TronStepsNeverFail(w: T.World, a: T.Answer, c: Context)
    ensures !T.ActivateWalletResources(w, a, c).fail && !T.ActivateWalletBurnTRX(w, a, c).fail
    ensures !T.SendTRXForBurn(w, a, c).fail && !T.Delegate(w, a, c).fail && !T.Sending(w, a, c).fail
    ensures !T.Reclaim(w, a, c).fail && !T.ReclaimOnError(w, a, c).fail
  {
    hide Recorded, T.ReclaimLoops, T.PartHashes, T.Broadcasted, T.TxTypeOf;
  }

  lemma TronWaitsNeverFail(w: T.World, a: T.Answer)
    ensures !T.WaitingResourcesActivateWallet(w, a).fail && !T.WaitingExternalActivateWallet(w, a).fail
    ensures !T.WaitingActivateWallet(w, a).fail && !T.WaitingSendTRXForBurn(w, a).fail && !T.WaitingDelegate(w, a).fail
    ensures !T.WaitingExternalDelegate(w, a).fail && !T.WaitingForTheFirstConfirmation(w, a).fail
    ensures !T.WaitingConfirmations(w, a).fail && !T.WaitingReclaim(w, a).fail
  {
    hide Recorded, T.AllLookedUp, T.LookedUp, T.Confirmed, T.AnyEnds;
  }

  /** Only the failure event of the compensation marks the workflow failed. */
  lemma TronFails(w: T.World, c: Context)
    ensures T.CallStep(w, c).fail ==> c.step == StepSendFailureEvent
  {
    hide T.ActivateWalletResources, T.ActivateWalletBurnTRX, T.SendTRXForBurn, T.Delegate, T.Sending, T.Reclaim,
      T.ReclaimOnError, T.WaitingResourcesActivateWallet, T.WaitingExternalActivateWallet, T.WaitingActivateWallet,
      T.WaitingSendTRXForBurn, T.WaitingDelegate, T.WaitingExternalDelegate, T.WaitingForTheFirstConfirmation,
      T.WaitingConfirmations, T.WaitingReclaim;
    TronStepsNeverFail(w.(read := w.read + 1), w.tape(w.read), c);
    TronWaitsNeverFail(w.(read := w.read + 1), w.tape(w.read));
  }

  lemma FailLast()
    ensures FailsLast(U.MACHINE) && FailsLast(E.MACHINE) && FailsLast(T.MACHINE)
  {
    hide U.CallStep, E.CallStep, T.CallStep;
    forall w, c, i: nat, j: nat ensures !MayFail(U.MACHINE, w, c, i, j) {
      UtxoNeverFails(w, c);
    }
    forall w, c, i: nat, j: nat ensures !MayFail(E.MACHINE, w, c, i, j) {
      EvmNeverFails(w, c);
    }
    forall w, c, i: nat, j: nat | MayFail(T.MACHINE, w, c, i, j)
      ensures i + 1 == |T.STAGES| && j + 1 == |T.STAGES[i].steps| {
      TronFails(w, c);
      TR.Table();
      TR.HomeIs(i, j);
    }
  }

  /** What is stored of the steps says which of them succeeded, and which were never called. */
  ghost predicate Tracked<W>(m: Machine<W>, s: Session<W>) {
    StoredExactly(m.stages, Restore(m.stages, s.stored.steps), s.log)
  }

  predicate Over(history: seq<TransferStatus>) {
    StatusFailed in history || StatusCompleted in history
  }

  /** Runs a UTXO transfer `k` times. It broadcasts only what was validated, and again only after the
      process died right after a broadcast; its statuses go forward; it is failed exactly by an error
      before it was sent, and completed exactly by the success event; and once it is over, running it does
      nothing. */
  method RunUtxo(config: U.Config, request: U.Request, tape: nat -> U.Answer, k: nat) returns (s: Session<U.World>)
    ensures US.Safe(s.world) && s.world.config == config && s.world.request == request && s.world.tape == tape
    ensures NeverRepeats(s.log) && UM.OverBy(s.log, s.world.history) && Tracked(U.MACHINE, s)
    ensures Over(s.world.history) ==> RunOnce(U.MACHINE, s) == s
  {
    hide UM.OverBy, FailsLast, StoredExactly, RunOnce, Runs, U.CallStep;
    s := WorkTimes(U.MACHINE, Fresh(U.Begin(config, request, tape)), k);
    US.UtxoSafety(config, request, tape, k);
    UM.OverIff(config, request, tape, k);
    US.TableIsDistinct();
    FailLast();
    CompletedIff(U.MACHINE, U.Begin(config, request, tape), k);
  }

  /** Runs an EVM transfer `k` times. But for broadcasts right after which the process died it tops up
      and sends at most once each, and what it sent is what it recorded; it is failed exactly by the error of
      a transfer that cannot succeed or by any error before it was sent. */
  method RunEvm(minConfirmations: nat, request: E.Request, tape: nat -> E.Answer, k: nat) returns (s: Session<E.World>)
    ensures ES.Safe(s.world) && s.world.minConfirmations == minConfirmations && s.world.request == request &&
            s.world.tape == tape
    ensures NeverRepeats(s.log) && EM.OverBy(s.log, s.world.history) && Tracked(E.MACHINE, s)
    ensures Over(s.world.history) ==> RunOnce(E.MACHINE, s) == s
  {
    hide EM.OverBy, FailsLast, StoredExactly, RunOnce, Runs, E.CallStep;
    s := WorkTimes(E.MACHINE, Fresh(E.Begin(minConfirmations, request, tape)), k);
    ES.EvmSafety(minConfirmations, request, tape, k);
    EM.OverIff(minConfirmations, request, tape, k);
    ES.TableIsDistinct();
    FailLast();
    CompletedIff(E.MACHINE, E.Begin(minConfirmations, request, tape), k);
  }

  predicate Redirected(stored: Snapshot) {
    stored.state.nextStage == Some(StageCompensateOnFail)
  }

  /** No run before the `n`-th was redirected. */
  ghost predicate NotBefore<W>(m: Machine<W>, s: Session<W>, n: nat) {
    forall i {:trigger Runs(m, s, i)} :: 0 <= i < n ==> !Redirected(Runs(m, s, i).stored)
  }

  /** A job that comes back `k` times, or until a failure redirects it. */
  method WorkUntilRedirected<W>(machine: Machine<W>, start: Session<W>, k: nat) returns (s: Session<W>, n: nat)
    ensures s == Runs(machine, start, n) && NotBefore(machine, start, n)
    ensures n <= k && (n < k ==> Redirected(s.stored))
  {
    s, n := start, 0;
    while n < k && !Redirected(s.stored)
      invariant n <= k && s == Runs(machine, start, n) && NotBefore(machine, start, n)
    {
      s := Work(machine, s);
      n := n + 1;
    }
  }

  /** The promises of a Tron transfer until a redirect. */
  ghost predicate Routes(request: T.Request, tape: nat -> T.Answer, s: Session<T.World>) {
    && TR.Safe(s.world) && s.world.request == request && s.world.tape == tape
    && TS.OneBranch(request, s.log) && TS.FundedBeforeSent(request, s.log) && NeverRepeats(s.log)
    && TI.Keeps(request, s.log, tape) && TI.GivesBack(request, s.log, tape) && Tracked(T.MACHINE, s)
  }

  lemma RoutesUntil(request: T.Request, tape: nat -> T.Answer, s: Session<T.World>, n: nat)
    requires NotBefore(T.MACHINE, Fresh(T.Begin(request, tape)), n) &&
             s == Runs(T.MACHINE, Fresh(T.Begin(request, tape)), n)
    ensures Routes(request, tape, s)
  {
    hide TR.Safe, TS.OneBranch, TS.FundedBeforeSent, NeverRepeats, TI.Keeps, TI.GivesBack, FailsLast, StoredExactly,
         RunOnce,
      Runs, T.CallStep, TI.ActivatesInactive, TI.RedirectedBy, TI.Handled;
    var j := TS.TronRouting(request, tape, n);
    assert j == n;
    var i := TI.TronItinerary(request, tape, n);
    assert i == n;
    TR.TableIsDistinct();
    FailLast();
    CompletedIff(T.MACHINE, T.Begin(request, tape), n);
  }

  /** Runs a Tron transfer `k` times, or until a failure redirects it. It makes the steps of its itinerary,
      in order: one activation branch at most, and only for a wallet found inactive; the funding branch of
      its kind, which is completed before it is sent; and what was delegated is reclaimed. */
  method RunTron(request: T.Request, tape: nat -> T.Answer, k: nat) returns (s: Session<T.World>, n: nat)
    ensures n <= k && (n < k ==> Redirected(s.stored))
    ensures Routes(request, tape, s)
  {
    s, n := WorkUntilRedirected(T.MACHINE, Fresh(T.Begin(request, tape)), k);
    RoutesUntil(request, tape, s, n);
  }

  method WorkAndMore<W>(machine: Machine<W>, s: Session<W>, k: nat) returns (t: Session<W>, last: Session<W>)
    ensures t == RunOnce(machine, s) && last == Runs(machine, t, k)
  {
    t := Work(machine, s);
    last := WorkTimes(machine, t, k);
  }

  /** The first run followed the plan of the compensation up to the first step that did not succeed;
      if all did, the transfer is failed and the later runs did nothing. */
  ghost predicate Compensates(s: Session<T.World>, t: Session<T.World>, last: Session<T.World>) {
    && TC.FollowsPlan(s, t)
    && (TC.Last(t).outcome.Done? ==> t.world.history == s.world.history + [StatusFailed] && last == t)
  }

  /** Runs a redirected Tron transfer once, and then `k` times more. */
  method Compensate(s: Session<T.World>, k: nat) returns (t: Session<T.World>, last: Session<T.World>)
    requires TS.SentToCompensate(s.stored)
    ensures Compensates(s, t, last)
  {
    t, last := WorkAndMore(T.MACHINE, s, k);
    TC.TronCompensation(s, k);
  }
}
