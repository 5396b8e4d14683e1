/** What the transfer workflows share: wallets, recorded transactions, and the replies of steps. */
module Transfers {
  import opened Wrappers
  import opened Names
  import opened Engine

  datatype Blockchain =
    | Tron | Ethereum | BinanceSmartChain | Polygon | Arbitrum | Optimism | Linea
    | Bitcoin | Litecoin | BitcoinCash | Dogecoin

  datatype TransferStatus =
    | StatusNew
    | StatusPending
    | StatusProcessing
    | StatusInMempool
    | StatusUnconfirmed
    | StatusCompleted
    | StatusFailed
    | StatusFrozen

  /** The statuses a transfer is done with. */
  predicate Terminal(s: TransferStatus) {
    s == StatusCompleted || s == StatusFailed
  }

  datatype WalletType = HotWallet | ColdWallet | ProcessingWallet

  /** The answer to the question whose wallet an address is. */
  datatype WalletCheck = CheckFails | OtherWallet | ColdOrProcessing(ownerMatches: bool)

  datatype TxType = AccountActivation | SendBurnBaseAsset | DelegateResources | ReclaimResources | Transfer

  /** A transaction of a transfer: one that was broadcast, or the row that records it. */
  datatype Tx = Tx(kind: TxType, hash: nat)

  /** What the explorer knows of a transaction. */
  datatype Lookup = LookupFails | Found(success: bool, confirmations: nat)

  /** A successful lookup. */
  datatype Sight = Sight(hash: nat, success: bool, confirmations: nat)

  /** The recorded transactions of one type, oldest first. */
  function Recorded(rows: seq<Tx>, kind: TxType): seq<Tx> {
    if rows == [] then []
    else
      var n := |rows| - 1;
      Recorded(rows[..n], kind) + if rows[n].kind == kind then [rows[n]] else []
  }

  lemma RecordedGrows(rows: seq<Tx>, tx: Tx, kind: TxType)
    ensures Recorded(rows + [tx], kind) == Recorded(rows, kind) + if tx.kind == kind then [tx] else []
  {
    assert (rows + [tx])[..|rows|] == rows;
  }

  lemma RecordedFew(a: Tx, b: Tx, kind: TxType)
    ensures Recorded([a], kind) == if a.kind == kind then [a] else []
    ensures Recorded([a, b], kind) == Recorded([a], kind) + if b.kind == kind then [b] else []
  {
    assert [a] == [] + [a] && [a, b] == [a] + [b];
    RecordedGrows([], a, kind);
    RecordedGrows([a], b, kind);
  }

  lemma {:induction false} RecordedIn(rows: seq<Tx>, kind: TxType, k: nat)
    requires k < |Recorded(rows, kind)|
    ensures Recorded(rows, kind)[k].kind == kind && Recorded(rows, kind)[k] in rows
  {
    var n := |rows| - 1;
    if k < |Recorded(rows[..n], kind)| {
      RecordedIn(rows[..n], kind, k);
    } else {
      assert Recorded(rows, kind)[k] == rows[n];
    }
  }

  // ------------------------------------------------------- the replies of steps

  function Succeed<W>(w: W): Reply<W> {
    Reply(w, Done, None, None, false, false)
  }

  /** An ordinary error: the step is retried, unless the failure callback says otherwise. */
  function Refuse<W>(w: W): Reply<W> {
    Reply(w, Err(Plain), None, None, false, false)
  }

  /** The error of a transfer that cannot succeed any more. */
  function GiveUp<W>(w: W): Reply<W> {
    Reply(w, Err(FailedTransfer), None, None, false, false)
  }

  function Die<W>(w: W): Reply<W> {
    Reply(w, Died, None, None, false, false)
  }

  /** A success that jumps within the stage. */
  function GoTo<W>(w: W, step: StepName): Reply<W> {
    Reply(w, Done, None, Some(step), false, false)
  }

  function GoSending<W>(w: W): Reply<W> {
    Reply(w, Done, Some(StageSending), Some(StepSending), false, false)
  }
}
