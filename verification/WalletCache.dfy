/** The wallet cache and the tables it stands for. */
module WalletCache {
  import opened Wrappers
  import opened Transfers

  datatype Wallet = Wallet(blockchain: Blockchain, address: string, owner: nat, externalId: string, activated: bool)

  datatype Tables = Tables(hot: seq<Wallet>, processing: seq<Wallet>, cold: seq<Wallet>)

  datatype Result =
    | EmptyAddress
    | NotFound
    | Belongs(walletType: WalletType, owner: nat, externalId: Option<string>, activated: Option<bool>)

  function NameOf(b: Blockchain): string {
    match b
    case Tron => "tron"
    case Ethereum => "ethereum"
    case BinanceSmartChain => "bsc"
    case Polygon => "polygon"
    case Arbitrum => "arbitrum"
    case Optimism => "optimism"
    case Linea => "linea"
    case Bitcoin => "bitcoin"
    case Litecoin => "litecoin"
    case BitcoinCash => "bitcoincash"
    case Dogecoin => "dogecoin"
  }

  function Key(b: Blockchain, address: string): string {
    NameOf(b) + "-" + address
  }

  function KeyOf(w: Wallet): string {
    Key(w.blockchain, w.address)
  }

  function ResultOf(t: WalletType, w: Wallet): Result {
    if t == HotWallet then Belongs(t, w.owner, Some(w.externalId), Some(w.activated))
      else Belongs(t, w.owner, None, None)
  }

  // ----------------------------------------------------------------- in the database

  predicate Matches(w: Wallet, b: Blockchain, address: string) {
    w.blockchain == b && w.address == address
  }

  ghost predicate Has(rows: seq<Wallet>, b: Blockchain, address: string) {
    exists k :: 0 <= k < |rows| && Matches(rows[k], b, address)
  }

  /** The table that decides: hot wallets come before processing wallets, and those before cold. */
  ghost function Deciding(t: Tables, b: Blockchain, address: string): Option<(WalletType, seq<Wallet>)> {
    if Has(t.hot, b, address) then Some((HotWallet, t.hot))
    else if Has(t.processing, b, address) then Some((ProcessingWallet, t.processing))
    else if Has(t.cold, b, address) then Some((ColdWallet, t.cold))
    else None
  }

  /** The answers the database may give: any matching row of the table that decides. */
  ghost predicate DatabaseAnswers(t: Tables, b: Blockchain, address: string, r: Result) {
    if address == "" then r == EmptyAddress
    else
      match Deciding(t, b, address)
      case None => r == NotFound
      case Some((walletType, rows)) =>
        exists k :: 0 <= k < |rows| && Matches(rows[k], b, address) && r == ResultOf(walletType, rows[k])
  }

  // -------------------------------------------------------------------- in the cache

  /** The cache of a table: under each key the last row that was read with it. */
  function LastByKey(rows: seq<Wallet>): map<string, Wallet> {
    if rows == [] then map[]
    else
      var n := |rows| - 1;
      LastByKey(rows[..n])[KeyOf(rows[n]) := rows[n]]
  }

  class Cache {
    var hot: map<string, Wallet>
    var processing: map<string, Wallet>
    var cold: map<string, Wallet>
    var inUse: bool

    constructor ()
      ensures hot == map[] && processing == map[] && cold == map[] && !inUse
    {
      hot, processing, cold, inUse := map[], map[], map[], false;
    }

    /** Stores the rows that were read, then deletes what was not among them. */
    method Refresh(cached: map<string, Wallet>, rows: seq<Wallet>) returns (renewed: map<string, Wallet>)
      ensures renewed == LastByKey(rows)
    {
      renewed := cached;
      var updated: set<string> := {};
      for k := 0 to |rows|
        invariant updated == LastByKey(rows[..k]).Keys
        invariant forall key :: key in LastByKey(rows[..k]) ==>
                  key in renewed && renewed[key] == LastByKey(rows[..k])[key]
      {
        assert rows[..k + 1][..k] == rows[..k];
        var key := KeyOf(rows[k]);
        renewed := renewed[key := rows[k]];
        updated := updated + {key};
      }
      assert rows[..|rows|] == rows;
      var keys := renewed.Keys;
      while keys != {}
        invariant updated <= renewed.Keys <= updated + keys
        invariant forall key :: key in updated ==> renewed[key] == LastByKey(rows)[key]
        decreases |keys|
      {
        var key :| key in keys;
        if key !in updated {
          renewed := renewed - {key};
        }
        keys := keys - {key};
      }
    }

    /** One refresh; a table that cannot be read keeps its old cache. A refresh that finds another
        at work does nothing. */
    method CacherHandler(hotRows: Option<seq<Wallet>>, processingRows: Option<seq<Wallet>>,
                         coldRows: Option<seq<Wallet>>)
      modifies this
      ensures inUse == old(inUse)
      ensures hot == if old(inUse) || hotRows.None? then old(hot) else LastByKey(hotRows.value)
      ensures processing == if old(inUse) || processingRows.None? then old(processing)
              else LastByKey(processingRows.value)
      ensures cold == if old(inUse) || coldRows.None? then old(cold) else LastByKey(coldRows.value)
    {
      if inUse {
        return;
      }
      inUse := true;
      if hotRows.Some? {
        hot := Refresh(hot, hotRows.value);
      }
      if processingRows.Some? {
        processing := Refresh(processing, processingRows.value);
      }
      if coldRows.Some? {
        cold := Refresh(cold, coldRows.value);
      }
      inUse := false;
    }

    function CheckWallet(b: Blockchain, address: string): Result
      reads this
    {
      Find(hot, processing, cold, b, address)
    }

    /** A lookup in the cache right after a refresh with all the tables. It answers as the database
        may, and as it must if and only if all rows of the deciding table agree. */
    method CheckAfterRefresh(t: Tables, b: Blockchain, address: string) returns (r: Result)
      requires !inUse
      modifies this
      ensures r == CheckWallet(b, address) && DatabaseAnswers(t, b, address, r)
      ensures address != "" ==> (AnswersOnly(t, b, address, r) <==> OneAnswer(t, b, address))
    {
      CacherHandler(Some(t.hot), Some(t.processing), Some(t.cold));
      r := CheckWallet(b, address);
      CacheAnswersLikeDatabase(t, b, address);
      if address != "" {
        CacheAgreesIff(t, b, address);
      }
    }
  }

  function Find(hot: map<string, Wallet>, processing: map<string, Wallet>, cold: map<string, Wallet>,
                  b: Blockchain, address: string): Result {
    var key := Key(b, address);
    if address == "" then EmptyAddress
    else if key in hot then ResultOf(HotWallet, hot[key])
    else if key in processing then ResultOf(ProcessingWallet, processing[key])
    else if key in cold then ResultOf(ColdWallet, cold[key])
    else NotFound
  }

  // ------------------------------------------------------------------------- lemmas

  predicate DashFree(s: string) {
    forall k :: 0 <= k < |s| ==> s[k] != '-'
  }

  lemma NamesAreDashFree(b: Blockchain)
    ensures DashFree(NameOf(b))
  {
  }

  lemma NamesAreDistinct(b: Blockchain, c: Blockchain)
    requires NameOf(b) == NameOf(c)
    ensures b == c
  {
    var n := NameOf(b);
    assert |n| >= 3 && n[0] == NameOf(c)[0] && n[1] == NameOf(c)[1] && n[2] == NameOf(c)[2] && |n| == |NameOf(c)|;
  }

  /** No two addresses share a key, because no chain name holds a dash. */
  lemma KeysAreDistinct(b: Blockchain, x: string, c: Blockchain, y: string)
    requires Key(b, x) == Key(c, y)
    ensures b == c && x == y
  {
    var m, n := NameOf(b), NameOf(c);
    NamesAreDashFree(b);
    NamesAreDashFree(c);
    var key := Key(b, x);
    assert key[|m|] == '-' && key[|n|] == '-';
    assert forall k :: 0 <= k < |m| ==> key[k] == m[k] && key[k] != '-';
    assert forall k :: 0 <= k < |n| ==> key[k] == n[k] && key[k] != '-';
    assert key[..|m|] == m && key[..|n|] == n;
    assert key[|m| + 1..] == x && key[|n| + 1..] == y;
    NamesAreDistinct(b, c);
  }

  /** The last row for an address. */
  function LastMatch(rows: seq<Wallet>, b: Blockchain, address: string): (r: Option<Wallet>)
    ensures r.None? ==> !Has(rows, b, address)
    ensures r.Some? ==> exists k :: 0 <= k < |rows| && Matches(rows[k], b, address) && r.value == rows[k]
  {
    if rows == [] then None
    else
      var n := |rows| - 1;
      if Matches(rows[n], b, address) then Some(rows[n])
      else
        var r := LastMatch(rows[..n], b, address);
        assert Has(rows, b, address) ==> Has(rows[..n], b, address) by {
          if k :| 0 <= k < |rows| && Matches(rows[k], b, address) {
            assert rows[..n][k] == rows[k];
          }
        }
        r
  }

  lemma MatchesByKey(w: Wallet, b: Blockchain, address: string)
    ensures KeyOf(w) == Key(b, address) <==> Matches(w, b, address)
  {
    if KeyOf(w) == Key(b, address) {
      KeysAreDistinct(w.blockchain, w.address, b, address);
    }
  }

  /** The cache of a table holds an address exactly if the table does, and then its last row. */
  lemma {:induction false} CacheHolds(rows: seq<Wallet>, b: Blockchain, address: string)
    ensures Key(b, address) in LastByKey(rows) <==> LastMatch(rows, b, address).Some?
    ensures Key(b, address) in LastByKey(rows) ==> LastByKey(rows)[Key(b, address)] == LastMatch(rows, b, address).value
  {
    hide Key, Matches;
    if rows != [] {
      var n := |rows| - 1;
      CacheHolds(rows[..n], b, address);
      MatchesByKey(rows[n], b, address);
    }
  }

  /** What the cache answers after a refresh of the three tables. */
  function Cached(t: Tables, b: Blockchain, address: string): Result {
    Find(LastByKey(t.hot), LastByKey(t.processing), LastByKey(t.cold), b, address)
  }

  /** All rows of the deciding table for an address give the same answer. */
  ghost predicate OneAnswer(t: Tables, b: Blockchain, address: string) {
    match Deciding(t, b, address)
    case None => true
    case Some((walletType, rows)) =>
      forall j, k ::
        0 <= j < |rows| && 0 <= k < |rows| && Matches(rows[j], b, address) && Matches(rows[k], b, address) ==>
        ResultOf(walletType, rows[j]) == ResultOf(walletType, rows[k])
  }

  /** What the cache answers is an answer the database may give. */
  lemma CacheAnswersLikeDatabase(t: Tables, b: Blockchain, address: string)
    ensures DatabaseAnswers(t, b, address, Cached(t, b, address))
  {
    CacheHolds(t.hot, b, address);
    CacheHolds(t.processing, b, address);
    CacheHolds(t.cold, b, address);
  }

  /** The database gives no other answer, whichever row it picks. */
  ghost predicate AnswersOnly(t: Tables, b: Blockchain, address: string, r: Result) {
    forall d :: DatabaseAnswers(t, b, address, d) ==> d == r
  }

  /** After a refresh the cache gives the answer of the database, whichever row the database picks,
      if and only if all rows of the deciding table for the address give one answer. */
  lemma CacheAgreesIff(t: Tables, b: Blockchain, address: string)
    requires address != ""
    ensures AnswersOnly(t, b, address, Cached(t, b, address)) <==> OneAnswer(t, b, address)
  {
    hide LastByKey, Find;
    CacheAnswersLikeDatabase(t, b, address);
    var d := Deciding(t, b, address);
    if d.Some? {
      var (walletType, rows) := d.value;
      if AnswersOnly(t, b, address, Cached(t, b, address)) {
        forall j | 0 <= j < |rows| && Matches(rows[j], b, address)
          ensures ResultOf(walletType, rows[j]) == Cached(t, b, address)
        {
          assert DatabaseAnswers(t, b, address, ResultOf(walletType, rows[j]));
        }
      }
    }
  }

  /** The cold wallets of one address when two owners have it. */
  function OfTwoOwners(b: Blockchain, address: string): Tables {
    Tables([], [], [Wallet(b, address, 1, "", false), Wallet(b, address, 2, "", false)])
  }

  /** The tables are unique per owner only, so two owners may have one cold address: the database may
      answer with the first of them, and the cache answers with the second. */
  lemma TwoOwnersDisagree(b: Blockchain, address: string)
    requires address != ""
    ensures var t := OfTwoOwners(b, address);
            && Cached(t, b, address) == Belongs(ColdWallet, 2, None, None)
            && DatabaseAnswers(t, b, address, Belongs(ColdWallet, 1, None, None))
            && !OneAnswer(t, b, address)
  {
    var t := OfTwoOwners(b, address);
    var rows := t.cold;
    assert Matches(rows[0], b, address) && Matches(rows[1], b, address);
    assert !Has(t.hot, b, address) && !Has(t.processing, b, address) && Has(rows, b, address);
    assert LastByKey(rows) == LastByKey(rows[..1])[Key(b, address) := rows[1]];
    assert ResultOf(ColdWallet, rows[0]) != ResultOf(ColdWallet, rows[1]);
  }

  predicate SameAddress(v: Wallet, w: Wallet) {
    v.blockchain == w.blockchain && v.address == w.address
  }

  /** No two rows of a table are for the same chain and address. */
  predicate Unique(rows: seq<Wallet>) {
    forall j, k :: 0 <= j < |rows| && 0 <= k < |rows| && SameAddress(rows[j], rows[k]) ==> j == k
  }

  lemma UniqueIsOneAnswer(t: Tables, b: Blockchain, address: string)
    requires Unique(t.hot) && Unique(t.processing) && Unique(t.cold)
    ensures OneAnswer(t, b, address)
  {
    var d := Deciding(t, b, address);
    if d.Some? {
      var rows := d.value.1;
      assert Unique(rows);
      forall j, k | 0 <= j < |rows| && 0 <= k < |rows| && Matches(rows[j], b, address) && Matches(rows[k], b, address)
        ensures j == k
      {
        assert SameAddress(rows[j], rows[k]);
      }
    }
  }

  /** With unique addresses the cache and the database agree everywhere. */
  lemma UniqueAgrees(t: Tables, b: Blockchain, address: string, r: Result)
    requires Unique(t.hot) && Unique(t.processing) && Unique(t.cold)
    requires DatabaseAnswers(t, b, address, r)
    ensures r == Cached(t, b, address)
  {
    if address != "" {
      UniqueIsOneAnswer(t, b, address);
      CacheAgreesIff(t, b, address);
    }
  }

  // ---------------------------------------------------------------- the answers, field by field

  ghost predicate Lists(rows: seq<Wallet>, b: Blockchain, address: string) {
    exists w :: w in rows && w.blockchain == b && w.address == address
  }

  /** The last row that was read for the address. */
  ghost predicate IsLast(rows: seq<Wallet>, k: int, b: Blockchain, address: string) {
    && 0 <= k < |rows| && rows[k].blockchain == b && rows[k].address == address
    && forall j :: k < j < |rows| ==> !(rows[j].blockchain == b && rows[j].address == address)
  }

  lemma ListsIff(rows: seq<Wallet>, b: Blockchain, address: string)
    ensures Lists(rows, b, address) <==> Has(rows, b, address)
  {
    if Has(rows, b, address) {
      var k :| 0 <= k < |rows| && Matches(rows[k], b, address);
      assert rows[k] in rows;
    }
  }

  lemma {:induction false} LastMatchIs(rows: seq<Wallet>, b: Blockchain, address: string, k: nat)
    requires IsLast(rows, k, b, address)
    ensures LastMatch(rows, b, address) == Some(rows[k])
  {
    var n := |rows| - 1;
    if k < n {
      LastMatchIs(rows[..n], b, address, k);
    }
  }

  /** The cached answer is that of the last row that was read for the address: a hot wallet with its owner,
      its external name and whether it is activated, else a processing wallet with its owner, else a cold
      wallet with its owner; and nothing is found exactly if no table lists the address. */
  lemma CacheAnswers(t: Tables, b: Blockchain, address: string, k: nat)
    requires address != ""
    ensures Cached(t, b, "") == EmptyAddress
    ensures IsLast(t.hot, k, b, address) ==>
              Cached(t, b, address)
                == Belongs(HotWallet, t.hot[k].owner, Some(t.hot[k].externalId), Some(t.hot[k].activated))
    ensures !Lists(t.hot, b, address) && IsLast(t.processing, k, b, address) ==>
              Cached(t, b, address) == Belongs(ProcessingWallet, t.processing[k].owner, None, None)
    ensures !Lists(t.hot, b, address) && !Lists(t.processing, b, address) && IsLast(t.cold, k, b, address) ==>
              Cached(t, b, address) == Belongs(ColdWallet, t.cold[k].owner, None, None)
    ensures Cached(t, b, address) == NotFound <==>
              !Lists(t.hot, b, address) && !Lists(t.processing, b, address) && !Lists(t.cold, b, address)
  {
    hide Key, LastByKey, Lists, IsLast;
    HoldsLast(t.hot, b, address, k);
    HoldsLast(t.processing, b, address, k);
    HoldsLast(t.cold, b, address, k);
  }

  lemma HoldsLast(rows: seq<Wallet>, b: Blockchain, address: string, k: nat)
    ensures Key(b, address) in LastByKey(rows) <==> Lists(rows, b, address)
    ensures IsLast(rows, k, b, address) ==>
              k < |rows| && Key(b, address) in LastByKey(rows) && LastByKey(rows)[Key(b, address)] == rows[k]
  {
    hide Key, LastByKey;
    CacheHolds(rows, b, address);
    ListsIff(rows, b, address);
    if IsLast(rows, k, b, address) {
      LastMatchIs(rows, b, address, k);
    }
  }

  /** The answer that names a row, field by field. */
  predicate Names(r: Result, t: WalletType, w: Wallet) {
    r == if t == HotWallet then Belongs(t, w.owner, Some(w.externalId), Some(w.activated))
         else Belongs(t, w.owner, None, None)
  }

  ghost predicate AnyRow(rows: seq<Wallet>, b: Blockchain, address: string, t: WalletType, r: Result) {
    exists w :: w in rows && w.blockchain == b && w.address == address && Names(r, t, w)
  }

  lemma AnyRowIff(rows: seq<Wallet>, b: Blockchain, address: string, t: WalletType, r: Result)
    ensures AnyRow(rows, b, address, t, r) <==>
            exists k :: 0 <= k < |rows| && Matches(rows[k], b, address) && r == ResultOf(t, rows[k])
  {
  }

  /** The answers of the database are those of any row for the address, with the same fields and the same
      precedence. */
  lemma DatabaseAnswersIff(t: Tables, b: Blockchain, address: string, r: Result)
    requires address != ""
    ensures DatabaseAnswers(t, b, address, r) <==>
            if Lists(t.hot, b, address) then AnyRow(t.hot, b, address, HotWallet, r)
            else if Lists(t.processing, b, address) then AnyRow(t.processing, b, address, ProcessingWallet, r)
            else if Lists(t.cold, b, address) then AnyRow(t.cold, b, address, ColdWallet, r)
            else r == NotFound
  {
    hide Lists, Has, AnyRow, Matches, ResultOf;
    ListsIff(t.hot, b, address);
    ListsIff(t.processing, b, address);
    ListsIff(t.cold, b, address);
    AnyRowIff(t.hot, b, address, HotWallet, r);
    AnyRowIff(t.processing, b, address, ProcessingWallet, r);
    AnyRowIff(t.cold, b, address, ColdWallet, r);
  }
}
