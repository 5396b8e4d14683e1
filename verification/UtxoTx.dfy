/** Building a transaction that spends outputs: inputs, outputs, the fee by weight, and what is left
    for the miners. Decimals are exact, so they are `real`; amounts are in satoshi. */
module UtxoTx {
  import opened Wrappers
  import opened Decimals

  // ------------------------------------------------------------------------- the fee

  /** Three times the size without witnesses, and the full size. */
  function Weight(stripped: nat, full: nat): nat {
    3 * stripped + full
  }

  /** The virtual size is a quarter of the weight, and is not rounded up before the fee is. */
  function TotalFee(weight: nat, feePerByte: real): int {
    Ceil(weight as real / 4.0 * feePerByte)
  }

  /** A fee in whole satoshi: the least that pays the rate for a quarter of the weight. */
  predicate IsFee(fee: int, stripped: nat, full: nat, feePerByte: real) {
    var exact := (3 * stripped + full) as real / 4.0 * feePerByte;
    exact <= fee as real < exact + 1.0
  }

  lemma FeeIs(stripped: nat, full: nat, feePerByte: real)
    ensures IsFee(TotalFee(Weight(stripped, full), feePerByte), stripped, full, feePerByte)
  {
  }

  lemma QuarterOfWeight(w: nat, v: nat, rate: nat)
    requires v == (w + 3) / 4
    ensures 4 * (v * rate) - 3 * rate <= w * rate <= 4 * (v * rate)
  {
    assert w <= 4 * v <= w + 3;
    assert w * rate <= 4 * v * rate && (4 * v - 3) * rate <= w * rate;
  }

  lemma {:induction false} Product(w: nat, rate: nat)
    ensures (w * rate) as real == w as real * rate as real
  {
    if rate > 0 {
      Product(w, rate - 1);
      assert w * rate == w * (rate - 1) + w;
      assert w as real * rate as real == w as real * (rate - 1) as real + w as real;
    }
  }

  lemma FeeFraction(w: nat, rate: nat)
    ensures w as real / 4.0 * rate as real == (w * rate) as real / 4.0
  {
    Product(w, rate);
    Rearrange(w as real, rate as real);
  }

  lemma Rearrange(a: real, b: real)
    ensures a / 4.0 * b == a * b / 4.0
  {
  }

  lemma CeilOfQuarter(all: int, paid: int, rate: int, x: real)
    requires 4 * paid - 3 * rate <= all <= 4 * paid && rate > 0 && x == all as real / 4.0
    ensures paid - rate < Ceil(x) <= paid
  {
  }

  lemma FeeOfWeight(weight: nat, virtual: nat, rate: nat)
    requires rate > 0 && virtual == (weight + 3) / 4
    ensures virtual * rate - rate < TotalFee(weight, rate as real) <= virtual * rate
  {
    QuarterOfWeight(weight, virtual, rate);
    FeeFraction(weight, rate);
    CeilOfQuarter(weight * rate, virtual * rate, rate, weight as real / 4.0 * rate as real);
  }

  /** For a whole rate the fee pays the rate for every virtual byte but for less than one of them. The
      virtual size is that of the 'Transaction size calculations' section of BIP 141: a quarter, rounded
      up, of three times the size without witnesses and the full size. */
  lemma FeeIsByVirtualSize(stripped: nat, full: nat, rate: nat)
    requires rate > 0
    ensures var virtual := (3 * stripped + full + 3) / 4;
            virtual * rate - rate < TotalFee(Weight(stripped, full), rate as real) <= virtual * rate
  {
    hide TotalFee;
    FeeOfWeight(Weight(stripped, full), (3 * stripped + full + 3) / 4, rate);
  }

  // ---------------------------------------------------------------------- the builder

  datatype Input = Input(hash: string, sequence: nat, amount: int)

  /** An output is identified by the parsed hash of its transaction and its index. */
  datatype OutPoint = OutPoint(hash: nat, sequence: nat)

  datatype Output = Output(address: string, amount: real)

  datatype Added = Added | BadHash | AlreadyUsed | BadAddress | AlreadyExists

  function Sum(values: seq<int>): int {
    if values == [] then 0 else Sum(values[..|values| - 1]) + values[|values| - 1]
  }

  function InputSum(inputs: seq<Input>): int {
    if inputs == [] then 0 else InputSum(inputs[..|inputs| - 1]) + inputs[|inputs| - 1].amount
  }

  lemma SumGrows(values: seq<int>, x: int)
    ensures Sum(values + [x]) == Sum(values) + x
  {
    assert (values + [x])[..|values|] == values;
  }

  lemma InputSumGrows(inputs: seq<Input>, x: Input)
    ensures InputSum(inputs + [x]) == InputSum(inputs) + x.amount
  {
    assert (inputs + [x])[..|inputs|] == inputs;
  }

  lemma SumFirstChanges(values: seq<int>, less: int)
    requires values != []
    ensures Sum(values[0 := values[0] - less]) == Sum(values) - less
    decreases |values|
  {
    var n := |values| - 1;
    var changed := values[0 := values[0] - less];
    if n > 0 {
      assert changed[..n] == values[..n][0 := values[..n][0] - less];
      SumFirstChanges(values[..n], less);
    } else {
      assert changed[..n] == values[..n];
    }
  }

  lemma SumFew(a: int, b: int)
    ensures Sum([a]) == a && Sum([a, b]) == a + b
  {
    assert [a] == [] + [a] && [a, b] == [a] + [b];
    SumGrows([], a);
    SumGrows([a], b);
  }

  class TxBuilder {
    const parse: string -> Option<nat>   // of a transaction hash
    const decodes: string -> bool        // whether an address can be paid to
    var txIn: seq<OutPoint>
    var txOut: seq<int>
    var inputs: seq<Input>
    var outputs: seq<Output>

    /** Inputs and outputs of the transaction and entries of the builder are parallel; no output is
        spent twice and no address is paid twice. */
    ghost predicate Valid()
      reads this
    {
      && |txIn| == |inputs| && |txOut| == |outputs|
      && (forall i :: 0 <= i < |inputs| ==>
            parse(inputs[i].hash).Some? && txIn[i] == OutPoint(parse(inputs[i].hash).value, inputs[i].sequence))
      && (forall i, j :: 0 <= i < j < |txIn| ==> txIn[i] != txIn[j])
      && (forall i, j :: 0 <= i < j < |outputs| ==> outputs[i].address != outputs[j].address)
    }

    constructor (parse: string -> Option<nat>, decodes: string -> bool)
      ensures Valid() && txIn == [] && txOut == [] && inputs == [] && outputs == []
      ensures this.parse == parse && this.decodes == decodes
    {
      this.parse, this.decodes := parse, decodes;
      txIn, txOut, inputs, outputs := [], [], [], [];
    }

    method AddInput(input: Input) returns (r: Added)
      requires Valid()
      modifies this`txIn, this`inputs
      ensures Valid()
      ensures r == if parse(input.hash).None? then BadHash
                   else if OutPoint(parse(input.hash).value, input.sequence) in old(txIn) then AlreadyUsed
                   else Added
      ensures inputs == old(inputs) + if r == Added then [input] else []
      ensures txIn == old(txIn) + if r == Added then [OutPoint(parse(input.hash).value, input.sequence)] else []
    {
      var h := parse(input.hash);
      if h.None? {
        return BadHash;
      }
      var outPoint := OutPoint(h.value, input.sequence);
      for i := 0 to |txIn|
        invariant outPoint !in txIn[..i]
      {
        if txIn[i] == outPoint {
          return AlreadyUsed;
        }
      }
      assert txIn[..|txIn|] == txIn;
      txIn := txIn + [outPoint];
      inputs := inputs + [input];
      r := Added;
    }

    method AddOutput(address: string, amount: real) returns (r: Added)
      requires Valid()
      modifies this`txOut, this`outputs
      ensures Valid()
      ensures r == if exists i :: 0 <= i < |old(outputs)| && old(outputs)[i].address == address then AlreadyExists
                   else if !decodes(address) then BadAddress
                   else Added
      ensures outputs == old(outputs) + if r == Added then [Output(address, amount)] else []
      ensures txOut == old(txOut) + if r == Added then [Trunc(amount)] else []
    {
      for i := 0 to |outputs|
        invariant forall j :: 0 <= j < i ==> outputs[j].address != address
      {
        if outputs[i].address == address {
          return AlreadyExists;
        }
      }
      if !decodes(address) {
        return BadAddress;
      }
      txOut := txOut + [Trunc(amount)];
      outputs := outputs + [Output(address, amount)];
      r := Added;
    }
  }

  // ----------------------------------------------------------------------- the inputs

  /** An unspent output of an address, as the explorer lists it; the amount is in satoshi. */
  datatype Utxo = Utxo(hash: string, sequence: nat, amount: real)

  /** Outputs that are not worth spending are passed over. */
  predicate Skipped(u: Utxo, minAmount: real) {
    (minAmount > 0.0 && u.amount < minAmount) || u.amount == 0.0
  }

  /** The last listed output of each transaction that is worth spending. */
  function Kept(items: seq<Utxo>, minAmount: real): map<string, Utxo> {
    if items == [] then map[]
    else
      var n := |items| - 1;
      var before := Kept(items[..n], minAmount);
      if Skipped(items[n], minAmount) then before else before[items[n].hash := items[n]]
  }

  /** The output is worth spending, and no later one of the same transaction is. */
  predicate IsKept(items: seq<Utxo>, minAmount: real, k: int) {
    && 0 <= k < |items| && Worth(items[k], minAmount)
    && forall j :: k < j < |items| && items[j].hash == items[k].hash ==> !Worth(items[j], minAmount)
  }

  /** It has an amount, and one no less than the least amount, if there is one. */
  predicate Worth(u: Utxo, minAmount: real) {
    u.amount != 0.0 && (minAmount <= 0.0 || minAmount <= u.amount)
  }

  lemma {:induction false} KeptIs(items: seq<Utxo>, minAmount: real, k: int)
    requires IsKept(items, minAmount, k)
    ensures items[k].hash in Kept(items, minAmount) && Kept(items, minAmount)[items[k].hash] == items[k]
  {
    var n := |items| - 1;
    if k < n {
      KeptIs(items[..n], minAmount, k);
    }
  }

  lemma {:induction false} KeptHas(items: seq<Utxo>, minAmount: real, hash: string) returns (k: int)
    requires hash in Kept(items, minAmount)
    ensures IsKept(items, minAmount, k) && items[k].hash == hash && Kept(items, minAmount)[hash] == items[k]
  {
    var n := |items| - 1;
    if Skipped(items[n], minAmount) || items[n].hash != hash {
      k := KeptHas(items[..n], minAmount, hash);
    } else {
      k := n;
    }
  }

  /** Of each transaction the last output that is worth spending is kept, and nothing else. */
  ghost predicate KeepsLast(items: seq<Utxo>, minAmount: real, utxos: map<string, Utxo>) {
    && (forall k :: IsKept(items, minAmount, k) ==> items[k].hash in utxos && utxos[items[k].hash] == items[k])
    && (forall hash :: hash in utxos ==>
          exists k :: IsKept(items, minAmount, k) && items[k].hash == hash && utxos[hash] == items[k])
  }

  method GetAddressUTXO(items: seq<Utxo>, minAmount: real) returns (utxos: map<string, Utxo>)
    ensures utxos == Kept(items, minAmount)
    ensures KeepsLast(items, minAmount, utxos)
  {
    utxos := map[];
    for k := 0 to |items|
      invariant utxos == Kept(items[..k], minAmount)
    {
      assert items[..k + 1][..k] == items[..k];
      if !Skipped(items[k], minAmount) {
        utxos := utxos[items[k].hash := items[k]];
      }
    }
    assert items[..|items|] == items;
    forall k | IsKept(items, minAmount, k) ensures items[k].hash in utxos && utxos[items[k].hash] == items[k] {
      KeptIs(items, minAmount, k);
    }
    forall hash | hash in utxos
      ensures exists k :: IsKept(items, minAmount, k) && items[k].hash == hash && utxos[hash] == items[k]
    {
      var k := KeptHas(items, minAmount, hash);
    }
  }

  lemma {:induction false} KeptIsListed(items: seq<Utxo>, minAmount: real, hash: string)
    requires hash in Kept(items, minAmount)
    ensures Kept(items, minAmount)[hash] in items && Kept(items, minAmount)[hash].hash == hash
    ensures !Skipped(Kept(items, minAmount)[hash], minAmount)
  {
    var n := |items| - 1;
    if Skipped(items[n], minAmount) || items[n].hash != hash {
      KeptIsListed(items[..n], minAmount, hash);
    }
  }

  lemma KeptIsWhole(items: seq<Utxo>, minAmount: real, hash: string)
    requires hash in Kept(items, minAmount) && forall k :: 0 <= k < |items| ==> Whole(items[k].amount)
    ensures Trunc(Kept(items, minAmount)[hash].amount) as real == Kept(items, minAmount)[hash].amount
  {
    KeptIsListed(items, minAmount, hash);
    TruncWhole(Kept(items, minAmount)[hash].amount);
  }

  predicate AllWhole(lists: seq<seq<Utxo>>) {
    forall i, k :: 0 <= i < |lists| && 0 <= k < |lists[i]| ==> Whole(lists[i][k].amount)
  }

  /** The input that spends a listed output. */
  function Spending(u: Utxo): Input {
    Input(u.hash, u.sequence, Trunc(u.amount))
  }

  /** The output at `at.1` of the list of address `at.0` is one that is kept. */
  ghost predicate IsSource(lists: seq<seq<Utxo>>, minAmount: real, at: (int, int)) {
    0 <= at.0 < |lists| && IsKept(lists[at.0], minAmount, at.1)
  }

  /** Two outputs that are kept cannot both be spent: they are of one transaction, or their hashes parse
      to the same one, with one index. */
  ghost predicate Collide(parse: string -> Option<nat>, u: Utxo, v: Utxo) {
    parse(u.hash).Some? && parse(u.hash) == parse(v.hash) && u.sequence == v.sequence
  }

  /** Some output that is kept cannot be added. */
  ghost predicate Blocked(parse: string -> Option<nat>, lists: seq<seq<Utxo>>, minAmount: real) {
    || (exists at :: IsSource(lists, minAmount, at) && parse(lists[at.0][at.1].hash).None?)
    || (exists at, other :: at != other && IsSource(lists, minAmount, at) && IsSource(lists, minAmount, other) &&
          Collide(parse, lists[at.0][at.1], lists[other.0][other.1]))
  }

  /** The inputs spend the outputs at these places, one each. */
  ghost predicate SpendsAt(inputs: seq<Input>, lists: seq<seq<Utxo>>, minAmount: real, places: seq<(int, int)>) {
    && |places| == |inputs|
    && forall m :: 0 <= m < |places| ==>
         IsSource(lists, minAmount, places[m]) && inputs[m] == Spending(lists[places[m].0][places[m].1])
  }

  /** The inputs are exactly those of the outputs that are kept. */
  ghost predicate SpendsKept(inputs: seq<Input>, lists: seq<seq<Utxo>>, minAmount: real) {
    && (forall x :: x in inputs ==> exists at :: IsSource(lists, minAmount, at) && x == Spending(lists[at.0][at.1]))
    && (forall at :: IsSource(lists, minAmount, at) ==> Spending(lists[at.0][at.1]) in inputs)
  }

  /** All places before address `i` are spent, and no other. */
  ghost predicate AllBefore(lists: seq<seq<Utxo>>, minAmount: real, i: nat, places: seq<(int, int)>) {
    && (forall at :: IsSource(lists, minAmount, at) && at.0 < i ==> at in places)
    && (forall at :: at in places ==> 0 <= at.0 < i)
  }

  /** All places before address `i`, and those of its outputs that were added already, are spent. */
  ghost predicate Reached(lists: seq<seq<Utxo>>, minAmount: real, i: nat, left: set<string>, places: seq<(int, int)>) {
    && (forall at :: IsSource(lists, minAmount, at) && at.0 < i ==> at in places)
    && (forall at :: IsSource(lists, minAmount, at) && at.0 == i && lists[i][at.1].hash !in left ==> at in places)
    && (forall at :: at in places ==> 0 <= at.0 <= i)
    && (forall at :: at in places && at.0 == i && i < |lists| && 0 <= at.1 < |lists[i]| ==>
       lists[i][at.1].hash !in left)
  }

  /** The next output of the address is added. */
  lemma ReachesMore(lists: seq<seq<Utxo>>, minAmount: real, i: nat, left: set<string>, places: seq<(int, int)>, k: int)
    requires i < |lists| && IsKept(lists[i], minAmount, k) && lists[i][k].hash in left
    requires Reached(lists, minAmount, i, left, places)
    ensures (i, k) !in places
    ensures Reached(lists, minAmount, i, left - {lists[i][k].hash}, places + [(i, k)])
  {
    var more, rest := places + [(i, k)], left - {lists[i][k].hash};
    forall at | IsSource(lists, minAmount, at) && at.0 == i && lists[i][at.1].hash !in rest ensures at in more {
      if lists[i][at.1].hash == lists[i][k].hash {
        assert at == (i, k) && more[|places|] == at;
      } else {
        assert at in places;
      }
    }
  }

  lemma SpendsMore(inputs: seq<Input>, lists: seq<seq<Utxo>>, minAmount: real, places: seq<(int, int)>, at: (int, int))
    requires SpendsAt(inputs, lists, minAmount, places) && IsSource(lists, minAmount, at)
    ensures SpendsAt(inputs + [Spending(lists[at.0][at.1])], lists, minAmount, places + [at])
  {
  }

  /** One more output of the address is added. */
  lemma Adds(inputs: seq<Input>, lists: seq<seq<Utxo>>, minAmount: real, i: nat, left: set<string>,
             places: seq<(int, int)>, k: int)
    requires i < |lists| && IsKept(lists[i], minAmount, k) && lists[i][k].hash in left
    requires SpendsAt(inputs, lists, minAmount, places) && Reached(lists, minAmount, i, left, places)
    ensures IsSource(lists, minAmount, (i, k)) && (i, k) !in places
    ensures SpendsAt(inputs + [Spending(lists[i][k])], lists, minAmount, places + [(i, k)])
    ensures Reached(lists, minAmount, i, left - {lists[i][k].hash}, places + [(i, k)])
  {
    hide IsKept;
    ReachesMore(lists, minAmount, i, left, places, k);
    SpendsMore(inputs, lists, minAmount, places, (i, k));
  }

  /** An output that cannot be added blocks the transaction. */
  lemma Blocks(tx: TxBuilder, lists: seq<seq<Utxo>>, minAmount: real, places: seq<(int, int)>, at: (int, int))
    requires tx.Valid() && SpendsAt(tx.inputs, lists, minAmount, places) && IsSource(lists, minAmount, at)
    requires at !in places
    requires var u := lists[at.0][at.1];
             tx.parse(u.hash).None? || OutPoint(tx.parse(u.hash).value, u.sequence) in tx.txIn
    ensures Blocked(tx.parse, lists, minAmount)
  {
    var u := lists[at.0][at.1];
    if tx.parse(u.hash).Some? {
      var m :| 0 <= m < |tx.txIn| && tx.txIn[m] == OutPoint(tx.parse(u.hash).value, u.sequence);
      var other := places[m];
      assert other in places && Collide(tx.parse, lists[at.0][at.1], lists[other.0][other.1]);
    }
  }

  /** An output that was added. */
  lemma Found(tx: TxBuilder, lists: seq<seq<Utxo>>, minAmount: real, places: seq<(int, int)>, at: (int, int))
    returns (m: nat)
    requires tx.Valid() && SpendsAt(tx.inputs, lists, minAmount, places) && IsSource(lists, minAmount, at)
    requires AllBefore(lists, minAmount, |lists|, places)
    ensures m < |tx.txIn| && m < |places| && places[m] == at && tx.inputs[m] == Spending(lists[at.0][at.1])
    ensures tx.parse(lists[at.0][at.1].hash).Some?
    ensures tx.txIn[m] == OutPoint(tx.parse(lists[at.0][at.1].hash).value, lists[at.0][at.1].sequence)
  {
    m :| 0 <= m < |places| && places[m] == at;
  }

  /** When all outputs that are kept were added, none was blocked. */
  lemma AllAdded(tx: TxBuilder, lists: seq<seq<Utxo>>, minAmount: real, places: seq<(int, int)>)
    requires tx.Valid() && SpendsAt(tx.inputs, lists, minAmount, places)
    requires AllBefore(lists, minAmount, |lists|, places)
    ensures !Blocked(tx.parse, lists, minAmount) && SpendsKept(tx.inputs, lists, minAmount)
  {
    hide AllBefore;
    forall at | IsSource(lists, minAmount, at)
      ensures tx.parse(lists[at.0][at.1].hash).Some? && Spending(lists[at.0][at.1]) in tx.inputs
    {
      var m := Found(tx, lists, minAmount, places, at);
    }
    forall at, other | at != other && IsSource(lists, minAmount, at) && IsSource(lists, minAmount, other)
      ensures !Collide(tx.parse, lists[at.0][at.1], lists[other.0][other.1])
    {
      var m := Found(tx, lists, minAmount, places, at);
      var n := Found(tx, lists, minAmount, places, other);
      assert tx.txIn[m] != tx.txIn[n];
    }
  }

  lemma StartsEmpty(tx: TxBuilder, lists: seq<seq<Utxo>>, minAmount: real)
    requires tx.inputs == []
    ensures AllBefore(lists, minAmount, 0, []) && SpendsAt(tx.inputs, lists, minAmount, [])
  {
  }

  /** No output of the next address was added yet. */
  lemma Enters(lists: seq<seq<Utxo>>, minAmount: real, i: nat, hashes: set<string>, places: seq<(int, int)>)
    requires i < |lists| && AllBefore(lists, minAmount, i, places) && hashes == Kept(lists[i], minAmount).Keys
    ensures Reached(lists, minAmount, i, hashes, places)
  {
    forall at | IsSource(lists, minAmount, at) && at.0 == i ensures lists[i][at.1].hash in hashes {
      KeptIs(lists[i], minAmount, at.1);
    }
  }

  lemma Leaves(lists: seq<seq<Utxo>>, minAmount: real, i: nat, places: seq<(int, int)>)
    requires i < |lists| && Reached(lists, minAmount, i, {}, places)
    ensures AllBefore(lists, minAmount, i + 1, places)
  {
  }

  /** Adds the kept outputs of one address, in any order. */
  method AddKept(tx: TxBuilder, utxos: map<string, Utxo>, before: real, ghost lists: seq<seq<Utxo>>,
                 ghost minAmount: real,
                 ghost i: nat, ghost places: seq<(int, int)>)
    returns (total: Option<real>, ghost after: seq<(int, int)>)
    requires tx.Valid() && i < |lists| && utxos == Kept(lists[i], minAmount)
    requires SpendsAt(tx.inputs, lists, minAmount, places) && Reached(lists, minAmount, i, utxos.Keys, places)
    modifies tx`txIn, tx`inputs
    ensures tx.Valid()
    ensures total.None? ==> Blocked(tx.parse, lists, minAmount)
    ensures total.Some? ==> SpendsAt(tx.inputs, lists, minAmount, after) && Reached(lists, minAmount, i, {}, after)
    ensures total.Some? && AllWhole(lists) ==>
              total.value - before == (InputSum(tx.inputs) - InputSum(old(tx.inputs))) as real
  {
    hide Whole, IsKept, Kept, IsSource, Reached, SpendsAt, Blocked, InputSum;
    var sum := before;
    var hashes := utxos.Keys;
    after := places;
    while hashes != {}
      invariant tx.Valid() && hashes <= utxos.Keys
      invariant AllWhole(lists) ==> sum - before == (InputSum(tx.inputs) - InputSum(old(tx.inputs))) as real
      invariant SpendsAt(tx.inputs, lists, minAmount, after) && Reached(lists, minAmount, i, hashes, after)
      decreases |hashes|
    {
      var hash :| hash in hashes;
      ghost var k := KeptHas(lists[i], minAmount, hash);
      Adds(tx.inputs, lists, minAmount, i, hashes, after, k);
      hashes := hashes - {hash};
      var u := utxos[hash];
      var input := Input(u.hash, u.sequence, Trunc(u.amount));
      if AllWhole(lists) {
        KeptIsWhole(lists[i], minAmount, hash);
      }
      InputSumGrows(tx.inputs, input);
      ghost var was := tx.inputs;
      var r := tx.AddInput(input);
      if r != Added {
        assert tx.inputs == was;
        Blocks(tx, lists, minAmount, after, (i, k));
        return None, after;
      }
      after := after + [(i, k)];
      sum := sum + u.amount;
    }
    total := Some(sum);
  }

  /** Adds the kept outputs of every address as inputs, and totals them; none if and only if one cannot be
      added. */
  method ProcessAddressesUTXOs(tx: TxBuilder, lists: seq<seq<Utxo>>, minAmount: real) returns (total: Option<real>)
    requires tx.Valid() && tx.inputs == []
    modifies tx`txIn, tx`inputs
    ensures tx.Valid()
    ensures total.None? <==> Blocked(tx.parse, lists, minAmount)
    ensures total.Some? ==> SpendsKept(tx.inputs, lists, minAmount)
    ensures total.Some? && AllWhole(lists) ==> total.value == InputSum(tx.inputs) as real
  {
    hide Whole, IsKept, Kept, KeepsLast, IsSource, Reached, AllBefore, SpendsAt, SpendsKept, Blocked;
    var sum := 0.0;
    ghost var places: seq<(int, int)> := [];
    StartsEmpty(tx, lists, minAmount);
    for i := 0 to |lists|
      invariant tx.Valid() && (AllWhole(lists) ==> sum == InputSum(tx.inputs) as real)
      invariant SpendsAt(tx.inputs, lists, minAmount, places) && AllBefore(lists, minAmount, i, places)
    {
      var utxos := GetAddressUTXO(lists[i], minAmount);
      Enters(lists, minAmount, i, utxos.Keys, places);
      var added;
      added, places := AddKept(tx, utxos, sum, lists, minAmount, i, places);
      if added.None? {
        return None;
      }
      sum := added.value;
      Leaves(lists, minAmount, i, places);
    }
    AllAdded(tx, lists, minAmount, places);
    total := Some(sum);
  }

  // --------------------------------------------------------------------- the transfer

  datatype Request = Request(wholeAmount: bool, amount: real, toAddress: string, changeAddress: string)

  datatype Prepared = Prepared(fee: int) | Refused

  lemma WholeDifference(x: real, y: real)
    requires Whole(x) && Whole(y)
    ensures Trunc(y) as real == y && Trunc(x - y) as real == x - y
  {
    TruncWhole(y);
    assert x - y == (x.Floor - y.Floor) as real;
    RoundInt(x.Floor - y.Floor);
  }

  /** What is sent, and what is left over. */
  function TransferAmount(q: Request, total: real): real {
    if q.wholeAmount then total else q.amount
  }

  /** The values of the outputs before the fee is taken out: of a whole withdrawal one, otherwise a
      second one for what is left over. */
  function OutputValues(q: Request, total: real): (values: seq<int>)
    ensures 1 <= |values| <= 2
  {
    var transfer := TransferAmount(q, total);
    [Trunc(transfer)] + if total - transfer > 0.0 then [Trunc(total - transfer)] else []
  }

  /** There is something to send, no more than there is, and the addresses can be paid to. */
  predicate Payable(q: Request, total: real, decodes: string -> bool) {
    && 0.0 < total && (q.wholeAmount || 0.0 < q.amount <= total)
    && decodes(q.toAddress)
    && (!q.wholeAmount && q.amount < total ==> q.changeAddress != q.toAddress && decodes(q.changeAddress))
  }

  /** Sets the outputs. */
  method SetOutputs(tx: TxBuilder, q: Request, total: real) returns (ok: bool)
    requires tx.Valid() && tx.outputs == []
    modifies tx`txOut, tx`outputs
    ensures tx.Valid()
    ensures ok <==> Payable(q, total, tx.decodes)
    ensures ok ==>
              && 0.0 < TransferAmount(q, total) <= total
              && tx.txOut == OutputValues(q, total) && tx.outputs[0].address == q.toAddress
              && (|tx.txOut| == 2 ==> tx.outputs[1].address == q.changeAddress)
  {
    if total <= 0.0 {
      return false;
    }
    var transferAmount, amountRemaining := 0.0, 0.0;
    if q.wholeAmount {
      transferAmount := total;
    } else {
      transferAmount := q.amount;
      amountRemaining := total - transferAmount;
    }
    if transferAmount <= 0.0 || amountRemaining < 0.0 {
      return false;
    }
    var added := tx.AddOutput(q.toAddress, transferAmount);
    assert added == Added ==> tx.outputs[0].address == q.toAddress;
    if added == Added && amountRemaining > 0.0 {
      added := tx.AddOutput(q.changeAddress, amountRemaining);
    }
    ok := added == Added;
  }

  /** Amounts of whole satoshi lose nothing when they become output values. */
  lemma ValuesSum(q: Request, total: real)
    requires Whole(total) && Whole(q.amount) && TransferAmount(q, total) <= total
    ensures Sum(OutputValues(q, total)) as real == total
    ensures OutputValues(q, total)[0] as real == TransferAmount(q, total)
  {
    var transfer := TransferAmount(q, total);
    WholeDifference(total, transfer);
    SumFew(Trunc(transfer), Trunc(total - transfer));
    assert [Trunc(transfer)] + [Trunc(total - transfer)] == [Trunc(transfer), Trunc(total - transfer)];
    assert [Trunc(transfer)] + [] == [Trunc(transfer)];
  }

  /** Sets the outputs and takes the fee out of the first one. The sizes are those of the signed
      transaction with the fee taken out. */
  method Prepare(tx: TxBuilder, q: Request, total: real, feePerByte: real, stripped: nat,
                 full: nat) returns (r: Prepared)
    requires tx.Valid() && tx.outputs == []
    modifies tx`txOut, tx`outputs
    ensures tx.Valid()
    ensures r.Prepared? <==>
              Payable(q, total, tx.decodes) &&
              TotalFee(Weight(stripped, full), feePerByte) <= Trunc(if q.wholeAmount then total else q.amount)
    ensures r.Prepared? ==>
              var values := OutputValues(q, total);
              && r.fee == TotalFee(Weight(stripped, full), feePerByte) && IsFee(r.fee, stripped, full, feePerByte)
              && 0.0 < TransferAmount(q, total) <= total
              && tx.txOut == values[0 := values[0] - r.fee] && tx.txOut[0] >= 0
              && tx.outputs[0].address == q.toAddress && (|tx.txOut| == 2 ==> tx.outputs[1].address == q.changeAddress)
  {
    var ok := SetOutputs(tx, q, total);
    if !ok {
      return Refused;
    }
    var fee := TotalFee(Weight(stripped, full), feePerByte);
    FeeIs(stripped, full, feePerByte);
    tx.txOut := tx.txOut[0 := tx.txOut[0] - fee];
    if tx.txOut[0] < 0 {
      return Refused;
    }
    r := Prepared(fee);
  }

  /** From listed outputs to a transaction: with amounts of whole satoshi everything the inputs
      bring goes to the recipient, back as change, or to the miners as the fee; the fee is taken
      from what the recipient gets. */
  method BuildTransfer(tx: TxBuilder, lists: seq<seq<Utxo>>, minAmount: real, q: Request, feePerByte: real,
                       stripped: nat, full: nat)
    returns (r: Prepared)
    requires tx.Valid() && tx.inputs == [] && tx.outputs == []
    modifies tx
    ensures tx.Valid()
    ensures AllWhole(lists) && Whole(q.amount) ==>
              (r.Prepared? <==>
                 && !Blocked(tx.parse, lists, minAmount)
                 && Payable(q, InputSum(tx.inputs) as real, tx.decodes)
                 && TotalFee(Weight(stripped, full), feePerByte) <=
                    if q.wholeAmount then InputSum(tx.inputs) else q.amount.Floor)
    ensures r.Prepared? ==>
              && SpendsKept(tx.inputs, lists, minAmount) && IsFee(r.fee, stripped, full, feePerByte)
              && 1 <= |tx.outputs| <= 2 && tx.outputs[0].address == q.toAddress
              && (|tx.outputs| == 2 ==> tx.outputs[1].address == q.changeAddress)
    ensures r.Prepared? && AllWhole(lists) && Whole(q.amount) ==>
              && |tx.txOut| >= 1 && tx.txOut[0] >= 0
              && InputSum(tx.inputs) == Sum(tx.txOut) + r.fee
              && tx.txOut[0] == (if q.wholeAmount then InputSum(tx.inputs) else q.amount.Floor) - r.fee
  {
    var total := ProcessAddressesUTXOs(tx, lists, minAmount);
    if total.None? {
      return Refused;
    }
    r := Prepare(tx, q, total.value, feePerByte, stripped, full);
    if AllWhole(lists) && Whole(q.amount) {
      TruncWhole(total.value);
      TruncWhole(q.amount);
    }
    if r.Prepared? && AllWhole(lists) && Whole(q.amount) {
      ValuesSum(q, total.value);
      SumFirstChanges(OutputValues(q, total.value), r.fee);
    }
  }
}
