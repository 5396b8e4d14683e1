/** Fees of EVM transfers: unit conversion with rounding, the fee estimate, and what a transfer of
    the whole balance spends. Decimals are exact, so they are `real`; rounding is written out. */
module EvmFee {
  import opened Wrappers
  import opened Transfers
  import opened Decimals

  // ------------------------------------------------------------------------- units

  /** Division rounded to as many decimal places as `scale` has zeros. */
  function DivRound(x: real, y: real, scale: real): real
    requires y != 0.0 && scale != 0.0
  {
    Round(x / y * scale) as real / scale
  }

  datatype EtherUnit = Wei | KWei | MWei | GWei | Szabo | Finney | Ether

  function UnitSize(u: EtherUnit): (size: real)
    ensures size >= 1.0
  {
    match u
    case Wei => 1.0
    case KWei => 1000.0
    case MWei => 1000000.0
    case GWei => 1000000000.0
    case Szabo => 1000000000000.0
    case Finney => 1000000000000000.0
    case Ether => 1000000000000000000.0
  }

  /** An amount in some unit, in wei. */
  function NewUnit(value: real, u: EtherUnit): real {
    value * UnitSize(u)
  }

  /** An amount in wei, in some unit: rounded to whole wei, except that wei are left alone. */
  function Value(wei: real, u: EtherUnit): real {
    if u == Wei then wei else DivRound(wei, UnitSize(u), UnitSize(u))
  }

  /** Converting wei to any unit and back rounds to whole wei, and so changes nothing if the wei
      are whole. */
  lemma UnitRoundTrip(wei: real, u: EtherUnit)
    ensures NewUnit(Value(wei, u), u) == if u == Wei then wei else Round(wei) as real
    ensures wei == wei.Floor as real ==> NewUnit(Value(wei, u), u) == wei
  {
    var size := UnitSize(u);
    assert wei / size * size == wei;
    RoundInt(wei.Floor);
    var whole := Round(wei) as real;
    assert whole / size * size == whole;
  }

  /** Each unit is a thousand of the one before, and the first is one wei. */
  lemma UnitsGrow()
    ensures NewUnit(1.0, Wei) == 1.0
    ensures NewUnit(1.0, KWei) == NewUnit(1000.0, Wei) && NewUnit(1.0, MWei) == NewUnit(1000.0, KWei)
    ensures NewUnit(1.0, GWei) == NewUnit(1000.0, MWei) && NewUnit(1.0, Szabo) == NewUnit(1000.0, GWei)
    ensures NewUnit(1.0, Finney) == NewUnit(1000.0, Szabo) && NewUnit(1.0, Ether) == NewUnit(1000.0, Finney)
  {
  }

  // ------------------------------------------------------------------------ the table

  datatype Tier = Tier(threshold: int, multiplier: real)

  const TIERS := [
    Tier(200, 1.14), Tier(100, 1.17), Tier(40, 1.18), Tier(20, 1.19), Tier(10, 1.192), Tier(9, 1.195),
    Tier(8, 1.20), Tier(7, 1.215), Tier(6, 1.22), Tier(5, 1.24), Tier(4, 1.26)]

  const NO_TIER := 1.30

  /** The price reaches the threshold of tier `k`, and none that is greater. */
  ghost predicate IsTier(gwei: real, k: int) {
    && 0 <= k < |TIERS| && TIERS[k].threshold as real <= gwei
    && forall j :: 0 <= j < |TIERS| && TIERS[j].threshold as real <= gwei ==> TIERS[j].threshold <= TIERS[k].threshold
  }

  /** The multiplier of the tier with the greatest threshold that the price reaches. */
  ghost predicate IsMultiplier(gwei: real, m: real) {
    || (m == NO_TIER && forall k :: 0 <= k < |TIERS| ==> gwei < TIERS[k].threshold as real)
    || (exists k :: IsTier(gwei, k) && m == TIERS[k].multiplier)
  }

  lemma TiersDescend(j: nat, k: nat)
    requires j < k < |TIERS|
    ensures TIERS[j].threshold > TIERS[k].threshold && TIERS[j].multiplier < TIERS[k].multiplier
  {
  }

  lemma TierBounds(k: nat)
    requires k < |TIERS|
    ensures 1.14 <= TIERS[k].multiplier < NO_TIER
  {
  }

  /** The price with the safety margin of its tier. */
  ghost predicate IsBaseFee(fee: real, price: real) {
    exists m :: IsMultiplier(Value(price, GWei), m) && fee == m * price
  }

  /** The base fee with its safety margin: a scan of the table, from the greatest threshold down. */
  method GetBaseFeeMultiplier(baseFeeWei: real) returns (fee: real)
    ensures IsBaseFee(fee, baseFeeWei)
  {
    hide Value;
    var gwei := Value(baseFeeWei, GWei);
    for k := 0 to |TIERS|
      invariant forall j :: 0 <= j < k ==> gwei < TIERS[j].threshold as real
    {
      if gwei >= TIERS[k].threshold as real {
        fee := TIERS[k].multiplier * baseFeeWei;
        forall j | 0 <= j < |TIERS| && TIERS[j].threshold as real <= gwei
          ensures TIERS[j].threshold <= TIERS[k].threshold {
          if k < j {
            TiersDescend(k, j);
          }
        }
        assert IsTier(gwei, k);
        assert IsMultiplier(gwei, TIERS[k].multiplier);
        return;
      }
    }
    assert IsMultiplier(gwei, NO_TIER);
    fee := NO_TIER * baseFeeWei;
  }

  /** There is one multiplier for a price; it lies between 1.14 and 1.30; and a higher price never
      has a higher one. */
  lemma MultiplierFalls(low: real, m: real, high: real, n: real)
    requires low <= high && IsMultiplier(low, m) && IsMultiplier(high, n)
    ensures 1.14 <= n <= m <= NO_TIER
    ensures low == high ==> m == n
  {
    if j :| IsTier(low, j) && m == TIERS[j].multiplier {
      TierBounds(j);
      assert TIERS[j].threshold as real <= high;
      var k :| IsTier(high, k) && n == TIERS[k].multiplier;
      TierBounds(k);
      if j < k {
        TiersDescend(j, k);
      } else if k < j {
        TiersDescend(k, j);
      }
    } else if k :| 0 <= k < |TIERS| && n == TIERS[k].multiplier {
      TierBounds(k);
    }
  }

  /** The multiplier of a price in wei. */
  function Margin(price: nat): real {
    if price >= 200000000000 then 1.14
    else if price >= 100000000000 then 1.17
    else if price >= 40000000000 then 1.18
    else if price >= 20000000000 then 1.19
    else if price >= 10000000000 then 1.192
    else if price >= 9000000000 then 1.195
    else if price >= 8000000000 then 1.20
    else if price >= 7000000000 then 1.215
    else if price >= 6000000000 then 1.22
    else if price >= 5000000000 then 1.24
    else if price >= 4000000000 then 1.26
    else 1.30
  }

  /** A whole price in wei is a price in gwei without rounding. */
  lemma GweiIs(price: nat)
    ensures Value(price as real, GWei) * 1000000000.0 == price as real
  {
    UnitRoundTrip(price as real, GWei);
  }

  lemma Reaches(price: nat, k: int)
    requires 0 <= k < |TIERS|
    ensures TIERS[k].threshold as real <= Value(price as real, GWei) <==> TIERS[k].threshold * 1000000000 <= price
  {
    hide Value;
    GweiIs(price);
    var gwei, n := Value(price as real, GWei), TIERS[k].threshold;
    assert n as real <= gwei <==> n as real * 1000000000.0 <= price as real;
  }

  lemma MarginIs(price: nat)
    ensures IsMultiplier(Value(price as real, GWei), Margin(price))
  {
    hide Value;
    var gwei := Value(price as real, GWei);
    forall j | 0 <= j < |TIERS|
      ensures TIERS[j].threshold as real <= gwei <==> TIERS[j].threshold * 1000000000 <= price
    {
      Reaches(price, j);
    }
    var k :=
      if price >= 200000000000 then 0 else if price >= 100000000000 then 1 else if price >= 40000000000 then 2
      else if price >= 20000000000 then 3 else if price >= 10000000000 then 4 else if price >= 9000000000 then 5
      else if price >= 8000000000 then 6 else if price >= 7000000000 then 7 else if price >= 6000000000 then 8
      else if price >= 5000000000 then 9 else 10;
    if price >= 4000000000 {
      assert IsTier(gwei, k);
    }
  }

  /** A price in wei with its margin. */
  function WithMargin(price: nat): real {
    Margin(price) * price as real
  }

  /** The base fee of a whole price. */
  lemma BaseFeeIs(fee: real, price: nat)
    requires IsBaseFee(fee, price as real)
    ensures fee == WithMargin(price)
  {
    hide IsMultiplier, Margin, Value;
    MarginIs(price);
    var m :| IsMultiplier(Value(price as real, GWei), m) && fee == m * price as real;
    MultiplierFalls(Value(price as real, GWei), m, Value(price as real, GWei), Margin(price));
  }

  // ---------------------------------------------------------------------- the estimate

  function MinGasTipCap(b: Blockchain): int {
    match b
    case BinanceSmartChain => 100000000
    case Ethereum => 1000000000
    case Polygon => 30000000000
    case Arbitrum | Optimism | Linea => 10000000
    case _ => 1000000000
  }

  function GasLimit(b: Blockchain): nat {
    if b == Arbitrum then 38000 else 21000
  }

  lemma Scales(a: real, b: real, x: real)
    requires a <= b && x >= 0.0
    ensures a * x <= b * x
  {
    assert (b - a) * x >= 0.0;
  }

  lemma BaseFeeBounds(fee: real, price: real)
    requires price >= 0.0 && IsBaseFee(fee, price)
    ensures 1.14 * price <= fee <= 1.30 * price
  {
    var m :| IsMultiplier(Value(price, GWei), m) && fee == m * price;
    MultiplierFalls(Value(price, GWei), m, Value(price, GWei), m);
    Scales(1.14, m, price);
    Scales(m, 1.30, price);
  }

  /** All values are in wei. */
  datatype Estimate = Estimate(maxFeePerGas: real, gasTipCap: real, gasPrice: real)

  function Max(a: real, b: real): real {
    if a < b then b else a
  }

  /** The least tip of a chain: 1 gwei, a tenth of it on Binance Smart Chain, a hundredth on the roll-ups, and
      30 gwei on Polygon. */
  lemma TipIs(b: Blockchain)
    ensures MinGasTipCap(b) as real * (if b == BinanceSmartChain then 10.0
                                       else if b == Arbitrum || b == Optimism || b == Linea then 100.0 else 1.0) ==
            NewUnit(if b == Polygon then 30.0 else 1.0, GWei)
  {
  }

  /** The estimate from what the node suggests. The tip is the greater of the suggested one and the least of
      the chain; the fee per gas is the greater of the price with its margin, which is between 14 and 30
      percent, and the price with the tip; and the tip is within the fee once both are cut to whole wei, as
      EIP-1559 asks. */
  method EstimateFee(b: Blockchain, suggestedTip: nat, suggestedPrice: nat) returns (fee: Estimate)
    ensures fee.gasPrice == suggestedPrice as real
    ensures fee.gasTipCap == Max(MinGasTipCap(b) as real, suggestedTip as real)
    ensures fee.maxFeePerGas == Max(WithMargin(suggestedPrice), fee.gasPrice + fee.gasTipCap)
    ensures fee.maxFeePerGas >= fee.gasPrice + fee.gasTipCap && fee.maxFeePerGas >= 1.14 * fee.gasPrice
    ensures fee.maxFeePerGas <= 1.30 * fee.gasPrice || fee.maxFeePerGas == fee.gasPrice + fee.gasTipCap
    ensures Trunc(fee.gasTipCap) <= Trunc(fee.maxFeePerGas)
  {
    hide WithMargin, IsBaseFee;
    fee := Estimate(0.0, suggestedTip as real, suggestedPrice as real);
    if fee.gasTipCap < MinGasTipCap(b) as real {
      fee := fee.(gasTipCap := MinGasTipCap(b) as real);
    }
    var base := GetBaseFeeMultiplier(fee.gasPrice);
    BaseFeeBounds(base, fee.gasPrice);
    BaseFeeIs(base, suggestedPrice);
    fee := fee.(maxFeePerGas := base);
    if fee.maxFeePerGas < fee.gasPrice + fee.gasTipCap {
      fee := fee.(maxFeePerGas := fee.gasPrice + fee.gasTipCap);
    }
    TruncGrows(fee.gasTipCap, fee.maxFeePerGas);
  }

  // ----------------------------------------------------------------------- the transfer

  /** The gas of a transfer of the native asset: what is estimated, but no less than the limit. */
  function NativeGas(b: Blockchain, estimated: nat): nat {
    if estimated > GasLimit(b) then estimated else GasLimit(b)
  }

  /** The fields of the signed transaction that cost something, in wei. */
  datatype Native = Native(value: int, gasFeeCap: int, gasTipCap: int, gas: nat)

  /** The fee a transfer of the whole balance leaves room for. */
  function TotalFee(b: Blockchain, maxFeePerGas: real, estimatedGas: nat): real {
    maxFeePerGas * NativeGas(b, estimatedGas) as real
  }

  /** The most the gas of the transaction can cost, which is what a node asks for. */
  function MaxCost(b: Blockchain, maxFeePerGas: real): int {
    Trunc(maxFeePerGas) * GasLimit(b)
  }

  /** The value a transfer of the whole balance carries. */
  function WholeValue(balance: real, fee: real): int {
    Trunc(NewUnit(balance - Value(fee, Ether), Ether))
  }

  /** The gas is bought as estimated, for the gas limit of the chain. */
  predicate SpendsOf(tx: Native, b: Blockchain, estimate: Estimate) {
    tx.gasFeeCap == Trunc(estimate.maxFeePerGas) && tx.gasTipCap == Trunc(estimate.gasTipCap) && tx.gas == GasLimit(b)
  }

  /** The value and the fee are the balance, and the value with the most the gas can cost is within it. */
  predicate SpendsAll(tx: Native, wei: int, fee: int) {
    tx.value + fee == wei && tx.value + tx.gasFeeCap * tx.gas <= wei
  }

  lemma WholeValueIs(wei: int, balance: real, fee: real)
    requires NewUnit(balance, Ether) == wei as real
    ensures WholeValue(balance, fee) == wei - Round(fee)
  {
    UnitRoundTrip(fee, Ether);
    assert NewUnit(balance - Value(fee, Ether), Ether) == NewUnit(balance, Ether) - NewUnit(Value(fee, Ether), Ether);
    RoundInt(wei - Round(fee));
  }

  lemma CapWithinFee(cap: real, limit: nat, gas: nat)
    requires cap >= 0.0 && limit <= gas
    ensures Trunc(cap) * limit <= Round(cap * gas as real)
  {
    var spent := Trunc(cap) * limit;
    assert spent as real <= cap * limit as real by {
      Scales(Trunc(cap) as real, cap, limit as real);
    }
    assert cap * limit as real <= cap * gas as real by {
      Scales(limit as real, gas as real, cap);
    }
    RoundClose(cap * gas as real);
  }

  lemma CostWithinFee(b: Blockchain, maxFeePerGas: real, estimatedGas: nat)
    requires maxFeePerGas >= 0.0
    ensures MaxCost(b, maxFeePerGas) <= Round(TotalFee(b, maxFeePerGas, estimatedGas))
  {
    CapWithinFee(maxFeePerGas, GasLimit(b), NativeGas(b, estimatedGas));
  }

  /** A transfer of the whole of a balance of whole wei spends no more than the balance, whatever
      the fee per gas: the value with the rounded fee is the balance exactly, and the most the
      transaction can cost, the capped fee for its gas limit, is within that fee. */
  lemma NoOverspend(b: Blockchain, wei: nat, balance: real, maxFeePerGas: real, estimatedGas: nat)
    requires NewUnit(balance, Ether) == wei as real && maxFeePerGas >= 0.0
    ensures var fee := TotalFee(b, maxFeePerGas, estimatedGas);
            && WholeValue(balance, fee) + Round(fee) == wei
            && WholeValue(balance, fee) + MaxCost(b, maxFeePerGas) <= wei
  {
    var fee := TotalFee(b, maxFeePerGas, estimatedGas);
    WholeValueIs(wei, balance, fee);
    CostWithinFee(b, maxFeePerGas, estimatedGas);
  }

  /** The value and the gas of the transaction, for some balance and fee that covers the gas. */
  predicate Pays(tx: Native, wholeAmount: bool, requested: real, balance: real, fee: real, covers: bool) {
    if wholeAmount then
      tx.value == WholeValue(balance, fee) &&
      (covers && Whole(NewUnit(balance, Ether)) ==> SpendsAll(tx, NewUnit(balance, Ether).Floor, Round(fee)))
    else
      tx.value == Trunc(NewUnit(requested, Ether)) &&
        (Whole(NewUnit(requested, Ether)) ==> tx.value as real == NewUnit(requested, Ether))
  }

  /** Taking the fee out of the balance, or nothing out of the amount, pays what is promised. */
  lemma PaysWhole(tx: Native, wholeAmount: bool, requested: real, balance: real, fee: real, covers: bool)
    requires tx.value == Trunc(NewUnit(if wholeAmount then balance - Value(fee, Ether) else requested, Ether))
    requires covers ==> tx.gasFeeCap * tx.gas <= Round(fee)
    ensures Pays(tx, wholeAmount, requested, balance, fee, covers)
  {
    if wholeAmount && Whole(NewUnit(balance, Ether)) {
      WholeValueIs(NewUnit(balance, Ether).Floor, balance, fee);
    } else if !wholeAmount && Whole(NewUnit(requested, Ether)) {
      TruncWhole(NewUnit(requested, Ether));
    }
  }

  /** The fee for the gas that is estimated, but for no less than the limit. */
  function GasFee(maxFeePerGas: real, limit: nat, estimatedGas: nat): real {
    maxFeePerGas * (if limit < estimatedGas then estimatedGas else limit) as real
  }

  /** What the transaction carries, in wei: of a whole balance of whole wei the balance less the fee, rounded
      to whole wei; else the requested amount, if it is of whole wei. It buys the gas of the limit. */
  predicate Carries(tx: Native, limit: nat, fee: real, wholeAmount: bool, requested: real, balance: real) {
    var wei := (if wholeAmount then balance else requested) * 1000000000000000000.0;
    && tx.gas == limit
    && (Whole(wei) ==> tx.value == if wholeAmount then wei.Floor - Round(fee) else wei.Floor)
  }

  lemma GasFeeIs(b: Blockchain, maxFeePerGas: real, estimatedGas: nat)
    ensures TotalFee(b, maxFeePerGas, estimatedGas) ==
            GasFee(maxFeePerGas, if b == Arbitrum then 38000 else 21000, estimatedGas)
  {
  }

  lemma CarriesIt(tx: Native, limit: nat, fee: real, wholeAmount: bool, requested: real, balance: real)
    requires tx.gas == limit
    requires tx.value == Trunc(NewUnit(if wholeAmount then balance - Value(fee, Ether) else requested, Ether))
    ensures Carries(tx, limit, fee, wholeAmount, requested, balance)
  {
    var wei := (if wholeAmount then balance else requested) * 1000000000000000000.0;
    if Whole(wei) {
      if wholeAmount {
        WholeValueIs(wei.Floor, balance, fee);
      } else {
        TruncWhole(wei);
      }
    }
  }

  /** A transfer of the native asset, from the balance and the amount in ether; none if the amount
      left is not positive. A whole balance of whole wei is spent exactly, by the value and the
      rounded fee, and the value with all the gas may cost is within it unless the fee per gas is
      negative; else the value is what was requested. */
  method SendNative(b: Blockchain, wholeAmount: bool, requested: real, balance: real, estimate: Estimate,
                    estimatedGas: nat)
    returns (tx: Option<Native>)
    ensures var limit: nat := if b == Arbitrum then 38000 else 21000;
            var fee := GasFee(estimate.maxFeePerGas, limit, estimatedGas);
            && (tx.None? <==>
                  if wholeAmount then balance * 1000000000000000000.0 <= Round(fee) as real else requested <= 0.0)
            && (tx.Some? ==>
                  SpendsOf(tx.value, b, estimate) &&
                  Carries(tx.value, limit, fee, wholeAmount, requested, balance) &&
                  Pays(tx.value, wholeAmount, requested, balance, fee, estimate.maxFeePerGas >= 0.0))
  {
    var amount := requested;
    if wholeAmount {
      amount := balance;
    }
    var totalFee := TotalFee(b, estimate.maxFeePerGas, estimatedGas);
    UnitRoundTrip(totalFee, Ether);
    GasFeeIs(b, estimate.maxFeePerGas, estimatedGas);
    if wholeAmount {
      amount := amount - Value(totalFee, Ether);
    }
    if amount <= 0.0 {
      return None;
    }
    var amountWei := Value(NewUnit(amount, Ether), Wei);
    var native := Native(Trunc(amountWei), Trunc(estimate.maxFeePerGas), Trunc(estimate.gasTipCap), GasLimit(b));
    if estimate.maxFeePerGas >= 0.0 {
      CostWithinFee(b, estimate.maxFeePerGas, estimatedGas);
      assert native.gasFeeCap * native.gas == MaxCost(b, estimate.maxFeePerGas);
    }
    PaysWhole(native, wholeAmount, requested, balance, totalFee, estimate.maxFeePerGas >= 0.0);
    CarriesIt(native, GasLimit(b), totalFee, wholeAmount, requested, balance);
    tx := Some(native);
  }

  // ------------------------------------------------------------- the balance of the node

  /** When the explorer is down the balance comes from the node, divided to 16 decimal places. */
  function NodeBalance(wei: nat): real {
    DivRound(wei as real, 1000000000000000000.0, 10000000000000000.0)
  }

  /** Those places stop short of a wei: the balance is off by up to 50 wei, to the nearest hundred. */
  lemma NodeBalanceIs(wei: nat)
    ensures NewUnit(NodeBalance(wei), Ether) == ((wei + 50) / 100 * 100) as real
  {
    var hundreds := (wei + 50) / 100;
    var x := wei as real / 1000000000000000000.0 * 10000000000000000.0;
    assert x == wei as real / 100.0;
    assert hundreds as real <= x + 0.5 < hundreds as real + 1.0;
    assert Round(x) == hundreds;
  }

  /** The value and the cost are within the balance. */
  predicate Accepts(wei: nat, fee: real, cost: int) {
    WholeValue(NodeBalance(wei), fee) + cost <= wei
  }

  lemma AcceptsIff(wei: nat, fee: real, cost: int)
    requires cost <= Round(fee)
    ensures Accepts(wei, fee, cost) <==> wei % 100 < 50 || 100 - wei % 100 <= Round(fee) - cost
  {
    NodeBalanceIs(wei);
    WholeValueIs((wei + 50) / 100 * 100, NodeBalance(wei), fee);
    assert (wei + 50) / 100 * 100 - wei == if wei % 100 < 50 then -(wei % 100) else 100 - wei % 100;
  }

  /** So with a balance of the node the most a transfer of the whole balance can cost is within the
      balance if and only if the balance was not rounded up, because its last two digits are below
      50, or what it was rounded up by is within what the fee has over that cost. */
  lemma NodeOverspendsIff(b: Blockchain, wei: nat, maxFeePerGas: real, estimatedGas: nat)
    requires maxFeePerGas >= 0.0
    ensures var fee, cost := TotalFee(b, maxFeePerGas, estimatedGas), MaxCost(b, maxFeePerGas);
            Accepts(wei, fee, cost) <==> wei % 100 < 50 || 100 - wei % 100 <= Round(fee) - cost
  {
    CostWithinFee(b, maxFeePerGas, estimatedGas);
    AcceptsIff(wei, TotalFee(b, maxFeePerGas, estimatedGas), MaxCost(b, maxFeePerGas));
  }

  /** A fee of whole wei per gas, for no more gas than the limit, has nothing over the cost: the last
      two digits decide alone. */
  lemma NodeOverspendsExact(b: Blockchain, wei: nat, maxFeePerGas: nat, estimatedGas: nat)
    requires estimatedGas <= GasLimit(b)
    ensures Accepts(wei, TotalFee(b, maxFeePerGas as real, estimatedGas), MaxCost(b, maxFeePerGas as real)) <==>
            wei % 100 < 50
  {
    RoundInt(maxFeePerGas);
    assert TotalFee(b, maxFeePerGas as real, estimatedGas) == (maxFeePerGas * GasLimit(b)) as real;
    RoundInt(maxFeePerGas * GasLimit(b));
    AcceptsIff(wei, TotalFee(b, maxFeePerGas as real, estimatedGas), MaxCost(b, maxFeePerGas as real));
  }

  /** One ether and 50 wei at one gwei per gas are 50 wei short; at nine tenths of a wei more per gas
      the fee makes up for them. */
  lemma NodeOverspends()
    ensures !Accepts(1000000000000000050, TotalFee(Ethereum, 1000000000.0, 21000), MaxCost(Ethereum, 1000000000.0))
    ensures Accepts(1000000000000000050, TotalFee(Ethereum, 1000000000.9, 21000), MaxCost(Ethereum, 1000000000.9))
  {
    NodeOverspendsExact(Ethereum, 1000000000000000050, 1000000000, 21000);
    assert TotalFee(Ethereum, 1000000000.9, 21000) == 21000000018900 as real;
    RoundInt(21000000018900);
    assert MaxCost(Ethereum, 1000000000.9) == 21000000000000;
    AcceptsIff(1000000000000000050, 21000000018900 as real, 21000000000000);
  }
}
