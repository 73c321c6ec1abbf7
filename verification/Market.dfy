/** Bars, costs and the two fills every simulator of the worker performs. Decimals are exact reals. */
module Market {
  import opened Prelude
  import Sorting

  /** A daily bar; `ts` is its UTC timestamp in seconds. */
  datatype Bar = Bar(ts: int, open: real, high: real, low: real, close: real, volume: Option<real>, source: string)

  datatype Venue = VnEquity | CryptoSpot | MetalSpot

  datatype Action = Buy | Sell

  /** Trading costs in basis points, as the run parameters carry them. */
  datatype Costs = Costs(feeBps: real, sellTaxBps: real, slippageBps: real, financingBpsAnnual: real) {
    function FeeRate(): real { feeBps / 10000.0 }
    function TaxRate(): real { sellTaxBps / 10000.0 }
    function SlippageRate(): real { slippageBps / 10000.0 }
    function FinancingRate(): real { financingBpsAnnual / 10000.0 }

    predicate Valid() {
      feeBps >= 0.0 && sellTaxBps >= 0.0 && slippageBps >= 0.0 && financingBpsAnnual >= 0.0
    }

    /** A sale at positive price leaves positive proceeds. */
    predicate SalesPay() {
      slippageBps < 10000.0 && feeBps + sellTaxBps < 10000.0
    }
  }

  predicate Priced(bars: seq<Bar>) {
    forall i | 0 <= i < |bars| :: bars[i].open > 0.0
  }

  predicate Increasing(bars: seq<Bar>) {
    forall i, j | 0 <= i < j < |bars| :: bars[i].ts < bars[j].ts
  }

  predicate Ordered(bars: seq<Bar>) {
    forall i, j | 0 <= i < j < |bars| :: bars[i].ts <= bars[j].ts
  }

  predicate NoLater(a: Bar, b: Bar) {
    a.ts <= b.ts
  }

  /** A stable sort by timestamp. */
  function Normalize(bars: seq<Bar>): (r: seq<Bar>)
    ensures |r| == |bars|
  {
    Sorting.Sort(NoLater, bars)
  }

  /** Sorting keeps the bars, puts them in time order, and leaves ordered bars as they are. */
  lemma NormalizeSorts(bars: seq<Bar>)
    ensures Ordered(Normalize(bars))
    ensures multiset(Normalize(bars)) == multiset(bars)
    ensures Ordered(bars) ==> Normalize(bars) == bars
    ensures Priced(bars) ==> Priced(Normalize(bars))
  {
    Sorting.SortSorts(NoLater, bars);
    hide Sorting.TotalOrder, Sorting.Sort;
    forall i | 0 <= i < |bars| && Priced(bars)
      ensures Normalize(bars)[i].open > 0.0
    {
      assert Normalize(bars)[i] in bars;
    }
  }

  const PRICE_SCALE := 100000000.0
  const VOLUME_SCALE := 10000.0

  /** A bar as it is stored: prices keep eight decimals and volumes four. */
  function StoredBar(b: Bar): Bar {
    b.(open := Quantize(b.open, PRICE_SCALE), high := Quantize(b.high, PRICE_SCALE),
       low := Quantize(b.low, PRICE_SCALE), close := Quantize(b.close, PRICE_SCALE),
       volume := if b.volume.None? then None else Some(Quantize(b.volume.value, VOLUME_SCALE)))
  }

  lemma StoredBarTwice(b: Bar)
    ensures StoredBar(StoredBar(b)) == StoredBar(b)
  {
    hide Quantize;
    QuantizeTwice(b.open, PRICE_SCALE);
    QuantizeTwice(b.high, PRICE_SCALE);
    QuantizeTwice(b.low, PRICE_SCALE);
    QuantizeTwice(b.close, PRICE_SCALE);
    if b.volume.Some? {
      QuantizeTwice(b.volume.value, VOLUME_SCALE);
    }
  }

  /** Storing moves each value by at most half of its unit and leaves the rest alone. */
  lemma StoredBarIsNear(b: Bar)
    ensures var s := StoredBar(b);
      && Abs(s.open - b.open) <= 0.000000005 && Abs(s.high - b.high) <= 0.000000005
      && Abs(s.low - b.low) <= 0.000000005 && Abs(s.close - b.close) <= 0.000000005
      && s.volume.Some? == b.volume.Some? && (b.volume.Some? ==> Abs(s.volume.value - b.volume.value) <= 0.00005)
      && s.ts == b.ts && s.source == b.source
  {
    hide Quantize;
    QuantizeError(b.open, PRICE_SCALE);
    QuantizeError(b.high, PRICE_SCALE);
    QuantizeError(b.low, PRICE_SCALE);
    QuantizeError(b.close, PRICE_SCALE);
    if b.volume.Some? {
      QuantizeError(b.volume.value, VOLUME_SCALE);
    }
  }

  function BuyPrice(open: real, costs: Costs): real {
    Times(open, 1.0 + costs.SlippageRate())
  }

  function SellPrice(open: real, costs: Costs): real {
    Times(open, 1.0 - costs.SlippageRate())
  }

  /** The quantity a budget buys at `fill`, fee included. */
  function BuyQuantity(budget: real, fill: real, feeRate: real): real
    requires fill > 0.0 && feeRate >= 0.0
  {
    UnitCostPositive(fill, feeRate);
    budget / (fill * (1.0 + feeRate))
  }

  function Commission(quantity: real, fill: real, rate: real): real {
    Times(Times(quantity, fill), rate)
  }

  lemma UnitCostPositive(fill: real, feeRate: real)
    requires fill > 0.0 && feeRate >= 0.0
    ensures fill * (1.0 + feeRate) > 0.0
  {
    TimesNonNegative(fill, feeRate);
    assert fill * (1.0 + feeRate) == fill + Times(fill, feeRate);
  }

  lemma FillPricesPositive(open: real, costs: Costs)
    requires costs.Valid() && open > 0.0
    ensures BuyPrice(open, costs) > 0.0
    ensures costs.SalesPay() ==> SellPrice(open, costs) > 0.0
  {
    hide Times;
    PositiveProduct(open, 1.0 + costs.SlippageRate());
    if costs.SalesPay() {
      PositiveProduct(open, 1.0 - costs.SlippageRate());
    }
  }

  lemma PositiveProduct(a: real, b: real)
    requires a > 0.0 && b > 0.0
    ensures Times(a, b) > 0.0
  {
  }

  /** A purchase spends exactly its budget: what is bought plus the commission on it. */
  lemma BuySpendsBudget(budget: real, fill: real, feeRate: real)
    requires fill > 0.0 && feeRate >= 0.0
    ensures var q := BuyQuantity(budget, fill, feeRate);
      && Times(q, fill) + Commission(q, fill, feeRate) == budget
      && (budget > 0.0 ==> q > 0.0)
  {
    UnitCostPositive(fill, feeRate);
    var unit := fill * (1.0 + feeRate);
    var q := BuyQuantity(budget, fill, feeRate);
    TimesQuotient(budget, unit);
    assert Times(q, fill) + Commission(q, fill, feeRate) == Times(q, unit) by {
      assert q * fill + q * fill * feeRate == q * (fill * (1.0 + feeRate));
    }
    if budget > 0.0 && q <= 0.0 {
      TimesMonotone(unit, q, 0.0);
      TimesCommutative(unit, q);
      TimesOne(unit);
    }
  }

  /** A sale of a positive quantity at positive price pays out something after fee and tax. */
  lemma SalePays(quantity: real, fill: real, rate: real)
    requires quantity > 0.0 && fill > 0.0 && rate < 1.0
    ensures Times(quantity, fill) - Commission(quantity, fill, rate) > 0.0
  {
    PositiveProduct(quantity, fill);
    var gross := Times(quantity, fill);
    PositiveProduct(gross, 1.0 - rate);
    assert gross * (1.0 - rate) == gross - Times(gross, rate);
  }

  /** Slippage always costs: a purchase fills above the open and a sale below it, each by the slippage. */
  lemma SlippageCosts(open: real, costs: Costs)
    requires costs.Valid() && open > 0.0
    ensures SellPrice(open, costs) <= open <= BuyPrice(open, costs)
    ensures BuyPrice(open, costs) - open == open - SellPrice(open, costs) == Times(open, costs.slippageBps / 10000.0)
  {
    hide Times;
    TimesOne(open);
    TimesAdd(open, 1.0, costs.SlippageRate());
    TimesAdd(open, 1.0 - costs.SlippageRate(), costs.SlippageRate());
    TimesNonNegative(open, costs.SlippageRate());
  }

  /** What is left of the value of a sold quantity at the open. */
  function SaleShare(costs: Costs): real {
    Times(1.0 - costs.slippageBps / 10000.0, 1.0 - (costs.feeBps + costs.sellTaxBps) / 10000.0)
  }

  lemma SaleProceeds(quantity: real, open: real, costs: Costs)
    ensures Times(quantity, SellPrice(open, costs)) - Commission(quantity, SellPrice(open, costs), costs.FeeRate() + costs.TaxRate())
         == Times(Times(quantity, open), SaleShare(costs))
  {
    var (s, c) := (costs.slippageBps / 10000.0, (costs.feeBps + costs.sellTaxBps) / 10000.0);
    assert c == costs.FeeRate() + costs.TaxRate();
    var fill := open * (1.0 - s);
    assert quantity * fill - quantity * fill * c == quantity * fill * (1.0 - c);
    assert quantity * fill == (quantity * open) * (1.0 - s);
    assert (quantity * open) * (1.0 - s) * (1.0 - c) == (quantity * open) * ((1.0 - s) * (1.0 - c));
  }

  /** What has to be paid for each unit of value at the open. */
  function PurchaseShare(costs: Costs): real {
    Times(1.0 + costs.slippageBps / 10000.0, 1.0 + costs.feeBps / 10000.0)
  }

  /** What a purchase buys: the budget over the open plus slippage and commission. */
  lemma PurchaseQuantity(budget: real, open: real, costs: Costs)
    requires costs.Valid() && open > 0.0
    ensures BuyPrice(open, costs) > 0.0
    ensures Times(Times(BuyQuantity(budget, BuyPrice(open, costs), costs.FeeRate()), open), PurchaseShare(costs)) == budget
  {
    FillPricesPositive(open, costs);
    var (s, f) := (costs.slippageBps / 10000.0, costs.feeBps / 10000.0);
    var fill := BuyPrice(open, costs);
    UnitCostPositive(fill, f);
    var q := BuyQuantity(budget, fill, f);
    assert q * (fill * (1.0 + f)) == budget;
    assert fill * (1.0 + f) == open * ((1.0 + s) * (1.0 + f));
    assert q * (open * ((1.0 + s) * (1.0 + f))) == (q * open) * ((1.0 + s) * (1.0 + f));
  }
}
