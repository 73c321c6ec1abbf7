/** Total-return adjustment of daily bars for corporate actions (quant-worker/backtest/adjustments.py)
    and its independent audit (adjustment_audit.py, audit_vn_adjustments.py). Decimals are exact
    reals; dates are day numbers in Vietnam time. */
module Adjustments {
  import opened Prelude
  import opened Market
  import Sorting

  datatype ActionKind = CashDividend | StockDividend | Split | RightsIssue | SymbolChange

  datatype CorporateAction = CorporateAction(
    asset: string, kind: ActionKind, verified: bool, exDate: Option<int>, cash: Option<real>,
    distribution: Option<real>, subscriptionRatio: Option<real>, subscriptionPrice: Option<real>)

  datatype AdjustmentError =
    | CoverageIncomplete | InvalidScale | EmptyDataset | SeveralAssets | WrongAsset | DivisionByZero | InvalidFactor
    | NotPositive | Unverified | TermsIncomplete

  /** What one ex-date does to the prices and volumes before it. */
  datatype Factor = Factor(exDate: int, price: real, quantity: real)

  function VnDate(ts: int): int {
    (ts + 25200) / 86400
  }

  // ---------------------------------------------------------------- factors of one ex-date

  function Or0(x: Option<real>): real {
    if x.None? then 0.0 else x.value
  }

  function CashTerm(a: CorporateAction): real {
    if a.kind.CashDividend? then Or0(a.cash) else 0.0
  }

  function DistributionTerm(a: CorporateAction): real {
    if a.kind.StockDividend? || a.kind.Split? then Or0(a.distribution) else 0.0
  }

  function SubscriptionTerm(a: CorporateAction): real {
    if a.kind.RightsIssue? then Or0(a.subscriptionRatio) else 0.0
  }

  function SubscriptionValueTerm(a: CorporateAction, scale: real): real
    requires scale > 0.0
  {
    if a.kind.RightsIssue? && a.subscriptionRatio.Some? && a.subscriptionPrice.Some?
    then Times(a.subscriptionRatio.value, a.subscriptionPrice.value) / scale else 0.0
  }

  function Cash(actions: seq<CorporateAction>): real {
    if actions == [] then 0.0 else Cash(actions[..|actions| - 1]) + CashTerm(actions[|actions| - 1])
  }

  function Distribution(actions: seq<CorporateAction>): real {
    if actions == [] then 0.0 else Distribution(actions[..|actions| - 1]) + DistributionTerm(actions[|actions| - 1])
  }

  function Subscription(actions: seq<CorporateAction>): real {
    if actions == [] then 0.0 else Subscription(actions[..|actions| - 1]) + SubscriptionTerm(actions[|actions| - 1])
  }

  function SubscriptionValue(actions: seq<CorporateAction>, scale: real): real
    requires scale > 0.0
  {
    if actions == [] then 0.0
    else SubscriptionValue(actions[..|actions| - 1], scale) + SubscriptionValueTerm(actions[|actions| - 1], scale)
  }

  function SharesAfter(actions: seq<CorporateAction>): real {
    1.0 + Distribution(actions) + Subscription(actions)
  }

  /** The price at which the old and the new position are worth the same. */
  function TheoreticalExPrice(previousClose: real, actions: seq<CorporateAction>, scale: real): real
    requires scale > 0.0 && SharesAfter(actions) != 0.0
  {
    (previousClose - Cash(actions) / scale + SubscriptionValue(actions, scale)) / SharesAfter(actions)
  }

  function EventFactors(exDate: int, previousClose: real, actions: seq<CorporateAction>, scale: real): Result<Factor, AdjustmentError>
    requires scale > 0.0
  {
    var quantity := SharesAfter(actions);
    if quantity == 0.0 || previousClose == 0.0 then Err(DivisionByZero)
    else
      var price := TheoreticalExPrice(previousClose, actions, scale) / previousClose;
      if price <= 0.0 || quantity <= 0.0 then Err(InvalidFactor) else Ok(Factor(exDate, price, quantity))
  }

  // ---------------------------------------------------------------- the factors of a history

  predicate Dated(a: CorporateAction, exDate: int) {
    a.verified && a.exDate == Some(exDate)
  }

  function ActionsOn(actions: seq<CorporateAction>, exDate: int): seq<CorporateAction> {
    if actions == [] then []
    else if Dated(actions[|actions| - 1], exDate) then ActionsOn(actions[..|actions| - 1], exDate) + [actions[|actions| - 1]]
    else ActionsOn(actions[..|actions| - 1], exDate)
  }

  predicate Applies(a: CorporateAction) {
    a.verified && a.exDate.Some?
  }

  /** The ex-dates of the verified actions, ascending. */
  function ExDates(actions: seq<CorporateAction>): seq<int> {
    if actions == [] then []
    else if Applies(actions[|actions| - 1]) then InsertAscending(ExDates(actions[..|actions| - 1]), actions[|actions| - 1].exDate.value)
    else ExDates(actions[..|actions| - 1])
  }

  lemma {:induction false} ExDatesOfActions(actions: seq<CorporateAction>)
    ensures Ascending(ExDates(actions))
    ensures forall d :: d in ExDates(actions) <==> ActionsOn(actions, d) != []
  {
    if actions != [] {
      ExDatesOfActions(actions[..|actions| - 1]);
      if Applies(actions[|actions| - 1]) {
        InsertAscendingKeeps(ExDates(actions[..|actions| - 1]), actions[|actions| - 1].exDate.value);
      }
    }
  }

  /** The last bar before a date. */
  function LastBefore(bars: seq<Bar>, date: int): Option<Bar> {
    if bars == [] then None
    else if VnDate(bars[|bars| - 1].ts) < date then Some(bars[|bars| - 1])
    else LastBefore(bars[..|bars| - 1], date)
  }

  /** The factors of the given ex-dates that have a bar before them; the first failure wins. */
  function Factors(bars: seq<Bar>, actions: seq<CorporateAction>, dates: seq<int>, scale: real): Result<seq<Factor>, AdjustmentError>
    requires scale > 0.0
  {
    if dates == [] then Ok([])
    else
      var earlier := Factors(bars, actions, dates[..|dates| - 1], scale);
      var date := dates[|dates| - 1];
      var previous := LastBefore(bars, date);
      if earlier.Err? || previous.None? then earlier
      else
        var factor := EventFactors(date, previous.value.close, ActionsOn(actions, date), scale);
        if factor.Err? then Err(factor.error) else Ok(earlier.value + [factor.value])
  }

  function PriceProduct(factors: seq<Factor>, date: int): real {
    if factors == [] then 1.0
    else
      var p := PriceProduct(factors[..|factors| - 1], date);
      if date < factors[|factors| - 1].exDate then Times(p, factors[|factors| - 1].price) else p
  }

  function QuantityProduct(factors: seq<Factor>, date: int): real {
    if factors == [] then 1.0
    else
      var q := QuantityProduct(factors[..|factors| - 1], date);
      if date < factors[|factors| - 1].exDate then Times(q, factors[|factors| - 1].quantity) else q
  }

  function AdjustedBar(bar: Bar, factors: seq<Factor>): Bar {
    var p := PriceProduct(factors, VnDate(bar.ts));
    var q := QuantityProduct(factors, VnDate(bar.ts));
    Bar(bar.ts, Times(bar.open, p), Times(bar.high, p), Times(bar.low, p), Times(bar.close, p),
        if bar.volume.None? then None else Some(Times(bar.volume.value, q)), bar.source + ":total-return-adjusted")
  }

  function AdjustedBars(bars: seq<Bar>, factors: seq<Factor>): (r: seq<Bar>)
    ensures |r| == |bars| && forall i :: 0 <= i < |r| ==> r[i] == AdjustedBar(bars[i], factors)
  {
    seq(|bars|, i requires 0 <= i < |bars| => AdjustedBar(bars[i], factors))
  }

  datatype Adjustment = Adjustment(bars: seq<Bar>, applied: nat, skipped: nat)

  function AppliedCount(actions: seq<CorporateAction>): (n: nat)
    ensures n <= |actions|
  {
    if actions == [] then 0 else AppliedCount(actions[..|actions| - 1]) + (if Applies(actions[|actions| - 1]) then 1 else 0)
  }

  /** The outcome of adjusting one asset's bars. */
  function AdjustmentOf(asset: string, rows: seq<Bar>, actions: seq<CorporateAction>, complete: bool, scale: real):
    Result<Adjustment, AdjustmentError>
  {
    if !complete then Err(CoverageIncomplete)
    else if scale <= 0.0 then Err(InvalidScale)
    else if rows == [] then Err(EmptyDataset)
    else if exists a | a in actions :: a.asset != asset then Err(WrongAsset)
    else
      var bars := Normalize(rows);
      var factors := Factors(bars, actions, ExDates(actions), scale);
      if factors.Err? then Err(factors.error)
      else Ok(Adjustment(AdjustedBars(bars, factors.value), AppliedCount(actions), |actions| - AppliedCount(actions)))
  }

  function Grouped(byDate: map<int, seq<CorporateAction>>, date: int): seq<CorporateAction> {
    if date in byDate then byDate[date] else []
  }

  lemma TakeAction(actions: seq<CorporateAction>, i: nat)
    requires i < |actions|
    ensures actions[..i + 1][..i] == actions[..i] && actions[..i + 1][i] == actions[i]
  {
  }

  /** A failing ex-date fails every list of dates that starts with the dates up to it. */
  lemma {:induction false} FactorsFail(bars: seq<Bar>, actions: seq<CorporateAction>, dates: seq<int>, n: nat, scale: real)
    requires scale > 0.0 && n <= |dates| && Factors(bars, actions, dates[..n], scale).Err?
    ensures Factors(bars, actions, dates, scale) == Factors(bars, actions, dates[..n], scale)
  {
    if n == |dates| {
      assert dates[..n] == dates;
    } else {
      assert dates[..|dates| - 1][..n] == dates[..n];
      FactorsFail(bars, actions, dates[..|dates| - 1], n, scale);
    }
  }

  method AdjustRow(bar: Bar, factors: seq<Factor>) returns (adjusted: Bar)
    ensures adjusted == AdjustedBar(bar, factors)
  {
    hide Times;
    var date := VnDate(bar.ts);
    var price, quantity := 1.0, 1.0;
    for j := 0 to |factors|
      invariant price == PriceProduct(factors[..j], date) && quantity == QuantityProduct(factors[..j], date)
    {
      assert factors[..j + 1][..j] == factors[..j];
      if date < factors[j].exDate {
        price := Times(price, factors[j].price);
        quantity := Times(quantity, factors[j].quantity);
      }
    }
    assert factors[..|factors|] == factors;
    adjusted := Bar(bar.ts, Times(bar.open, price), Times(bar.high, price), Times(bar.low, price), Times(bar.close, price),
      if bar.volume.None? then None else Some(Times(bar.volume.value, quantity)), bar.source + ":total-return-adjusted");
  }

  method GroupByDate(asset: string, actions: seq<CorporateAction>)
    returns (ok: bool, dates: seq<int>, byDate: map<int, seq<CorporateAction>>, skipped: nat)
    ensures ok <==> forall a :: a in actions ==> a.asset == asset
    ensures ok ==> dates == ExDates(actions) && skipped == |actions| - AppliedCount(actions)
    ensures ok ==> forall d :: Grouped(byDate, d) == ActionsOn(actions, d)
  {
    ok, dates, byDate, skipped := true, [], map[], 0;
    for i := 0 to |actions|
      invariant ok && forall a :: a in actions[..i] ==> a.asset == asset
      invariant dates == ExDates(actions[..i]) && skipped == i - AppliedCount(actions[..i])
      invariant forall d :: Grouped(byDate, d) == ActionsOn(actions[..i], d)
    {
      TakeAction(actions, i);
      var item := actions[i];
      if item.asset != asset {
        ok := false;
        return;
      }
      ghost var before := byDate;
      if !Applies(item) {
        skipped := skipped + 1;
      } else {
        dates := InsertAscending(dates, item.exDate.value);
        byDate := byDate[item.exDate.value := Grouped(byDate, item.exDate.value) + [item]];
      }
      forall d
        ensures Grouped(byDate, d) == ActionsOn(actions[..i + 1], d)
      {
        assert Grouped(before, d) == ActionsOn(actions[..i], d);
      }
    }
    assert actions[..|actions|] == actions;
  }

  /** The factors of all ex-dates, each from the close of the last bar before it. */
  method CollectFactors(bars: seq<Bar>, actions: seq<CorporateAction>, dates: seq<int>, byDate: map<int, seq<CorporateAction>>, scale: real)
    returns (r: Result<seq<Factor>, AdjustmentError>)
    requires scale > 0.0 && forall d :: Grouped(byDate, d) == ActionsOn(actions, d)
    ensures r == Factors(bars, actions, dates, scale)
  {
    hide Times, EventFactors, ActionsOn, LastBefore, Grouped;
    var factors: seq<Factor> := [];
    for i := 0 to |dates|
      invariant Factors(bars, actions, dates[..i], scale) == Ok(factors)
    {
      assert dates[..i + 1][..i] == dates[..i];
      var previous := LastBefore(bars, dates[i]);
      if previous.Some? {
        var factor := EventFactors(dates[i], previous.value.close, Grouped(byDate, dates[i]), scale);
        if factor.Err? {
          FactorsFail(bars, actions, dates, i + 1, scale);
          return Err(factor.error);
        }
        factors := factors + [factor.value];
      }
    }
    assert dates[..|dates|] == dates;
    r := Ok(factors);
  }

  method AdjustRows(bars: seq<Bar>, factors: seq<Factor>) returns (adjusted: seq<Bar>)
    ensures adjusted == AdjustedBars(bars, factors)
  {
    hide AdjustedBar;
    adjusted := [];
    for i := 0 to |bars|
      invariant |adjusted| == i && forall k :: 0 <= k < i ==> adjusted[k] == AdjustedBar(bars[k], factors)
    {
      var bar := AdjustRow(bars[i], factors);
      adjusted := adjusted + [bar];
    }
  }

  // ---------------------------------------------------------------- bars with their assets

  datatype AssetBar = AssetBar(asset: string, bar: Bar)

  predicate NotAfter(a: AssetBar, b: AssetBar) {
    a.bar.ts < b.bar.ts || (a.bar.ts == b.bar.ts && Sorting.StringLeq(a.asset, b.asset))
  }

  /** Sorted by time, then by asset. */
  function Sorted(rows: seq<AssetBar>): (r: seq<AssetBar>)
    ensures |r| == |rows|
  {
    Sorting.Sort(NotAfter, rows)
  }

  function BarsOf(rows: seq<AssetBar>): (r: seq<Bar>)
    ensures |r| == |rows| && forall i :: 0 <= i < |r| ==> r[i] == rows[i].bar
  {
    seq(|rows|, i requires 0 <= i < |rows| => rows[i].bar)
  }

  /** The adjustment as called: only the first and the last row are checked for their asset. */
  function TotalReturn(rows: seq<AssetBar>, actions: seq<CorporateAction>, complete: bool, scale: real): Result<Adjustment, AdjustmentError> {
    if !complete then Err(CoverageIncomplete)
    else if scale <= 0.0 then Err(InvalidScale)
    else if rows == [] then Err(EmptyDataset)
    else if Sorted(rows)[0].asset != Sorted(rows)[|rows| - 1].asset then Err(SeveralAssets)
    else AdjustmentOf(Sorted(rows)[0].asset, BarsOf(Sorted(rows)), actions, complete, scale)
  }

  method AdjustTotalReturnBars(rows: seq<AssetBar>, actions: seq<CorporateAction>, complete: bool, scale: real)
    returns (r: Result<Adjustment, AdjustmentError>)
    ensures r == TotalReturn(rows, actions, complete, scale)
  {
    hide AdjustedBars, ActionsOn, ExDates, Factors, Normalize, AppliedCount, Grouped, Sorted, NotAfter;
    if !complete {
      return Err(CoverageIncomplete);
    }
    if scale <= 0.0 {
      return Err(InvalidScale);
    }
    var normalized := Sorted(rows);
    if normalized == [] {
      return Err(EmptyDataset);
    }
    var asset := normalized[0].asset;
    if asset != normalized[|normalized| - 1].asset {
      return Err(SeveralAssets);
    }
    var bars := BarsOf(normalized);
    SortedInTime(rows);
    NormalizeSorts(bars);
    var ok, dates, byDate, skipped := GroupByDate(asset, actions);
    if !ok {
      return Err(WrongAsset);
    }
    var factors := CollectFactors(bars, actions, dates, byDate, scale);
    if factors.Err? {
      return Err(factors.error);
    }
    var adjusted := AdjustRows(bars, factors.value);
    r := Ok(Adjustment(adjusted, |actions| - skipped, skipped));
  }

  lemma TimeAndAssetOrder()
    ensures Sorting.TotalOrder(NotAfter)
  {
    forall a: AssetBar, b: AssetBar
      ensures NotAfter(a, b) || NotAfter(b, a)
    {
      Sorting.StringLeqTotal(a.asset, b.asset);
    }
    forall a: AssetBar, b: AssetBar, c: AssetBar | NotAfter(a, b) && NotAfter(b, c)
      ensures NotAfter(a, c)
    {
      if a.bar.ts == b.bar.ts == c.bar.ts {
        Sorting.StringLeqTransitive(a.asset, b.asset, c.asset);
      }
    }
  }

  lemma SortedInTime(rows: seq<AssetBar>)
    ensures Ordered(BarsOf(Sorted(rows)))
  {
    TimeAndAssetOrder();
    Sorting.SortSorts(NotAfter, rows);
    hide Sorting.TotalOrder, Sorted;
    forall i, j | 0 <= i < j < |rows|
      ensures BarsOf(Sorted(rows))[i].ts <= BarsOf(Sorted(rows))[j].ts
    {
      assert NotAfter(Sorted(rows)[i], Sorted(rows)[j]);
    }
  }

  lemma {:induction false} InsertOneAsset(rows: seq<AssetBar>, row: AssetBar)
    requires forall other :: other in rows ==> other.asset == row.asset
    ensures BarsOf(Sorting.Insert(NotAfter, rows, row)) == Sorting.Insert(NoLater, BarsOf(rows), row.bar)
  {
    Sorting.StringLeqTotal(row.asset, row.asset);
    if rows != [] {
      var (init, last) := (rows[..|rows| - 1], rows[|rows| - 1]);
      assert BarsOf(rows)[..|rows| - 1] == BarsOf(init);
      if !NotAfter(last, row) {
        InsertOneAsset(init, row);
      }
    }
  }

  /** For the bars of one asset this is the adjustment of that asset's bars. */
  lemma {:induction false} OneAsset(rows: seq<AssetBar>, asset: string)
    requires forall row :: row in rows ==> row.asset == asset
    ensures BarsOf(Sorted(rows)) == Normalize(BarsOf(rows))
    ensures forall row :: row in Sorted(rows) ==> row.asset == asset
  {
    if rows != [] {
      var (init, last) := (rows[..|rows| - 1], rows[|rows| - 1]);
      assert BarsOf(rows)[..|rows| - 1] == BarsOf(init);
      OneAsset(init, asset);
      InsertOneAsset(Sorted(init), last);
      Sorting.InsertKeeps(NotAfter, Sorted(init), last);
    }
  }

  lemma TotalReturnOfOneAsset(rows: seq<AssetBar>, actions: seq<CorporateAction>, complete: bool, scale: real, asset: string)
    requires forall row :: row in rows ==> row.asset == asset
    ensures TotalReturn(rows, actions, complete, scale) == AdjustmentOf(asset, BarsOf(rows), actions, complete, scale)
  {
    OneAsset(rows, asset);
    NormalizeSorts(BarsOf(rows));
    NormalizeSorts(Normalize(BarsOf(rows)));
    SameNormalized(asset, Normalize(BarsOf(rows)), BarsOf(rows), actions, complete, scale);
    if rows != [] {
      assert Sorted(rows)[0] in Sorted(rows) && Sorted(rows)[|rows| - 1] in Sorted(rows);
    }
    hide Sorted, Normalize, Ordered;
    hide AdjustmentOf;
    NoRows(asset, actions, complete, scale);
  }

  lemma NoRows(asset: string, actions: seq<CorporateAction>, complete: bool, scale: real)
    ensures AdjustmentOf(asset, [], actions, complete, scale)
         == Err(if !complete then CoverageIncomplete else if scale <= 0.0 then InvalidScale else EmptyDataset)
    ensures forall rows :: !complete ==> AdjustmentOf(asset, rows, actions, complete, scale) == Err(CoverageIncomplete)
    ensures forall rows :: complete && scale <= 0.0 ==> AdjustmentOf(asset, rows, actions, complete, scale) == Err(InvalidScale)
  {
  }

  lemma SameNormalized(asset: string, rows: seq<Bar>, others: seq<Bar>, actions: seq<CorporateAction>, complete: bool, scale: real)
    requires |rows| == |others| && Normalize(rows) == Normalize(others)
    ensures AdjustmentOf(asset, rows, actions, complete, scale) == AdjustmentOf(asset, others, actions, complete, scale)
  {
    hide Normalize, Factors, ExDates, AppliedCount, AdjustedBars;
  }

  // ---------------------------------------------------------------- what the factors are

  /** A factor computed from the last bar before its ex-date. */
  ghost predicate Sound(f: Factor, bars: seq<Bar>, actions: seq<CorporateAction>, dates: seq<int>, scale: real)
    requires scale > 0.0
  {
    && f.price > 0.0 && f.quantity > 0.0 && f.exDate in dates && LastBefore(bars, f.exDate).Some?
    && EventFactors(f.exDate, LastBefore(bars, f.exDate).value.close, ActionsOn(actions, f.exDate), scale) == Ok(f)
  }

  predicate Covers(factors: seq<Factor>, date: int) {
    exists k | 0 <= k < |factors| :: factors[k].exDate == date
  }

  ghost predicate Rising(factors: seq<Factor>) {
    forall j, k :: 0 <= j < k < |factors| ==> factors[j].exDate < factors[k].exDate
  }

  /** The factors are sound, ascending in date, and cover the ex-dates with a bar before them. */
  ghost predicate FactorsOf(factors: seq<Factor>, bars: seq<Bar>, actions: seq<CorporateAction>, dates: seq<int>, scale: real)
    requires scale > 0.0
  {
    && (forall k :: 0 <= k < |factors| ==> Sound(factors[k], bars, actions, dates, scale))
    && Rising(factors)
    && (forall d :: d in dates && LastBefore(bars, d).Some? ==> Covers(factors, d))
  }

  lemma EventFactorsOk(exDate: int, previousClose: real, actions: seq<CorporateAction>, scale: real)
    requires scale > 0.0
    ensures var f := EventFactors(exDate, previousClose, actions, scale);
      f.Ok? ==> f.value.exDate == exDate && f.value.price > 0.0 && f.value.quantity > 0.0
  {
  }

  lemma SoundForMore(f: Factor, bars: seq<Bar>, actions: seq<CorporateAction>, dates: seq<int>, more: seq<int>, scale: real)
    requires scale > 0.0 && Sound(f, bars, actions, dates, scale) && forall d :: d in dates ==> d in more
    ensures Sound(f, bars, actions, more, scale)
  {
  }

  lemma {:induction false} FactorsAreOf(bars: seq<Bar>, actions: seq<CorporateAction>, dates: seq<int>, scale: real)
    requires scale > 0.0 && Ascending(dates) && Factors(bars, actions, dates, scale).Ok?
    ensures FactorsOf(Factors(bars, actions, dates, scale).value, bars, actions, dates, scale)
  {
    if dates != [] {
      var (init, date) := (dates[..|dates| - 1], dates[|dates| - 1]);
      FactorsAreOf(bars, actions, init, scale);
      var earlier := Factors(bars, actions, init, scale).value;
      var factors := Factors(bars, actions, dates, scale).value;
      assert dates == init + [date];
      var previous := LastBefore(bars, date);
      hide LastBefore, ActionsOn, EventFactors;
      if previous.Some? {
        EventFactorsOk(date, previous.value.close, ActionsOn(actions, date), scale);
        FactorsSnoc(earlier, factors[|earlier|], bars, actions, init, date, scale);
      } else {
        FactorsSkip(earlier, bars, actions, init, date, scale);
      }
    }
  }

  lemma FactorsSkip(earlier: seq<Factor>, bars: seq<Bar>, actions: seq<CorporateAction>, init: seq<int>, date: int, scale: real)
    requires scale > 0.0 && FactorsOf(earlier, bars, actions, init, scale) && LastBefore(bars, date).None?
    ensures FactorsOf(earlier, bars, actions, init + [date], scale)
  {
    hide Sound, Covers, Rising, LastBefore;
    forall k | 0 <= k < |earlier|
      ensures Sound(earlier[k], bars, actions, init + [date], scale)
    {
      SoundForMore(earlier[k], bars, actions, init, init + [date], scale);
    }
  }

  lemma FactorsSnoc(earlier: seq<Factor>, f: Factor, bars: seq<Bar>, actions: seq<CorporateAction>, init: seq<int>, date: int, scale: real)
    requires scale > 0.0 && FactorsOf(earlier, bars, actions, init, scale) && Ascending(init + [date])
    requires f.exDate == date && Sound(f, bars, actions, init + [date], scale)
    ensures FactorsOf(earlier + [f], bars, actions, init + [date], scale)
  {
    var factors, dates := earlier + [f], init + [date];
    hide LastBefore, EventFactors, ActionsOn;
    forall k | 0 <= k < |factors|
      ensures Sound(factors[k], bars, actions, dates, scale)
    {
      if k < |earlier| {
        SoundForMore(earlier[k], bars, actions, init, dates, scale);
      }
    }
    RisingSnoc(earlier, f, init);
    forall d | d in dates && LastBefore(bars, d).Some?
      ensures Covers(factors, d)
    {
      if d == date {
        assert factors[|earlier|].exDate == d;
      } else {
        var k :| 0 <= k < |earlier| && earlier[k].exDate == d;
        assert factors[k].exDate == d;
      }
    }
  }

  lemma RisingSnoc(earlier: seq<Factor>, f: Factor, init: seq<int>)
    requires Rising(earlier) && Ascending(init + [f.exDate]) && forall k :: 0 <= k < |earlier| ==> earlier[k].exDate in init
    ensures Rising(earlier + [f])
  {
    forall d | d in init
      ensures d < f.exDate
    {
      var i :| 0 <= i < |init| && init[i] == d;
      assert (init + [f.exDate])[i] < (init + [f.exDate])[|init|];
    }
  }

  ghost predicate Positive(factors: seq<Factor>) {
    forall k :: 0 <= k < |factors| ==> factors[k].price > 0.0 && factors[k].quantity > 0.0
  }

  /** The product over the ex-dates after `lo` and up to `hi`. */
  function PriceBetween(factors: seq<Factor>, lo: int, hi: int): real {
    if factors == [] then 1.0
    else
      var p := PriceBetween(factors[..|factors| - 1], lo, hi);
      if lo < factors[|factors| - 1].exDate <= hi then Times(p, factors[|factors| - 1].price) else p
  }

  function QuantityBetween(factors: seq<Factor>, lo: int, hi: int): real {
    if factors == [] then 1.0
    else
      var q := QuantityBetween(factors[..|factors| - 1], lo, hi);
      if lo < factors[|factors| - 1].exDate <= hi then Times(q, factors[|factors| - 1].quantity) else q
  }

  lemma {:induction false} ProductsSplit(factors: seq<Factor>, lo: int, hi: int)
    requires lo <= hi
    ensures PriceProduct(factors, lo) == Times(PriceProduct(factors, hi), PriceBetween(factors, lo, hi))
    ensures QuantityProduct(factors, lo) == Times(QuantityProduct(factors, hi), QuantityBetween(factors, lo, hi))
  {
    hide Times;
    TimesOne(1.0);
    if factors != [] {
      var (init, f) := (factors[..|factors| - 1], factors[|factors| - 1]);
      ProductsSplit(init, lo, hi);
      Regroup(PriceProduct(init, hi), PriceBetween(init, lo, hi), f.price);
      Regroup(QuantityProduct(init, hi), QuantityBetween(init, lo, hi), f.quantity);
    }
  }

  lemma Regroup(a: real, b: real, c: real)
    ensures Times(Times(a, b), c) == Times(Times(a, c), b) == Times(a, Times(b, c))
  {
  }

  lemma {:induction false} ProductsPositive(factors: seq<Factor>, date: int)
    requires Positive(factors)
    ensures PriceProduct(factors, date) > 0.0 && QuantityProduct(factors, date) > 0.0
  {
    hide Times;
    if factors != [] {
      var (init, f) := (factors[..|factors| - 1], factors[|factors| - 1]);
      ProductsPositive(init, date);
      PositiveProduct(PriceProduct(init, date), f.price);
      PositiveProduct(QuantityProduct(init, date), f.quantity);
    }
  }

  lemma {:induction false} NothingBetween(factors: seq<Factor>, lo: int, hi: int)
    requires forall k :: 0 <= k < |factors| ==> !(lo < factors[k].exDate <= hi)
    ensures PriceBetween(factors, lo, hi) == 1.0 && QuantityBetween(factors, lo, hi) == 1.0
  {
    if factors != [] {
      NothingBetween(factors[..|factors| - 1], lo, hi);
    }
  }

  lemma {:induction false} OneBetween(factors: seq<Factor>, lo: int, hi: int, k: nat)
    requires k < |factors| && lo < factors[k].exDate <= hi
    requires forall j :: 0 <= j < |factors| && j != k ==> !(lo < factors[j].exDate <= hi)
    ensures PriceBetween(factors, lo, hi) == factors[k].price
  {
    hide Times;
    var init := factors[..|factors| - 1];
    if k == |init| {
      NothingBetween(init, lo, hi);
      TimesOne(factors[k].price);
    } else {
      OneBetween(init, lo, hi, k);
    }
  }

  // ---------------------------------------------------------------- adjusted bars

  predicate WellFormed(bar: Bar) {
    && 0.0 < bar.low && bar.low <= bar.open && bar.low <= bar.close && bar.open <= bar.high && bar.close <= bar.high
    && (bar.volume.Some? ==> bar.volume.value >= 0.0)
  }

  /** Adjustment keeps positive prices, the order of open, high, low and close, and volumes
      non-negative. */
  lemma AdjustedShape(bar: Bar, factors: seq<Factor>)
    requires Positive(factors) && WellFormed(bar)
    ensures WellFormed(AdjustedBar(bar, factors)) && AdjustedBar(bar, factors).ts == bar.ts
  {
    hide Times;
    var date := VnDate(bar.ts);
    ProductsPositive(factors, date);
    var p := PriceProduct(factors, date);
    PositiveProduct(bar.low, p);
    Scaled(p, bar.low, bar.open);
    Scaled(p, bar.low, bar.close);
    Scaled(p, bar.open, bar.high);
    Scaled(p, bar.close, bar.high);
    if bar.volume.Some? {
      TimesNonNegative(bar.volume.value, QuantityProduct(factors, date));
    }
  }

  lemma Scaled(k: real, x: real, y: real)
    requires k >= 0.0 && x <= y
    ensures Times(x, k) <= Times(y, k)
  {
    TimesMonotone(k, x, y);
    TimesCommutative(k, x);
    TimesCommutative(k, y);
  }

  lemma {:induction false} NoLaterFactor(factors: seq<Factor>, date: int)
    requires forall k :: 0 <= k < |factors| ==> factors[k].exDate <= date
    ensures PriceProduct(factors, date) == 1.0 && QuantityProduct(factors, date) == 1.0
  {
    if factors != [] {
      NoLaterFactor(factors[..|factors| - 1], date);
    }
  }

  /** What an adjustment consists of. */
  lemma AdjustmentParts(asset: string, rows: seq<Bar>, actions: seq<CorporateAction>, scale: real)
    requires AdjustmentOf(asset, rows, actions, true, scale).Ok?
    ensures scale > 0.0
    ensures var factors := Factors(Normalize(rows), actions, ExDates(actions), scale);
      && factors.Ok? && FactorsOf(factors.value, Normalize(rows), actions, ExDates(actions), scale)
      && AdjustmentOf(asset, rows, actions, true, scale).value.bars == AdjustedBars(Normalize(rows), factors.value)
  {
    ExDatesOfActions(actions);
    hide FactorsOf, Factors, AdjustedBars, Normalize;
    FactorsAreOf(Normalize(rows), actions, ExDates(actions), scale);
  }

  /** Well-formed input bars give well-formed output bars, in the same time order; bars on or after
      the last ex-date change only their source. */
  lemma AdjustmentKeepsShape(asset: string, rows: seq<Bar>, actions: seq<CorporateAction>, scale: real, i: nat)
    requires AdjustmentOf(asset, rows, actions, true, scale).Ok? && i < |rows|
    ensures |AdjustmentOf(asset, rows, actions, true, scale).value.bars| == |rows|
    ensures var (bar, after) := (Normalize(rows)[i], AdjustmentOf(asset, rows, actions, true, scale).value.bars[i]);
      && after.ts == bar.ts
      && (WellFormed(bar) ==> WellFormed(after))
      && ((forall d :: d in ExDates(actions) ==> d <= VnDate(bar.ts)) ==>
            after == bar.(source := bar.source + ":total-return-adjusted"))
  {
    var bar := Normalize(rows)[i];
    AdjustmentParts(asset, rows, actions, scale);
    var factors := Factors(Normalize(rows), actions, ExDates(actions), scale).value;
    assert Positive(factors);
    assert forall k :: 0 <= k < |factors| ==> factors[k].exDate in ExDates(actions);
    hide AdjustmentOf, FactorsOf, Factors, ExDates, Normalize, WellFormed, Times;
    if WellFormed(bar) {
      AdjustedShape(bar, factors);
    }
    if forall d :: d in ExDates(actions) ==> d <= VnDate(bar.ts) {
      NoLaterFactor(factors, VnDate(bar.ts));
      TimesOne(bar.open);
      TimesOne(bar.high);
      TimesOne(bar.low);
      TimesOne(bar.close);
      if bar.volume.Some? {
        TimesOne(bar.volume.value);
      }
    }
  }

  // ---------------------------------------------------------------- returns

  lemma {:induction false} LastBeforeOrdered(bars: seq<Bar>, i: nat, date: int)
    requires Ordered(bars) && i + 1 < |bars| && VnDate(bars[i].ts) < date <= VnDate(bars[i + 1].ts)
    ensures LastBefore(bars, date) == Some(bars[i])
  {
    if i + 2 < |bars| {
      LastBeforeOrdered(bars[..|bars| - 1], i, date);
    }
  }

  /** An adjusted close against the next one's cumulative factor. */
  lemma CloseSplit(bars: seq<Bar>, factors: seq<Factor>, i: nat)
    requires Ordered(bars) && i + 1 < |bars|
    ensures var (d0, d1) := (VnDate(bars[i].ts), VnDate(bars[i + 1].ts));
      AdjustedBar(bars[i], factors).close == Times(PriceProduct(factors, d1), Times(bars[i].close, PriceBetween(factors, d0, d1)))
  {
    var (d0, d1) := (VnDate(bars[i].ts), VnDate(bars[i + 1].ts));
    assert d0 <= d1;
    hide Times, PriceProduct, PriceBetween, VnDate;
    ProductsSplit(factors, d0, d1);
    Exchange(bars[i].close, PriceProduct(factors, d1), PriceBetween(factors, d0, d1));
  }

  lemma Exchange(a: real, b: real, c: real)
    ensures Times(a, Times(b, c)) == Times(b, Times(a, c))
  {
  }

  /** The ratio of two multiples of the same positive number. */
  lemma RatioOfMultiples(k: real, x: real, y: real)
    requires k > 0.0 && y > 0.0
    ensures Times(k, y) != 0.0 && Times(k, x) / Times(k, y) == x / y
  {
    PositiveProduct(k, y);
    assert Times(k, x) == Times(k, y) * (x / y) by {
      assert y * (x / y) == x;
      assert k * y * (x / y) == k * (y * (x / y));
    }
  }

  predicate PricedCloses(bars: seq<Bar>) {
    forall i | 0 <= i < |bars| :: bars[i].close > 0.0
  }

  /** The adjusted return over a gap whose factors turn the previous close into `base`. */
  lemma GapReturn(bars: seq<Bar>, factors: seq<Factor>, i: nat, base: real)
    requires Ordered(bars) && i + 1 < |bars| && Positive(factors) && base > 0.0
    requires Times(bars[i].close, PriceBetween(factors, VnDate(bars[i].ts), VnDate(bars[i + 1].ts))) == base
    ensures AdjustedBar(bars[i], factors).close != 0.0
    ensures AdjustedBar(bars[i + 1], factors).close / AdjustedBar(bars[i], factors).close == bars[i + 1].close / base
  {
    var d1 := VnDate(bars[i + 1].ts);
    assert AdjustedBar(bars[i + 1], factors).close == Times(bars[i + 1].close, PriceProduct(factors, d1));
    hide *;
    CloseSplit(bars, factors, i);
    ProductsPositive(factors, d1);
    TimesCommutative(bars[i + 1].close, PriceProduct(factors, d1));
    RatioOfMultiples(PriceProduct(factors, d1), bars[i + 1].close, base);
  }

  lemma PricedAt(bars: seq<Bar>, i: nat)
    requires PricedCloses(bars) && i < |bars|
    ensures bars[i].close > 0.0
  {
  }

  /** Between two consecutive bars with no ex-date after the first and up to the second, the
      adjusted return is the raw return. */
  lemma PlainReturn(asset: string, rows: seq<Bar>, actions: seq<CorporateAction>, scale: real, i: nat)
    requires AdjustmentOf(asset, rows, actions, true, scale).Ok? && i + 1 < |rows| && PricedCloses(Normalize(rows))
    requires forall d :: d in ExDates(actions) ==> !(VnDate(Normalize(rows)[i].ts) < d <= VnDate(Normalize(rows)[i + 1].ts))
    ensures var (raw, adjusted) := (Normalize(rows), AdjustmentOf(asset, rows, actions, true, scale).value.bars);
      && |adjusted| == |raw| && adjusted[i].close != 0.0
      && adjusted[i + 1].close / adjusted[i].close == raw[i + 1].close / raw[i].close
  {
    hide *;
    AdjustmentParts(asset, rows, actions, scale);
    NormalizeSorts(rows);
    var raw := Normalize(rows);
    var factors := Factors(raw, actions, ExDates(actions), scale).value;
    PositiveFactors(factors, raw, actions, ExDates(actions), scale);
    PricedAt(raw, i);
    NothingBetween(factors, VnDate(raw[i].ts), VnDate(raw[i + 1].ts));
    TimesOne(raw[i].close);
    GapReturn(raw, factors, i, raw[i].close);
  }

  lemma PriceFactorTimesClose(exDate: int, previousClose: real, actions: seq<CorporateAction>, scale: real)
    requires scale > 0.0 && previousClose > 0.0 && EventFactors(exDate, previousClose, actions, scale).Ok?
    ensures SharesAfter(actions) != 0.0
    ensures var theoretical := TheoreticalExPrice(previousClose, actions, scale);
      && Times(previousClose, EventFactors(exDate, previousClose, actions, scale).value.price) == theoretical
      && theoretical > 0.0
  {
    hide TheoreticalExPrice, SharesAfter, Times;
    var theoretical := TheoreticalExPrice(previousClose, actions, scale);
    TimesQuotient(theoretical, previousClose);
    PositiveProduct(previousClose, theoretical / previousClose);
  }

  /** Across exactly one ex-date, the adjusted return is the close over the theoretical ex-price of
      the previous close. */
  lemma ExDateReturn(asset: string, rows: seq<Bar>, actions: seq<CorporateAction>, scale: real, i: nat, exDate: int)
    requires AdjustmentOf(asset, rows, actions, true, scale).Ok? && scale > 0.0 && i + 1 < |rows| && PricedCloses(Normalize(rows))
    requires exDate in ExDates(actions) && VnDate(Normalize(rows)[i].ts) < exDate <= VnDate(Normalize(rows)[i + 1].ts)
    requires forall d :: d in ExDates(actions) && d != exDate ==>
        !(VnDate(Normalize(rows)[i].ts) < d <= VnDate(Normalize(rows)[i + 1].ts))
    ensures SharesAfter(ActionsOn(actions, exDate)) != 0.0
    ensures var (raw, adjusted) := (Normalize(rows), AdjustmentOf(asset, rows, actions, true, scale).value.bars);
      var theoretical := TheoreticalExPrice(raw[i].close, ActionsOn(actions, exDate), scale);
      && |adjusted| == |raw| && adjusted[i].close != 0.0 && theoretical > 0.0
      && adjusted[i + 1].close / adjusted[i].close == raw[i + 1].close / theoretical
  {
    hide *;
    AdjustmentParts(asset, rows, actions, scale);
    NormalizeSorts(rows);
    var raw := Normalize(rows);
    var factors := Factors(raw, actions, ExDates(actions), scale).value;
    LastBeforeOrdered(raw, i, exDate);
    PositiveFactors(factors, raw, actions, ExDates(actions), scale);
    PricedAt(raw, i);
    var k := FactorAt(factors, raw, actions, scale, exDate);
    OneBetween(factors, VnDate(raw[i].ts), VnDate(raw[i + 1].ts), k);
    PriceFactorTimesClose(exDate, raw[i].close, ActionsOn(actions, exDate), scale);
    GapReturn(raw, factors, i, TheoreticalExPrice(raw[i].close, ActionsOn(actions, exDate), scale));
  }

  lemma PositiveFactors(factors: seq<Factor>, bars: seq<Bar>, actions: seq<CorporateAction>, dates: seq<int>, scale: real)
    requires scale > 0.0 && FactorsOf(factors, bars, actions, dates, scale)
    ensures Positive(factors) && forall k :: 0 <= k < |factors| ==> factors[k].exDate in dates
  {
    hide EventFactors, LastBefore;
  }

  /** The factor of an ex-date that has a bar before it. */
  lemma FactorAt(factors: seq<Factor>, bars: seq<Bar>, actions: seq<CorporateAction>, scale: real, exDate: int) returns (k: nat)
    requires scale > 0.0 && FactorsOf(factors, bars, actions, ExDates(actions), scale)
    requires exDate in ExDates(actions) && LastBefore(bars, exDate).Some?
    ensures k < |factors| && factors[k].exDate == exDate
    ensures EventFactors(exDate, LastBefore(bars, exDate).value.close, ActionsOn(actions, exDate), scale) == Ok(factors[k])
    ensures forall j :: 0 <= j < |factors| && j != k ==> factors[j].exDate != exDate && factors[j].exDate in ExDates(actions)
  {
    hide ExDates, LastBefore, EventFactors, ActionsOn;
    assert Covers(factors, exDate);
    k :| 0 <= k < |factors| && factors[k].exDate == exDate;
    assert Sound(factors[k], bars, actions, ExDates(actions), scale);
    forall j | 0 <= j < |factors| && j != k
      ensures factors[j].exDate != exDate && factors[j].exDate in ExDates(actions)
    {
      assert Sound(factors[j], bars, actions, ExDates(actions), scale);
    }
  }

  // ---------------------------------------------------------------- what an ex-date does

  /** A day in Vietnam begins at five in the afternoon UTC of the day before. */
  lemma VnDayBegins(ts: int, date: int)
    ensures VnDate(ts) == date <==> date * 86400 - 25200 <= ts < date * 86400 + 61200
  {
  }

  /** What one more action adds: a dividend its cash, a stock dividend or split its shares, a rights issue
      its shares and the money to subscribe them, a change of symbol nothing. */
  lemma EachActionAdds(actions: seq<CorporateAction>, a: CorporateAction, scale: real)
    requires scale > 0.0
    ensures var more := actions + [a];
      && Cash(more) - Cash(actions) == (if a.kind.CashDividend? && a.cash.Some? then a.cash.value else 0.0)
      && SharesAfter(more) - SharesAfter(actions) ==
           (match a.kind
            case StockDividend => if a.distribution.Some? then a.distribution.value else 0.0
            case Split => if a.distribution.Some? then a.distribution.value else 0.0
            case RightsIssue => if a.subscriptionRatio.Some? then a.subscriptionRatio.value else 0.0
            case _ => 0.0)
      && Times(SubscriptionValue(more, scale) - SubscriptionValue(actions, scale), scale) ==
           (if a.kind.RightsIssue? && a.subscriptionRatio.Some? && a.subscriptionPrice.Some?
            then Times(a.subscriptionRatio.value, a.subscriptionPrice.value) else 0.0)
  {
    assert (actions + [a])[..|actions|] == actions;
    hide Times;
    if a.kind.RightsIssue? && a.subscriptionRatio.Some? && a.subscriptionPrice.Some? {
      TimesQuotient(Times(a.subscriptionRatio.value, a.subscriptionPrice.value), scale);
    }
    TimesOne(scale);
  }

  lemma NoActions(scale: real)
    requires scale > 0.0
    ensures Cash([]) == 0.0 && SharesAfter([]) == 1.0 && SubscriptionValue([], scale) == 0.0
  {
  }

  /** The holder of one share is as wealthy after the ex-date as before: the shares at the theoretical
      price, plus the dividend received, less the money paid for subscribed shares. */
  lemma WealthIsKept(previousClose: real, actions: seq<CorporateAction>, scale: real)
    requires scale > 0.0 && SharesAfter(actions) != 0.0
    ensures Times(SharesAfter(actions), TheoreticalExPrice(previousClose, actions, scale))
          + Cash(actions) / scale - SubscriptionValue(actions, scale) == previousClose
  {
    var total := previousClose - Cash(actions) / scale + SubscriptionValue(actions, scale);
    TimesQuotient(total, SharesAfter(actions));
  }

  /** Without dividends and subscriptions an ex-date leaves turnover alone: prices fall as volumes rise. */
  lemma TurnoverIsKept(exDate: int, previousClose: real, actions: seq<CorporateAction>, scale: real)
    requires scale > 0.0 && Cash(actions) == 0.0 && SubscriptionValue(actions, scale) == 0.0
    requires EventFactors(exDate, previousClose, actions, scale).Ok?
    ensures var f := EventFactors(exDate, previousClose, actions, scale).value;
      Times(f.price, f.quantity) == 1.0 && f.quantity == SharesAfter(actions) && f.exDate == exDate
  {
    hide Cash, SharesAfter, SubscriptionValue, Times;
    ShareOfClose(previousClose, SharesAfter(actions), scale);
  }

  lemma ShareOfClose(close: real, shares: real, scale: real)
    requires close != 0.0 && shares != 0.0 && scale > 0.0
    ensures (close - 0.0 / scale + 0.0) / shares / close == 1.0 / shares
    ensures Times(1.0 / shares, shares) == 1.0
  {
  }

  // ---------------------------------------------------------------- unverified actions

  function AppliesOnly(a: CorporateAction): Option<CorporateAction> {
    if a.verified && a.exDate.Some? then Some(a) else None
  }

  lemma {:induction false} OnlyApplied(actions: seq<CorporateAction>)
    ensures var applied := Sorting.Collect(AppliesOnly, actions);
      && ExDates(applied) == ExDates(actions) && AppliedCount(applied) == |applied| == AppliedCount(actions)
      && (forall d :: ActionsOn(applied, d) == ActionsOn(actions, d))
      && (forall a :: a in applied ==> a in actions)
  {
    if actions != [] {
      var (init, last) := (actions[..|actions| - 1], actions[|actions| - 1]);
      assert actions == init + [last];
      OnlyApplied(init);
      var earlier := Sorting.Collect(AppliesOnly, init);
      if AppliesOnly(last).Some? {
        assert (earlier + [last])[..|earlier|] == earlier;
      }
    }
  }

  lemma {:induction false} FactorsOfSame(bars: seq<Bar>, one: seq<CorporateAction>, other: seq<CorporateAction>, dates: seq<int>, scale: real)
    requires scale > 0.0 && forall d :: ActionsOn(one, d) == ActionsOn(other, d)
    ensures Factors(bars, one, dates, scale) == Factors(bars, other, dates, scale)
  {
    hide EventFactors, ActionsOn, LastBefore;
    if dates != [] {
      FactorsOfSame(bars, one, other, dates[..|dates| - 1], scale);
    }
  }

  /** Actions that are not verified or have no ex-date are skipped and counted, and change nothing else. */
  lemma UnverifiedActionsAreSkipped(asset: string, rows: seq<Bar>, actions: seq<CorporateAction>, scale: real)
    requires AdjustmentOf(asset, rows, actions, true, scale).Ok?
    ensures var applied := Sorting.Collect(AppliesOnly, actions);
      var (all, own) := (AdjustmentOf(asset, rows, actions, true, scale).value, AdjustmentOf(asset, rows, applied, true, scale));
      && own.Ok? && own.value.bars == all.bars && own.value.applied == all.applied == |applied|
      && own.value.skipped == 0 && all.skipped == |actions| - |applied|
  {
    OnlyApplied(actions);
    FactorsOfSame(Normalize(rows), actions, Sorting.Collect(AppliesOnly, actions), ExDates(actions), scale);
    hide Factors, ExDates, AppliedCount, ActionsOn, AdjustedBars, Normalize, Sorting.Collect;
  }
}
