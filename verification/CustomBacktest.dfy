/** Whole-history backtests of the custom rules (quant-worker/backtest/custom_execution.py) and
    their agreement with the incremental evaluator. */
module CustomBacktest {
  import opened Prelude
  import opened Market
  import opened Forward
  import Engine
  import Backtest

  type Point = Engine.Point

  datatype BacktestError = InvalidInputs

  /** A recorded fill; bars are named by timestamp. */
  datatype FillRecord = FillRecord(action: Action, signalAt: int, executedAt: int, open: real, fill: real, quantity: real, fees: real)

  /** A monthly contribution as reported. */
  datatype ContributionRecord = ContributionRecord(executedAt: int, amount: real, invested: real, fees: real, remainingCash: real)

  datatype Order = Order(action: Action, signalAt: int)

  datatype PriceState = PriceState(cash: real, quantity: real, fees: real, slippage: real, pending: Option<Order>,
                                   trades: seq<FillRecord>, equity: seq<Point>)

  datatype DcaState = DcaState(cash: real, quantity: real, fees: real, slippage: real, contributed: real,
                               paidMonths: set<int>, contributions: seq<ContributionRecord>, equity: seq<Point>)

  /** What a custom backtest reports about its curve: contributions are no profit. */
  datatype Summary = Summary(finalEquity: real, profit: real, peak: real, maxDrawdown: real)

  function SummaryOf(capital: real, equity: seq<Point>, contributed: real): Summary
    requires equity != []
  {
    var (last, (peak, worst)) := (equity[|equity| - 1].equity, Backtest.Watermark(capital, equity));
    Summary(last, last - capital - contributed, peak, worst)
  }

  method Summarize(capital: real, equity: seq<Point>, contributed: real) returns (r: Summary)
    requires equity != []
    ensures r == SummaryOf(capital, equity, contributed)
  {
    hide Drawdown;
    var peak, worst := capital, 0.0;
    for i := 0 to |equity|
      invariant (peak, worst) == Backtest.Watermark(capital, equity[..i])
    {
      assert equity[..i + 1][..i] == equity[..i];
      peak := Max(peak, equity[i].equity);
      worst := Min(worst, Drawdown(equity[i].equity, peak));
    }
    assert equity[..|equity|] == equity;
    var last := equity[|equity| - 1].equity;
    r := Summary(last, last - capital - contributed, peak, worst);
  }

  function PointAt(cash: real, quantity: real, close: real): Point {
    Engine.Point(cash, Times(quantity, close), cash + Times(quantity, close))
  }

  /** `amount * pct / 100`, in the order the backtest multiplies. */
  function Portion(amount: real, pct: real): real {
    amount * pct / 100.0
  }

  lemma PortionIsScaled(amount: real, pct: real)
    ensures Portion(amount, pct) == Times(amount, pct / 100.0)
  {
  }

  // ---------------------------------------------------------------- price threshold

  function FillOrder(rule: Evaluator, costs: Costs, st: PriceState, bar: Bar): PriceState
    requires rule.PriceRule? && costs.Valid() && bar.open > 0.0
  {
    match st.pending
    case None => st
    case Some(order) =>
      FillPricesPositive(bar.open, costs);
      if order.action.Buy? && st.cash > 0.0 then
        var fill := BuyPrice(bar.open, costs);
        var quantity := BuyQuantity(Portion(st.cash, rule.sizePct), fill, costs.FeeRate());
        var commission := Commission(quantity, fill, costs.FeeRate());
        st.(cash := st.cash - (Times(quantity, fill) + commission), quantity := st.quantity + quantity,
            fees := st.fees + commission, slippage := st.slippage + Times(quantity, fill - bar.open),
            trades := st.trades + [FillRecord(Buy, order.signalAt, bar.ts, bar.open, fill, quantity, commission)],
            pending := None)
      else if order.action.Sell? && st.quantity > 0.0 then
        var quantity := Portion(st.quantity, rule.sizePct);
        var fill := SellPrice(bar.open, costs);
        var commission := Commission(quantity, fill, costs.FeeRate() + costs.TaxRate());
        st.(cash := st.cash + (Times(quantity, fill) - commission), quantity := st.quantity - quantity,
            fees := st.fees + commission, slippage := st.slippage + Times(quantity, bar.open - fill),
            trades := st.trades + [FillRecord(Sell, order.signalAt, bar.ts, bar.open, fill, quantity, commission)],
            pending := None)
      else st.(pending := None)
  }

  function PriceAt(rule: Evaluator, costs: Costs, bars: seq<Bar>, capital: real, n: nat): PriceState
    requires rule.PriceRule? && costs.Valid() && n <= |bars| && Priced(bars)
  {
    if n == 0 then PriceState(capital, 0.0, 0.0, 0.0, None, [], [])
    else
      var bar := bars[n - 1];
      var filled := FillOrder(rule, costs, PriceAt(rule, costs, bars, capital, n - 1), bar);
      var marked := filled.(equity := filled.equity + [PointAt(filled.cash, filled.quantity, bar.close)]);
      if n > 1 && Crossed(rule, bars[n - 2], bar) then marked.(pending := Some(Order(rule.action, bar.ts)))
      else marked
  }

  method RunPriceThreshold(rule: Evaluator, costs: Costs, given: seq<Bar>, capital: real)
    returns (r: Result<(PriceState, Summary), BacktestError>)
    requires rule.PriceRule? && costs.Valid() && Priced(given)
    ensures r.Err? <==> capital <= 0.0 || |given| < 2
    ensures r.Ok? ==> Priced(Normalize(given)) && r.value.0 == PriceAt(rule, costs, Normalize(given), capital, |given|)
    ensures r.Ok? ==> r.value.0.equity != [] && r.value.1 == SummaryOf(capital, r.value.0.equity, 0.0)
  {
    hide Times, BuyQuantity, Portion, Normalize;
    NormalizeSorts(given);
    var bars := Normalize(given);
    if capital <= 0.0 || |bars| < 2 {
      return Err(InvalidInputs);
    }
    var cash, quantity, fees, slippage := capital, 0.0, 0.0, 0.0;
    var trades: seq<FillRecord>, equity: seq<Point> := [], [];
    var pending: Option<Order>, previous: Option<Bar> := None, None;
    for i := 0 to |bars|
      invariant PriceState(cash, quantity, fees, slippage, pending, trades, equity) == PriceAt(rule, costs, bars, capital, i)
      invariant previous == if i == 0 then None else Some(bars[i - 1])
    {
      var row := bars[i];
      if pending.Some? {
        var Order(action, signalAt) := pending.value;
        FillPricesPositive(row.open, costs);
        if action.Buy? && cash > 0.0 {
          var budget := Portion(cash, rule.sizePct);
          var fill := BuyPrice(row.open, costs);
          var qty := BuyQuantity(budget, fill, costs.FeeRate());
          var commission := Commission(qty, fill, costs.FeeRate());
          cash := cash - (Times(qty, fill) + commission);
          quantity := quantity + qty;
          fees := fees + commission;
          slippage := slippage + Times(qty, fill - row.open);
          trades := trades + [FillRecord(Buy, signalAt, row.ts, row.open, fill, qty, commission)];
        } else if action.Sell? && quantity > 0.0 {
          var qty := Portion(quantity, rule.sizePct);
          var fill := SellPrice(row.open, costs);
          var commission := Commission(qty, fill, costs.FeeRate() + costs.TaxRate());
          cash := cash + (Times(qty, fill) - commission);
          quantity := quantity - qty;
          fees := fees + commission;
          slippage := slippage + Times(qty, row.open - fill);
          trades := trades + [FillRecord(Sell, signalAt, row.ts, row.open, fill, qty, commission)];
        }
        pending := None;
      }
      var value := Times(quantity, row.close);
      equity := equity + [Engine.Point(cash, value, cash + value)];
      if previous.Some? {
        if Crossed(rule, previous.value, row) {
          pending := Some(Order(rule.action, row.ts));
        }
      }
      previous := Some(row);
    }
    PricePoints(rule, costs, bars, capital, |bars|);
    var summary := Summarize(capital, equity, 0.0);
    r := Ok((PriceState(cash, quantity, fees, slippage, pending, trades, equity), summary));
  }

  // ---------------------------------------------------------------- scheduled contributions

  function DcaAt(rule: Evaluator, costs: Costs, bars: seq<Bar>, capital: real, n: nat): DcaState
    requires rule.DcaRule? && costs.Valid() && n <= |bars| && Priced(bars)
  {
    if n == 0 then DcaState(capital, 0.0, 0.0, 0.0, 0.0, {}, [], [])
    else
      var bar := bars[n - 1];
      var st := DcaAt(rule, costs, bars, capital, n - 1);
      var paid := if DcaDue(rule, bar, st.paidMonths) then Contribute(rule, costs, st, bar) else st;
      paid.(equity := paid.equity + [PointAt(paid.cash, paid.quantity, bar.close)])
  }

  function Contribute(rule: Evaluator, costs: Costs, st: DcaState, bar: Bar): DcaState
    requires rule.DcaRule? && costs.Valid() && bar.open > 0.0
  {
    FillPricesPositive(bar.open, costs);
    var fill := BuyPrice(bar.open, costs);
    var quantity := BuyQuantity(rule.contribution, fill, costs.FeeRate());
    var commission := Commission(quantity, fill, costs.FeeRate());
    var invested := Times(quantity, fill) + commission;
    var cash := st.cash + rule.contribution - invested;
    st.(cash := cash, contributed := st.contributed + rule.contribution, quantity := st.quantity + quantity,
        fees := st.fees + commission, slippage := st.slippage + Times(quantity, fill - bar.open),
        paidMonths := st.paidMonths + {rule.calendar.month(bar.ts)},
        contributions := st.contributions + [ContributionRecord(bar.ts, rule.contribution, invested, commission, cash)])
  }

  method RunScheduledDca(rule: Evaluator, costs: Costs, given: seq<Bar>, capital: real)
    returns (r: Result<(DcaState, Summary), BacktestError>)
    requires rule.DcaRule? && costs.Valid() && Priced(given)
    ensures r.Err? <==> capital <= 0.0 || given == []
    ensures r.Ok? ==> Priced(Normalize(given)) && r.value.0 == DcaAt(rule, costs, Normalize(given), capital, |given|)
    ensures r.Ok? ==> r.value.0.equity != [] && r.value.1 == SummaryOf(capital, r.value.0.equity, r.value.0.contributed)
  {
    hide Times, BuyQuantity, Normalize;
    NormalizeSorts(given);
    var bars := Normalize(given);
    if capital <= 0.0 || bars == [] {
      return Err(InvalidInputs);
    }
    var cash, quantity, fees, slippage, contributed := capital, 0.0, 0.0, 0.0, 0.0;
    var paidMonths: set<int>, contributions: seq<ContributionRecord>, equity: seq<Point> := {}, [], [];
    for i := 0 to |bars|
      invariant DcaState(cash, quantity, fees, slippage, contributed, paidMonths, contributions, equity)
             == DcaAt(rule, costs, bars, capital, i)
    {
      var row := bars[i];
      var month := rule.calendar.month(row.ts);
      if month !in paidMonths && rule.calendar.day(row.ts) >= rule.dayOfMonth {
        cash := cash + rule.contribution;
        contributed := contributed + rule.contribution;
        FillPricesPositive(row.open, costs);
        var fill := BuyPrice(row.open, costs);
        var qty := BuyQuantity(rule.contribution, fill, costs.FeeRate());
        var commission := Commission(qty, fill, costs.FeeRate());
        var invested := Times(qty, fill) + commission;
        cash := cash - invested;
        quantity := quantity + qty;
        fees := fees + commission;
        slippage := slippage + Times(qty, fill - row.open);
        paidMonths := paidMonths + {month};
        contributions := contributions + [ContributionRecord(row.ts, rule.contribution, invested, commission, cash)];
      }
      var value := Times(quantity, row.close);
      equity := equity + [Engine.Point(cash, value, cash + value)];
    }
    DcaPoints(rule, costs, bars, capital, |bars|);
    var summary := Summarize(capital, equity, contributed);
    r := Ok((DcaState(cash, quantity, fees, slippage, contributed, paidMonths, contributions, equity), summary));
  }

  // ---------------------------------------------------------------- the two implementations agree

  function FreshBook(cash: real): Book {
    Book(cash, 0.0, 0.0, 0.0, None, {})
  }

  /** The pending order of the backtest in the evaluator's form. */
  ghost predicate SamePending(pending: Option<Pending>, order: Option<Order>, sizePct: real) {
    pending == match order
               case None => None
               case Some(o) => Some(Pending(o.action, Some(sizePct)))
  }

  ghost predicate SamePosition(book: Book, cash: real, quantity: real, fees: real) {
    book.cash == cash && book.quantity == quantity && book.fees == fees
  }

  lemma FillsAgree(rule: Evaluator, costs: Costs, book: Book, st: PriceState, bar: Bar)
    requires rule.PriceRule? && costs.Valid() && bar.open > 0.0
    requires SamePosition(book, st.cash, st.quantity, st.fees) && SamePending(book.pending, st.pending, rule.sizePct)
    ensures var (after, filled) := (FillPending(book, bar.open, costs, rule.sizePct), FillOrder(rule, costs, st, bar));
      SamePosition(after, filled.cash, filled.quantity, filled.fees) && after.pending.None? && filled.pending.None?
  {
    hide Times, Portion, BuyQuantity;
    PortionIsScaled(st.cash, rule.sizePct);
    PortionIsScaled(st.quantity, rule.sizePct);
  }

  /** Evaluator and backtest hold the same position and order after every bar. */
  lemma {:induction false} PriceRunsAgree(rule: Evaluator, costs: Costs, bars: seq<Bar>, capital: real, n: nat)
    requires rule.PriceRule? && rule.Valid() && costs.Valid() && n <= |bars| && Priced(bars)
    ensures var (book, st) := (Run(rule, costs, bars, None, FreshBook(capital), n).0, PriceAt(rule, costs, bars, capital, n));
      SamePosition(book, st.cash, st.quantity, st.fees) && SamePending(book.pending, st.pending, rule.sizePct)
  {
    hide FillPending, FillOrder;
    if n > 0 {
      PriceRunsAgree(rule, costs, bars, capital, n - 1);
      var book := Run(rule, costs, bars, None, FreshBook(capital), n - 1).0;
      var st := PriceAt(rule, costs, bars, capital, n - 1);
      FillsAgree(rule, costs, book, st, bars[n - 1]);
      if n == 1 {
        NothingToFill(rule, costs, st, bars[0]);
      }
    }
  }

  lemma NothingToFill(rule: Evaluator, costs: Costs, st: PriceState, bar: Bar)
    requires rule.PriceRule? && costs.Valid() && bar.open > 0.0 && st.pending.None?
    ensures FillOrder(rule, costs, st, bar) == st
  {
  }

  /** One forward evaluation from a fresh state reports the equity the price backtest ends with. */
  lemma PriceOutcomeMatchesBacktest(rule: Evaluator, item: Work, capital: real)
    requires rule.PriceRule? && rule.Valid() && item.Valid()
    requires item.lastAt.None? && item.book == FreshBook(capital)
    ensures var (outcome, st) := (OutcomeOf(rule, item), PriceAt(rule, item.costs, item.bars, capital, |item.bars|));
      && SamePosition(outcome.book, st.cash, st.quantity, st.fees)
      && |st.equity| == |item.bars|
      && outcome.equity == st.equity[|st.equity| - 1].equity
      && outcome.marketValue == st.equity[|st.equity| - 1].marketValue
  {
    hide FillPending, FillOrder, Times;
    PriceRunsAgree(rule, item.costs, item.bars, capital, |item.bars|);
    PricePoints(rule, item.costs, item.bars, capital, |item.bars|);
  }

  lemma {:induction false} PricePoints(rule: Evaluator, costs: Costs, bars: seq<Bar>, capital: real, n: nat)
    requires rule.PriceRule? && costs.Valid() && n <= |bars| && Priced(bars)
    ensures var st := PriceAt(rule, costs, bars, capital, n);
      |st.equity| == n && (n > 0 ==> st.equity[n - 1] == PointAt(st.cash, st.quantity, bars[n - 1].close))
  {
    hide Times, BuyQuantity, Portion;
    if n > 0 {
      PricePoints(rule, costs, bars, capital, n - 1);
    }
  }

  lemma {:induction false} DcaPoints(rule: Evaluator, costs: Costs, bars: seq<Bar>, capital: real, n: nat)
    requires rule.DcaRule? && costs.Valid() && n <= |bars| && Priced(bars)
    ensures var st := DcaAt(rule, costs, bars, capital, n);
      |st.equity| == n && (n > 0 ==> st.equity[n - 1] == PointAt(st.cash, st.quantity, bars[n - 1].close))
  {
    hide Times, BuyQuantity;
    if n > 0 {
      DcaPoints(rule, costs, bars, capital, n - 1);
    }
  }

  lemma {:induction false} DcaRunsAgree(rule: Evaluator, costs: Costs, bars: seq<Bar>, capital: real, n: nat)
    requires rule.DcaRule? && rule.Valid() && costs.Valid() && n <= |bars| && Priced(bars)
    ensures var (book, st) := (Run(rule, costs, bars, None, FreshBook(capital), n).0, DcaAt(rule, costs, bars, capital, n));
      && SamePosition(book, st.cash, st.quantity, st.fees)
      && book.contributions == st.contributed && book.paidMonths == st.paidMonths
  {
    hide Times, BuyQuantity;
    if n > 0 {
      DcaRunsAgree(rule, costs, bars, capital, n - 1);
    }
  }

  /** The same for the contribution rule: position, contributions and final equity coincide. */
  lemma DcaOutcomeMatchesBacktest(rule: Evaluator, item: Work, capital: real)
    requires rule.DcaRule? && rule.Valid() && item.Valid()
    requires item.lastAt.None? && item.book == FreshBook(capital)
    ensures var (outcome, st) := (OutcomeOf(rule, item), DcaAt(rule, item.costs, item.bars, capital, |item.bars|));
      && SamePosition(outcome.book, st.cash, st.quantity, st.fees)
      && outcome.book.contributions == st.contributed
      && |st.equity| == |item.bars|
      && outcome.equity == st.equity[|st.equity| - 1].equity
  {
    hide Times, StepAt;
    DcaRunsAgree(rule, item.costs, item.bars, capital, |item.bars|);
    DcaPoints(rule, item.costs, item.bars, capital, |item.bars|);
  }

  // ---------------------------------------------------------------- what is recorded

  /** A fill happened on the bar after the one whose close went through the threshold, at its open. */
  ghost predicate RecordedFill(rule: Evaluator, bars: seq<Bar>, n: nat, record: FillRecord)
    requires rule.PriceRule? && n <= |bars|
  {
    exists i: nat :: i + 1 < n && GoesThrough(bars, i, rule.threshold, rule.crossesAbove)
      && record.signalAt == bars[i].ts && record.executedAt == bars[i + 1].ts && record.open == bars[i + 1].open
      && record.action == rule.action
  }

  /** The waiting order belongs to the last bar and its crossing. */
  ghost predicate WaitingOrder(rule: Evaluator, bars: seq<Bar>, n: nat, pending: Option<Order>)
    requires rule.PriceRule? && n <= |bars|
  {
    pending == if n > 1 && GoesThrough(bars, n - 1, rule.threshold, rule.crossesAbove)
               then Some(Order(rule.action, bars[n - 1].ts)) else None
  }

  /** Every recorded fill follows a crossing, and every crossing leaves an order for the next bar. */
  lemma {:induction false} FillsFollowCrossings(rule: Evaluator, costs: Costs, bars: seq<Bar>, capital: real, n: nat)
    requires rule.PriceRule? && costs.Valid() && n <= |bars| && Priced(bars)
    ensures var st := PriceAt(rule, costs, bars, capital, n);
      && WaitingOrder(rule, bars, n, st.pending)
      && forall k :: 0 <= k < |st.trades| ==> RecordedFill(rule, bars, n, st.trades[k])
  {
    if n > 0 {
      FillsFollowCrossings(rule, costs, bars, capital, n - 1);
      var before := PriceAt(rule, costs, bars, capital, n - 1);
      assert n > 1 ==> (Crossed(rule, bars[n - 2], bars[n - 1]) <==> GoesThrough(bars, n - 1, rule.threshold, rule.crossesAbove));
      FillRecords(rule, costs, before, bars[n - 1]);
      hide FillOrder, Crossed, GoesThrough;
      var filled := FillOrder(rule, costs, before, bars[n - 1]);
      forall k | 0 <= k < |filled.trades|
        ensures RecordedFill(rule, bars, n, filled.trades[k])
      {
        if k < |before.trades| {
          assert RecordedFill(rule, bars, n - 1, before.trades[k]);
          assert filled.trades[k] == before.trades[k];
        } else {
          assert n > 2 && GoesThrough(bars, n - 2, rule.threshold, rule.crossesAbove);
        }
      }
    }
  }

  lemma FillRecords(rule: Evaluator, costs: Costs, st: PriceState, bar: Bar)
    requires rule.PriceRule? && costs.Valid() && bar.open > 0.0
    ensures var filled := FillOrder(rule, costs, st, bar);
      && filled.pending.None? && st.trades <= filled.trades <= st.trades + filled.trades[|st.trades|..]
      && |filled.trades| <= |st.trades| + 1
      && (|filled.trades| > |st.trades| ==>
            st.pending.Some? && filled.trades[|st.trades|].action == st.pending.value.action
            && filled.trades[|st.trades|].signalAt == st.pending.value.signalAt
            && filled.trades[|st.trades|].executedAt == bar.ts && filled.trades[|st.trades|].open == bar.open)
  {
    hide Times, BuyQuantity, Portion, Commission, BuyPrice, SellPrice;
  }

  /** A contribution backtest never touches its capital: its profit is what the holding is worth beyond
      the contributions, and every record invested its whole contribution. */
  lemma {:induction false} DcaProfit(rule: Evaluator, costs: Costs, bars: seq<Bar>, capital: real, n: nat)
    requires rule.DcaRule? && rule.Valid() && costs.Valid() && n <= |bars| && Priced(bars)
    ensures var st := DcaAt(rule, costs, bars, capital, n);
      && st.cash == capital && st.contributed == Times(|st.contributions| as real, rule.contribution)
      && (forall k :: 0 <= k < |st.contributions| ==>
            st.contributions[k].amount == st.contributions[k].invested == rule.contribution && st.contributions[k].remainingCash == capital)
      && (n > 0 ==>
            && st.equity != []
            && SummaryOf(capital, st.equity, st.contributed).profit == Times(st.quantity, bars[n - 1].close) - st.contributed)
  {
    hide Times, BuyQuantity, Commission, Backtest.Watermark;
    TimesOne(rule.contribution);
    if n > 0 {
      var bar := bars[n - 1];
      var before := DcaAt(rule, costs, bars, capital, n - 1);
      DcaProfit(rule, costs, bars, capital, n - 1);
      DcaPoints(rule, costs, bars, capital, n);
      FillPricesPositive(bar.open, costs);
      BuySpendsBudget(rule.contribution, BuyPrice(bar.open, costs), costs.FeeRate());
      TimesAdd(rule.contribution, |before.contributions| as real, 1.0);
      hide BuyPrice;
    }
  }

  /** A price backtest that never traded made nothing. */
  lemma NoTradeNoProfit(rule: Evaluator, costs: Costs, bars: seq<Bar>, capital: real, n: nat)
    requires rule.PriceRule? && costs.Valid() && 0 < n <= |bars| && Priced(bars)
    requires PriceAt(rule, costs, bars, capital, n).trades == []
    ensures var st := PriceAt(rule, costs, bars, capital, n);
      st.equity != [] && SummaryOf(capital, st.equity, 0.0).profit == 0.0 && st.fees == 0.0 && st.slippage == 0.0
  {
    Untraded(rule, costs, bars, capital, n);
    PricePoints(rule, costs, bars, capital, n);
    TimesOne(bars[n - 1].close);
    hide PriceAt, Times, Backtest.Watermark;
  }

  lemma {:induction false} Untraded(rule: Evaluator, costs: Costs, bars: seq<Bar>, capital: real, n: nat)
    requires rule.PriceRule? && costs.Valid() && n <= |bars| && Priced(bars)
    ensures var st := PriceAt(rule, costs, bars, capital, n);
      st.trades == [] ==> st.cash == capital && st.quantity == 0.0 && st.fees == 0.0 && st.slippage == 0.0
  {
    if n > 0 {
      Untraded(rule, costs, bars, capital, n - 1);
      FillRecords(rule, costs, PriceAt(rule, costs, bars, capital, n - 1), bars[n - 1]);
      hide Times, BuyQuantity, Portion, Commission, BuyPrice, SellPrice, Crossed;
    }
  }

  // ---------------------------------------------------------------- where the money went

  /** What the recorded fills moved at the opens, before any cost. */
  ghost function FlowAtOpens(trades: seq<FillRecord>): real {
    if trades == [] then 0.0
    else
      var t := trades[|trades| - 1];
      FlowAtOpens(trades[..|trades| - 1]) + (if t.action.Buy? then -Times(t.quantity, t.open) else Times(t.quantity, t.open))
  }

  ghost function NetQuantity(trades: seq<FillRecord>): real {
    if trades == [] then 0.0
    else
      var t := trades[|trades| - 1];
      NetQuantity(trades[..|trades| - 1]) + (if t.action.Buy? then t.quantity else -t.quantity)
  }

  ghost function FillFees(trades: seq<FillRecord>): real {
    if trades == [] then 0.0 else FillFees(trades[..|trades| - 1]) + trades[|trades| - 1].fees
  }

  ghost predicate PriceBalanced(capital: real, st: PriceState) {
    && st.cash + st.fees + st.slippage == capital + FlowAtOpens(st.trades)
    && st.quantity == NetQuantity(st.trades) && st.fees == FillFees(st.trades)
  }

  lemma OneMoreFill(trades: seq<FillRecord>, t: FillRecord)
    ensures FlowAtOpens(trades + [t]) == FlowAtOpens(trades) + (if t.action.Buy? then -Times(t.quantity, t.open) else Times(t.quantity, t.open))
    ensures NetQuantity(trades + [t]) == NetQuantity(trades) + (if t.action.Buy? then t.quantity else -t.quantity)
    ensures FillFees(trades + [t]) == FillFees(trades) + t.fees
  {
    hide Times;
    assert (trades + [t])[..|trades|] == trades;
  }

  /** What a recorded fill leaves: money, position, costs and record belong together. */
  ghost predicate Recorded(st: PriceState, after: PriceState, t: FillRecord) {
    && after.trades == st.trades + [t] && after.fees == st.fees + t.fees && after.equity == st.equity
    && (t.action.Buy? ==>
          && after.cash == st.cash - Times(t.quantity, t.fill) - t.fees && after.quantity == st.quantity + t.quantity
          && after.slippage == st.slippage + Times(t.quantity, t.fill - t.open))
    && (t.action.Sell? ==>
          && after.cash == st.cash + Times(t.quantity, t.fill) - t.fees && after.quantity == st.quantity - t.quantity
          && after.slippage == st.slippage + Times(t.quantity, t.open - t.fill))
  }

  lemma FillIsRecorded(rule: Evaluator, costs: Costs, st: PriceState, bar: Bar) returns (t: FillRecord)
    requires rule.PriceRule? && costs.Valid() && bar.open > 0.0
    ensures var after := FillOrder(rule, costs, st, bar);
      Recorded(st, after, t) || after == st.(pending := None)
  {
    hide Times, BuyQuantity, Portion, Commission, BuyPrice, SellPrice;
    FillPricesPositive(bar.open, costs);
    var after := FillOrder(rule, costs, st, bar);
    t := if |after.trades| > |st.trades| then after.trades[|st.trades|] else FillRecord(Buy, 0, 0, 0.0, 0.0, 0.0, 0.0);
  }

  lemma RecordedBalances(capital: real, st: PriceState, after: PriceState, t: FillRecord)
    requires PriceBalanced(capital, st) && Recorded(st, after, t)
    ensures PriceBalanced(capital, after)
  {
    OneMoreFill(st.trades, t);
    TimesAdd(t.quantity, t.fill - t.open, t.open);
    TimesAdd(t.quantity, t.open - t.fill, t.fill);
    hide Times, FlowAtOpens, NetQuantity, FillFees;
  }

  lemma FillBalances(rule: Evaluator, costs: Costs, capital: real, st: PriceState, bar: Bar)
    requires rule.PriceRule? && costs.Valid() && bar.open > 0.0 && PriceBalanced(capital, st)
    ensures PriceBalanced(capital, FillOrder(rule, costs, st, bar)) && FillOrder(rule, costs, st, bar).equity == st.equity
  {
    var t := FillIsRecorded(rule, costs, st, bar);
    hide FillOrder;
    if Recorded(st, FillOrder(rule, costs, st, bar), t) {
      RecordedBalances(capital, st, FillOrder(rule, costs, st, bar), t);
    }
  }

  /** After every bar of a price backtest cash, fees and slippage are the capital and what the recorded
      fills moved at the opens; the position and the fees are those of the fills; and the point shows
      cash and position at the close. */
  lemma {:induction false} PriceAccounting(rule: Evaluator, costs: Costs, bars: seq<Bar>, capital: real, n: nat)
    requires rule.PriceRule? && costs.Valid() && n <= |bars| && Priced(bars)
    ensures var st := PriceAt(rule, costs, bars, capital, n);
      && PriceBalanced(capital, st) && |st.equity| == n
      && (n > 0 ==>
            var p := st.equity[n - 1];
            p.cash == st.cash && p.marketValue == Times(st.quantity, bars[n - 1].close) && p.equity == p.cash + p.marketValue)
  {
    hide FillOrder, Times, PriceBalanced, Crossed;
    if n == 0 {
      NothingMoved(capital);
    } else {
      PriceAccounting(rule, costs, bars, capital, n - 1);
      FillBalances(rule, costs, capital, PriceAt(rule, costs, bars, capital, n - 1), bars[n - 1]);
      SameBalance(capital, FillOrder(rule, costs, PriceAt(rule, costs, bars, capital, n - 1), bars[n - 1]), PriceAt(rule, costs, bars, capital, n));
    }
  }

  lemma NothingMoved(capital: real)
    ensures PriceBalanced(capital, PriceState(capital, 0.0, 0.0, 0.0, None, [], []))
  {
  }

  lemma SameBalance(capital: real, one: PriceState, other: PriceState)
    requires PriceBalanced(capital, one) && other == one.(equity := other.equity, pending := other.pending)
    ensures PriceBalanced(capital, other)
  {
  }

  ghost function ContributionFees(records: seq<ContributionRecord>): real {
    if records == [] then 0.0 else ContributionFees(records[..|records| - 1]) + records[|records| - 1].fees
  }

  /** What the purchases of a contribution backtest are worth at their opens. */
  ghost function BoughtAtOpens(rule: Evaluator, costs: Costs, bars: seq<Bar>, capital: real, n: nat): real
    requires rule.DcaRule? && costs.Valid() && n <= |bars| && Priced(bars)
  {
    if n == 0 then 0.0
    else
      BoughtAtOpens(rule, costs, bars, capital, n - 1)
      + Times(DcaAt(rule, costs, bars, capital, n).quantity - DcaAt(rule, costs, bars, capital, n - 1).quantity, bars[n - 1].open)
  }

  /** Every contribution is what was bought at the opens, fees and slippage; the fees are those of the
      records; and the point shows cash and position at the close. */
  lemma {:induction false} DcaAccounting(rule: Evaluator, costs: Costs, bars: seq<Bar>, capital: real, n: nat)
    requires rule.DcaRule? && rule.Valid() && costs.Valid() && n <= |bars| && Priced(bars)
    ensures var st := DcaAt(rule, costs, bars, capital, n);
      && st.contributed == BoughtAtOpens(rule, costs, bars, capital, n) + st.fees + st.slippage
      && st.fees == ContributionFees(st.contributions) && |st.equity| == n
      && (n > 0 ==>
            var p := st.equity[n - 1];
            p.cash == st.cash && p.marketValue == Times(st.quantity, bars[n - 1].close) && p.equity == p.cash + p.marketValue)
  {
    hide Times, DcaAt, Contribute;
    DcaStep(rule, costs, bars, capital, n);
    if n > 0 {
      var bar := bars[n - 1];
      var before := DcaAt(rule, costs, bars, capital, n - 1);
      DcaAccounting(rule, costs, bars, capital, n - 1);
      if DcaDue(rule, bar, before.paidMonths) {
        ContributionMoves(rule, costs, before, bar);
      } else {
        TimesOne(bar.open);
      }
    }
  }

  /** One bar of a contribution backtest. */
  lemma DcaStep(rule: Evaluator, costs: Costs, bars: seq<Bar>, capital: real, n: nat)
    requires rule.DcaRule? && costs.Valid() && n <= |bars| && Priced(bars)
    ensures n == 0 ==> DcaAt(rule, costs, bars, capital, n) == DcaState(capital, 0.0, 0.0, 0.0, 0.0, {}, [], [])
    ensures n > 0 ==>
        var (before, bar) := (DcaAt(rule, costs, bars, capital, n - 1), bars[n - 1]);
        var paid := if DcaDue(rule, bar, before.paidMonths) then Contribute(rule, costs, before, bar) else before;
        DcaAt(rule, costs, bars, capital, n) == paid.(equity := paid.equity + [PointAt(paid.cash, paid.quantity, bar.close)])
  {
    hide Contribute, PointAt;
  }

  /** A contribution is what it buys at the open, its fee and its slippage. */
  lemma ContributionMoves(rule: Evaluator, costs: Costs, st: DcaState, bar: Bar)
    requires rule.DcaRule? && costs.Valid() && bar.open > 0.0
    ensures var after := Contribute(rule, costs, st, bar);
      && after.contributed - st.contributed == Times(after.quantity - st.quantity, bar.open) + (after.fees - st.fees) + (after.slippage - st.slippage)
      && |after.contributions| == |st.contributions| + 1 && after.contributions[..|st.contributions|] == st.contributions
      && after.contributions[|st.contributions|].fees == after.fees - st.fees
      && after.equity == st.equity
  {
    hide Times, BuyQuantity, Commission;
    FillPricesPositive(bar.open, costs);
    var fill := BuyPrice(bar.open, costs);
    BuySpendsBudget(rule.contribution, fill, costs.FeeRate());
    var quantity := BuyQuantity(rule.contribution, fill, costs.FeeRate());
    TimesAdd(quantity, fill - bar.open, bar.open);
    assert (st.quantity + quantity) - st.quantity == quantity;
    hide BuyPrice;
  }
}
