/** The whole-history backtest of one sleeve (quant-worker/backtest/engine.py): signals at the
    close, fills at the next open, fees, slippage, leverage and financing. */
module Engine {
  import opened Prelude
  import opened Market
  import opened Strategies

  datatype EngineError = InsufficientBars | LeverageOutOfRange

  /** One sleeve's inputs. */
  datatype Job = Job(bars: seq<Bar>, capital: real, leverage: real, costs: Costs, strategy: Strategy) {
    predicate Given() {
      Priced(bars) && capital > 0.0 && costs.Valid() && strategy.Valid()
    }

    predicate Valid() { Given() && leverage >= 1.0 }

    /** The job on its bars in time order. */
    function InOrder(): Job { this.(bars := Normalize(bars)) }

    /** What every purchase spends. */
    function Power(): real { Times(capital, leverage) }
  }

  /** A closed trade; bars are named by index. */
  datatype Trade = Trade(entrySignal: nat, entry: nat, exitSignal: nat, exit: nat, quantity: real,
                         entryOpen: real, exitOpen: real, fees: real, realizedPnl: real)

  datatype Point = Point(cash: real, marketValue: real, equity: real)

  datatype PendingOrder = PendingOrder(action: Action, signal: nat)

  /** The variables of the simulation loop. */
  datatype Sleeve = Sleeve(
    cash: real, quantity: real, entryPrice: real, entryFee: real, entryOpen: real, entrySignal: nat, entry: nat,
    pending: Option<PendingOrder>, fees: real, slippage: real, financing: real, borrowed: real,
    trades: seq<Trade>, points: seq<Point>)

  datatype SleeveResult = SleeveResult(points: seq<Point>, trades: seq<Trade>, fees: real, slippage: real, financing: real)

  function MaximumLeverage(venue: Venue): real {
    match venue
    case VnEquity => 2.0
    case CryptoSpot => 1.0
    case MetalSpot => 1.0
  }

  function FinancingCost(borrowed: real, rate: real, seconds: int): real {
    borrowed * rate * (seconds as real / 86400.0) / 365.0
  }

  // ---------------------------------------------------------------- specification of one bar

  function Start(job: Job): Sleeve {
    Sleeve(job.capital, 0.0, 0.0, 0.0, 0.0, 0, 0, None, 0.0, 0.0, 0.0, 0.0, [], [])
  }

  function Accrue(job: Job, st: Sleeve, i: nat): Sleeve
    requires i < |job.bars|
  {
    if i > 0 && st.quantity > 0.0 && st.borrowed > 0.0 then
      var cost := FinancingCost(st.borrowed, job.costs.FinancingRate(), job.bars[i].ts - job.bars[i - 1].ts);
      st.(cash := st.cash - cost, financing := st.financing + cost)
    else st
  }

  function OpenPosition(job: Job, st: Sleeve, i: nat, signal: nat): Sleeve
    requires job.Valid() && i < |job.bars|
  {
    var open := job.bars[i].open;
    FillPricesPositive(open, job.costs);
    var fill := BuyPrice(open, job.costs);
    var quantity := BuyQuantity(job.Power(), fill, job.costs.FeeRate());
    var fee := Commission(quantity, fill, job.costs.FeeRate());
    st.(quantity := quantity, entryFee := fee, cash := st.cash - (Times(quantity, fill) + fee),
        borrowed := Max(0.0, Times(quantity, fill) + fee - job.capital),
        entryPrice := fill, entrySignal := signal, entry := i, entryOpen := open,
        fees := st.fees + fee, slippage := st.slippage + Times(quantity, fill - open), pending := None)
  }

  function ClosePosition(job: Job, st: Sleeve, i: nat, signal: nat): Sleeve
    requires i < |job.bars|
  {
    var open := job.bars[i].open;
    var fill := SellPrice(open, job.costs);
    var fee := Commission(st.quantity, fill, job.costs.FeeRate() + job.costs.TaxRate());
    var proceeds := Times(st.quantity, fill) - fee;
    var invested := Times(st.quantity, st.entryPrice) + st.entryFee;
    var trade := Trade(st.entrySignal, st.entry, signal, i, st.quantity, st.entryOpen, open,
                       st.entryFee + fee, proceeds - invested);
    st.(cash := st.cash + proceeds, fees := st.fees + fee,
        slippage := st.slippage + Times(st.quantity, open - fill), trades := st.trades + [trade],
        quantity := 0.0, entryPrice := 0.0, entryFee := 0.0, entrySignal := 0, entry := 0, entryOpen := 0.0,
        borrowed := 0.0, pending := None)
  }

  function Fill(job: Job, st: Sleeve, i: nat): Sleeve
    requires job.Valid() && i < |job.bars|
  {
    match st.pending
    case None => st
    case Some(order) =>
      if order.action.Buy? && st.quantity == 0.0 then OpenPosition(job, st, i, order.signal)
      else if order.action.Sell? && st.quantity > 0.0 then ClosePosition(job, st, i, order.signal)
      else st.(pending := None)
  }

  function PointOf(st: Sleeve, close: real): Point {
    Point(st.cash, Times(st.quantity, close), st.cash + Times(st.quantity, close))
  }

  function MarkAndDecide(job: Job, st: Sleeve, i: nat): Sleeve
    requires job.Valid() && i < |job.bars|
  {
    var marked := st.(points := st.points + [PointOf(st, job.bars[i].close)]);
    match job.strategy.Signal(job.bars, i, st.quantity > 0.0)
    case Some(action) => marked.(pending := Some(PendingOrder(action, i)))
    case None => marked
  }

  function Bar(job: Job, st: Sleeve, i: nat): Sleeve
    requires job.Valid() && i < |job.bars|
  {
    MarkAndDecide(job, Fill(job, Accrue(job, st, i), i), i)
  }

  /** The loop's variables after the first n bars. */
  function SleeveAt(job: Job, n: nat): Sleeve
    requires job.Valid() && n <= |job.bars|
  {
    if n == 0 then Start(job) else Bar(job, SleeveAt(job, n - 1), n - 1)
  }

  lemma FirstBar(job: Job)
    requires job.Valid()
    ensures SleeveAt(job, 0) == Start(job)
  {
  }

  lemma NextBar(job: Job, i: nat)
    requires job.Valid() && i < |job.bars|
    ensures SleeveAt(job, i + 1) == MarkAndDecide(job, Fill(job, Accrue(job, SleeveAt(job, i), i), i), i)
  {
  }

  // ---------------------------------------------------------------- the simulation loop

  method SimulateSleeve(given: Job, venue: Venue) returns (r: Result<SleeveResult, EngineError>)
    requires given.Given()
    ensures r == Err(InsufficientBars) <==> |given.bars| < given.strategy.WarmupBars() + 2
    ensures |given.bars| >= given.strategy.WarmupBars() + 2 ==>
        (r == Err(LeverageOutOfRange) <==> given.leverage < 1.0 || given.leverage > if venue.VnEquity? then 2.0 else 1.0)
    ensures r.Ok? ==> given.InOrder().Valid()
    ensures r.Ok? ==> var st := SleeveAt(given.InOrder(), |given.bars|);
        r.value == SleeveResult(st.points, st.trades, st.fees, st.slippage, st.financing)
  {
    hide Times, FinancingCost, BuyQuantity, SleeveAt, Strategy.Signal, Normalize;
    var job := given.InOrder();
    var rows, costs := job.bars, job.costs;
    NormalizeSorts(given.bars);
    if |rows| < job.strategy.WarmupBars() + 2 {
      return Err(InsufficientBars);
    }
    if job.leverage < 1.0 || job.leverage > MaximumLeverage(venue) {
      return Err(LeverageOutOfRange);
    }
    var cash, quantity := job.capital, 0.0;
    var entryPrice, entryFee, entryOpen := 0.0, 0.0, 0.0;
    var entrySignal, entry := 0, 0;
    var pending: Option<PendingOrder> := None;
    var fees, slippage, financing, borrowed := 0.0, 0.0, 0.0, 0.0;
    var trades: seq<Trade>, points: seq<Point> := [], [];
    FirstBar(job);
    for i := 0 to |rows|
      invariant Sleeve(cash, quantity, entryPrice, entryFee, entryOpen, entrySignal, entry, pending,
                       fees, slippage, financing, borrowed, trades, points) == SleeveAt(job, i)
    {
      NextBar(job, i);
      ghost var before := SleeveAt(job, i);
      var row := rows[i];
      if i > 0 && quantity > 0.0 && borrowed > 0.0 {
        var cost := FinancingCost(borrowed, costs.FinancingRate(), row.ts - rows[i - 1].ts);
        cash := cash - cost;
        financing := financing + cost;
      }
      ghost var accrued := Accrue(job, before, i);
      assert accrued == Sleeve(cash, quantity, entryPrice, entryFee, entryOpen, entrySignal, entry, pending,
                               fees, slippage, financing, borrowed, trades, points);
      if pending.Some? {
        var PendingOrder(action, signal) := pending.value;
        if action.Buy? && quantity == 0.0 {
          FillPricesPositive(row.open, costs);
          var fill := BuyPrice(row.open, costs);
          quantity := BuyQuantity(Times(job.capital, job.leverage), fill, costs.FeeRate());
          entryFee := Commission(quantity, fill, costs.FeeRate());
          cash := cash - (Times(quantity, fill) + entryFee);
          borrowed := Max(0.0, Times(quantity, fill) + entryFee - job.capital);
          entryPrice := fill;
          entrySignal := signal;
          entry := i;
          entryOpen := row.open;
          fees := fees + entryFee;
          slippage := slippage + Times(quantity, fill - row.open);
        } else if action.Sell? && quantity > 0.0 {
          var fill := SellPrice(row.open, costs);
          var exitFee := Commission(quantity, fill, costs.FeeRate() + costs.TaxRate());
          var proceeds := Times(quantity, fill) - exitFee;
          cash := cash + proceeds;
          fees := fees + exitFee;
          slippage := slippage + Times(quantity, row.open - fill);
          var invested := Times(quantity, entryPrice) + entryFee;
          trades := trades + [Trade(entrySignal, entry, signal, i, quantity, entryOpen, row.open,
                                    entryFee + exitFee, proceeds - invested)];
          quantity, entryPrice, entryFee, entryOpen := 0.0, 0.0, 0.0, 0.0;
          entrySignal, entry, borrowed := 0, 0, 0.0;
        }
        pending := None;
      }
      assert Fill(job, accrued, i) == Sleeve(cash, quantity, entryPrice, entryFee, entryOpen, entrySignal, entry,
                                             pending, fees, slippage, financing, borrowed, trades, points);
      var marketValue := Times(quantity, row.close);
      points := points + [Point(cash, marketValue, cash + marketValue)];
      var signal := job.strategy.Signal(rows, i, quantity > 0.0);
      if signal.Some? {
        pending := Some(PendingOrder(signal.value, i));
      }
    }
    r := Ok(SleeveResult(points, trades, fees, slippage, financing));
  }

  // ---------------------------------------------------------------- cost accounting

  /** What the closed quantities gained between the unslipped opens. */
  ghost function OpenToOpenGain(trades: seq<Trade>): real {
    if trades == [] then 0.0
    else
      var t := trades[|trades| - 1];
      OpenToOpenGain(trades[..|trades| - 1]) + Times(t.quantity, t.exitOpen - t.entryOpen)
  }

  ghost function RealizedPnl(trades: seq<Trade>): real {
    if trades == [] then 0.0 else RealizedPnl(trades[..|trades| - 1]) + trades[|trades| - 1].realizedPnl
  }

  /** Every trade fills one bar after its signal and ends before the next begins. */
  ghost predicate TradesInOrder(trades: seq<Trade>) {
    && (forall k :: 0 <= k < |trades| ==> trades[k].entry == trades[k].entrySignal + 1)
    && (forall k :: 0 <= k < |trades| ==> trades[k].exit == trades[k].exitSignal + 1)
    && (forall k :: 0 <= k < |trades| ==> trades[k].entry < trades[k].exit && trades[k].quantity > 0.0)
    && (forall k, l :: 0 <= k < l < |trades| ==> trades[k].exit < trades[l].entry)
  }

  /** Where the money is after n bars. */
  ghost predicate Balanced(job: Job, st: Sleeve, n: nat) {
    && st.quantity >= 0.0
    && st.cash + st.fees + st.slippage + st.financing
       == job.capital + OpenToOpenGain(st.trades) - Times(st.quantity, st.entryOpen)
    && st.cash == job.capital + RealizedPnl(st.trades) - st.financing - (if st.quantity > 0.0 then job.Power() else 0.0)
    && (st.quantity > 0.0 ==> Times(st.quantity, st.entryPrice) + st.entryFee == job.Power())
    && (st.quantity > 0.0 ==> st.entry < n && st.entry == st.entrySignal + 1)
    && (st.quantity > 0.0 ==> forall k :: 0 <= k < |st.trades| ==> st.trades[k].exit < st.entry)
    && (st.pending.Some? ==> st.pending.value.signal + 1 == n)
    && (forall k :: 0 <= k < |st.trades| ==> st.trades[k].exit < n)
    && TradesInOrder(st.trades)
  }

  lemma AccrueBalances(job: Job, st: Sleeve, i: nat)
    requires job.Valid() && i < |job.bars| && Balanced(job, st, i)
    ensures Balanced(job, Accrue(job, st, i), i)
  {
    hide Times, FinancingCost;
  }

  lemma OpenBalances(job: Job, st: Sleeve, i: nat, signal: nat)
    requires job.Valid() && i < |job.bars| && Balanced(job, st, i)
    requires st.quantity == 0.0 && signal + 1 == i
    ensures Balanced(job, OpenPosition(job, st, i, signal), i + 1)
    ensures OpenPosition(job, st, i, signal).quantity > 0.0 && OpenPosition(job, st, i, signal).pending.None?
  {
    hide Times, BuyQuantity, BuyPrice, Commission;
    var open := job.bars[i].open;
    FillPricesPositive(open, job.costs);
    var fill := BuyPrice(open, job.costs);
    PowerPositive(job);
    BuySpendsBudget(job.Power(), fill, job.costs.FeeRate());
    var quantity := BuyQuantity(job.Power(), fill, job.costs.FeeRate());
    TimesAdd(quantity, fill - open, open);
    TimesOne(st.entryOpen);
  }

  lemma PowerPositive(job: Job)
    requires job.Valid()
    ensures job.Power() > 0.0
  {
    PositiveProduct(job.capital, job.leverage);
  }

  lemma CloseTrades(job: Job, st: Sleeve, i: nat, signal: nat)
    requires job.Valid() && i < |job.bars| && Balanced(job, st, i)
    requires st.quantity > 0.0 && signal + 1 == i
    ensures var trades := ClosePosition(job, st, i, signal).trades;
      && |trades| == |st.trades| + 1 && trades[..|st.trades|] == st.trades
      && TradesInOrder(trades) && forall k :: 0 <= k < |trades| ==> trades[k].exit < i + 1
  {
    hide Times, SellPrice, Commission, OpenToOpenGain, RealizedPnl;
  }

  /** The money a sale moves: what is lost to the fill price is booked as slippage. */
  lemma SaleMoney(quantity: real, open: real, fill: real, entryOpen: real)
    ensures Times(quantity, fill) + Times(quantity, open - fill) == Times(quantity, open - entryOpen) + Times(quantity, entryOpen)
  {
    hide Times;
    TimesAdd(quantity, open - fill, fill);
    TimesAdd(quantity, open - entryOpen, entryOpen);
  }

  lemma CloseMoney(job: Job, st: Sleeve, i: nat, signal: nat)
    requires job.Valid() && i < |job.bars| && Balanced(job, st, i)
    requires st.quantity > 0.0 && signal + 1 == i
    ensures var after := ClosePosition(job, st, i, signal);
      && after.cash + after.fees + after.slippage + after.financing == job.capital + OpenToOpenGain(after.trades)
      && after.cash == job.capital + RealizedPnl(after.trades) - after.financing
  {
    CloseTrades(job, st, i, signal);
    hide Times, SellPrice, Commission, TradesInOrder;
    SaleMoney(st.quantity, job.bars[i].open, SellPrice(job.bars[i].open, job.costs), st.entryOpen);
  }

  lemma CloseBalances(job: Job, st: Sleeve, i: nat, signal: nat)
    requires job.Valid() && i < |job.bars| && Balanced(job, st, i)
    requires st.quantity > 0.0 && signal + 1 == i
    ensures Balanced(job, ClosePosition(job, st, i, signal), i + 1)
    ensures ClosePosition(job, st, i, signal).pending.None?
  {
    hide Times, SellPrice, Commission, TradesInOrder, OpenToOpenGain, RealizedPnl;
    CloseTrades(job, st, i, signal);
    CloseMoney(job, st, i, signal);
    TimesOne(0.0);
  }

  /** A fill moves the books from bar i to bar i + 1, whatever the pending order. */
  lemma FillBalances(job: Job, st: Sleeve, i: nat)
    requires job.Valid() && i < |job.bars| && Balanced(job, st, i)
    ensures Balanced(job, Fill(job, st, i), i + 1) && Fill(job, st, i).pending.None?
  {
    hide Times, OpenPosition, ClosePosition;
    if st.pending.Some? && st.pending.value.action.Buy? && st.quantity == 0.0 {
      OpenBalances(job, st, i, st.pending.value.signal);
    } else if st.pending.Some? && st.pending.value.action.Sell? && st.quantity > 0.0 {
      CloseBalances(job, st, i, st.pending.value.signal);
    }
  }

  lemma StartBalances(job: Job)
    requires job.Valid()
    ensures Balanced(job, Start(job), 0)
  {
    TimesOne(0.0);
  }

  lemma DecideBalances(job: Job, st: Sleeve, i: nat)
    requires job.Valid() && i < |job.bars| && Balanced(job, st, i + 1)
    ensures Balanced(job, MarkAndDecide(job, st, i), i + 1)
  {
    hide Times, Strategy.Signal, OpenToOpenGain, RealizedPnl;
  }

  /** The accounting identities hold after every bar of every run. */
  lemma {:induction false} EngineAccounting(job: Job, n: nat)
    requires job.Valid() && n <= |job.bars|
    ensures Balanced(job, SleeveAt(job, n), n)
  {
    hide Times, Fill, Accrue, MarkAndDecide, Balanced, SleeveAt;
    if n == 0 {
      FirstBar(job);
      StartBalances(job);
    } else {
      NextBar(job, n - 1);
      var st := SleeveAt(job, n - 1);
      EngineAccounting(job, n - 1);
      AccrueBalances(job, st, n - 1);
      FillBalances(job, Accrue(job, st, n - 1), n - 1);
      DecideBalances(job, Fill(job, Accrue(job, st, n - 1), n - 1), n - 1);
    }
  }

  /** The point shows the cash, the position at the close, and both together. */
  ghost predicate Marked(p: Point, st: Sleeve, close: real) {
    p.cash == st.cash && p.marketValue == Times(st.quantity, close) && p.equity == p.cash + p.marketValue
  }

  /** The equity point of each bar is the state of the loop at that bar, marked at its close. */
  lemma {:induction false} PointsRecordStates(job: Job, n: nat)
    requires job.Valid() && n <= |job.bars|
    ensures |SleeveAt(job, n).points| == n
    ensures forall i :: 0 <= i < n ==>
        && SleeveAt(job, n).points[i] == PointOf(SleeveAt(job, i + 1), job.bars[i].close)
        && Marked(SleeveAt(job, n).points[i], SleeveAt(job, i + 1), job.bars[i].close)
  {
    hide Fill, Accrue, Times, Strategy.Signal, Job.Given;
    if n > 0 {
      PointsRecordStates(job, n - 1);
      AccrueKeepsPoints(job, SleeveAt(job, n - 1), n - 1);
      FillKeepsPoints(job, Accrue(job, SleeveAt(job, n - 1), n - 1), n - 1);
    }
  }

  lemma AccrueKeepsPoints(job: Job, st: Sleeve, i: nat)
    requires i < |job.bars|
    ensures Accrue(job, st, i).points == st.points
  {
  }

  lemma FillKeepsPoints(job: Job, st: Sleeve, i: nat)
    requires job.Valid() && i < |job.bars|
    ensures Fill(job, st, i).points == st.points
  {
  }

  /** What the closed and the open quantities gained, less all costs, is what equity gained. */
  lemma EquityIsExplained(job: Job, n: nat)
    requires job.Valid() && 0 < n <= |job.bars|
    ensures var st := SleeveAt(job, n);
      && |st.points| == n
      && st.points[n - 1].equity + st.fees + st.slippage + st.financing
         == job.capital + OpenToOpenGain(st.trades) + Times(st.quantity, job.bars[n - 1].close - st.entryOpen)
  {
    hide SleeveAt, Times, OpenToOpenGain, RealizedPnl, TradesInOrder;
    PointsRecordStates(job, n);
    EngineAccounting(job, n);
    var st := SleeveAt(job, n);
    assert Marked(st.points[n - 1], st, job.bars[n - 1].close);
    TimesAdd(st.quantity, job.bars[n - 1].close - st.entryOpen, st.entryOpen);
  }

  /** The fees shown with the closed trades. */
  ghost function TradeFees(trades: seq<Trade>): real {
    if trades == [] then 0.0 else TradeFees(trades[..|trades| - 1]) + trades[|trades| - 1].fees
  }

  lemma OneMoreTrade(trades: seq<Trade>, t: Trade)
    ensures TradeFees(trades + [t]) == TradeFees(trades) + t.fees
  {
    assert (trades + [t])[..|trades|] == trades;
  }

  lemma OpenFees(job: Job, st: Sleeve, i: nat, signal: nat)
    requires job.Valid() && i < |job.bars|
    ensures var after := OpenPosition(job, st, i, signal);
      after.fees == st.fees + after.entryFee && after.trades == st.trades && after.quantity > 0.0
  {
    hide Times, BuyPrice, BuyQuantity, Commission;
    FillPricesPositive(job.bars[i].open, job.costs);
    PowerPositive(job);
    BuySpendsBudget(job.Power(), BuyPrice(job.bars[i].open, job.costs), job.costs.FeeRate());
  }

  lemma CloseFees(job: Job, st: Sleeve, i: nat, signal: nat)
    requires i < |job.bars|
    ensures var after := ClosePosition(job, st, i, signal);
      && |after.trades| == |st.trades| + 1 && after.trades == st.trades + [after.trades[|st.trades|]]
      && after.fees - st.fees == after.trades[|st.trades|].fees - st.entryFee && after.entryFee == 0.0
  {
    hide Times, SellPrice, Commission;
  }

  lemma FillKeepsTradeFees(job: Job, st: Sleeve, i: nat)
    requires job.Valid() && i < |job.bars| && (st.quantity == 0.0 ==> st.entryFee == 0.0)
    requires st.fees == TradeFees(st.trades) + st.entryFee
    ensures var after := Fill(job, st, i);
      after.fees == TradeFees(after.trades) + after.entryFee && (after.quantity == 0.0 ==> after.entryFee == 0.0)
  {
    hide OpenPosition, ClosePosition, TradeFees, Job.Valid;
    if st.pending.Some? {
      var signal := st.pending.value.signal;
      OpenFees(job, st, i, signal);
      CloseFees(job, st, i, signal);
      OneMoreTrade(st.trades, ClosePosition(job, st, i, signal).trades[|st.trades|]);
    }
  }

  /** Every fee is shown with the trade it was paid for, or with the position still open. */
  lemma {:induction false} TradeFeesAddUp(job: Job, n: nat)
    requires job.Valid() && n <= |job.bars|
    ensures var st := SleeveAt(job, n);
      st.fees == TradeFees(st.trades) + st.entryFee && (st.quantity == 0.0 ==> st.entryFee == 0.0)
  {
    hide Fill, SleeveAt, TradeFees, FinancingCost, Strategy.Signal;
    if n == 0 {
      FirstBar(job);
      assert TradeFees([]) == 0.0 by { NoTradeFees(); }
    } else {
      NextBar(job, n - 1);
      var st := SleeveAt(job, n - 1);
      TradeFeesAddUp(job, n - 1);
      FillKeepsTradeFees(job, Accrue(job, st, n - 1), n - 1);
      DecideKeeps(job, Fill(job, Accrue(job, st, n - 1), n - 1), n - 1);
    }
  }

  lemma NoTradeFees()
    ensures TradeFees([]) == 0.0
  {
  }

  // ---------------------------------------------------------------- what costs do

  /** Money lent for a leveraged purchase. */
  function Loan(job: Job): real {
    Times(job.capital, job.leverage - 1.0)
  }

  /** No cost is ever negative, and the loan runs exactly while a position is open. */
  ghost predicate Costly(job: Job, st: Sleeve) {
    && st.fees >= 0.0 && st.slippage >= 0.0
    && st.borrowed == (if st.quantity > 0.0 then Loan(job) else 0.0)
    && st.quantity >= 0.0
  }

  lemma LoanIsPowerLessCapital(job: Job)
    requires job.Valid()
    ensures Loan(job) == job.Power() - job.capital && Loan(job) >= 0.0
  {
    hide Times;
    TimesOne(job.capital);
    TimesAdd(job.capital, 1.0, job.leverage - 1.0);
    TimesNonNegative(job.capital, job.leverage - 1.0);
  }

  lemma OpenIsCostly(job: Job, st: Sleeve, i: nat, signal: nat)
    requires job.Valid() && i < |job.bars| && Costly(job, st)
    ensures Costly(job, OpenPosition(job, st, i, signal))
  {
    hide Times, BuyPrice, BuyQuantity;
    var open := job.bars[i].open;
    FillPricesPositive(open, job.costs);
    var fill := BuyPrice(open, job.costs);
    var quantity := BuyQuantity(job.Power(), fill, job.costs.FeeRate());
    PowerPositive(job);
    BuySpendsBudget(job.Power(), fill, job.costs.FeeRate());
    LoanIsPowerLessCapital(job);
    SlippageCosts(open, job.costs);
    TimesNonNegative(quantity, fill);
    TimesNonNegative(Times(quantity, fill), job.costs.FeeRate());
    TimesNonNegative(quantity, fill - open);
  }

  lemma CloseIsCostly(job: Job, st: Sleeve, i: nat, signal: nat)
    requires job.Valid() && job.costs.slippageBps <= 10000.0 && i < |job.bars| && Costly(job, st)
    ensures Costly(job, ClosePosition(job, st, i, signal))
  {
    hide Times, Loan;
    var open := job.bars[i].open;
    SlippageCosts(open, job.costs);
    TimesNonNegative(open, 1.0 - job.costs.SlippageRate());
    var fill := SellPrice(open, job.costs);
    TimesNonNegative(st.quantity, fill);
    TimesNonNegative(Times(st.quantity, fill), job.costs.FeeRate() + job.costs.TaxRate());
    TimesNonNegative(st.quantity, open - fill);
  }

  lemma FillIsCostly(job: Job, st: Sleeve, i: nat)
    requires job.Valid() && job.costs.slippageBps <= 10000.0 && i < |job.bars| && Costly(job, st)
    ensures Costly(job, Fill(job, st, i))
  {
    hide OpenPosition, ClosePosition, Loan;
    if st.pending.Some? && st.pending.value.action.Buy? && st.quantity == 0.0 {
      OpenIsCostly(job, st, i, st.pending.value.signal);
    } else if st.pending.Some? && st.pending.value.action.Sell? && st.quantity > 0.0 {
      CloseIsCostly(job, st, i, st.pending.value.signal);
    }
  }

  lemma {:induction false} CostsAreCosts(job: Job, n: nat)
    requires job.Valid() && job.costs.slippageBps <= 10000.0 && n <= |job.bars|
    ensures Costly(job, SleeveAt(job, n))
  {
    hide Times, Fill, SleeveAt, FinancingCost;
    if n == 0 {
      FirstBar(job);
    } else {
      NextBar(job, n - 1);
      var st := SleeveAt(job, n - 1);
      CostsAreCosts(job, n - 1);
      FillIsCostly(job, Accrue(job, st, n - 1), n - 1);
      DecideKeeps(job, Fill(job, Accrue(job, st, n - 1), n - 1), n - 1);
    }
  }

  lemma DecideKeeps(job: Job, st: Sleeve, i: nat)
    requires job.Valid() && i < |job.bars|
    ensures var after := MarkAndDecide(job, st, i);
      && after == st.(points := after.points, pending := after.pending)
      && after.pending == match job.strategy.Signal(job.bars, i, st.quantity > 0.0)
                          case Some(action) => Some(PendingOrder(action, i))
                          case None => st.pending
  {
    hide Strategy.Signal;
  }

  /** For how many seconds a position was open before bar n. */
  ghost function HeldSeconds(job: Job, n: nat): int
    requires job.Valid() && n <= |job.bars|
  {
    if n <= 1 then 0
    else
      HeldSeconds(job, n - 1) + (if SleeveAt(job, n - 1).quantity > 0.0 then job.bars[n - 1].ts - job.bars[n - 2].ts else 0)
  }

  /** The yearly cost of the loan per second. */
  function LoanCostPerSecond(job: Job): real {
    Times(Loan(job), job.costs.financingBpsAnnual / 10000.0) / 31536000.0
  }

  lemma FinancingByTime(loan: real, rate: real, seconds: int)
    ensures FinancingCost(loan, rate, seconds) == Times(Times(loan, rate) / 31536000.0, seconds as real)
  {
    assert loan * rate * (seconds as real / 86400.0) / 365.0 == loan * rate * (seconds as real / 86400.0 / 365.0);
  }

  /** Financing is the loan at its yearly rate for exactly the time positions were open. */
  lemma {:induction false} FinancingIsTimeHeld(job: Job, n: nat)
    requires job.Valid() && job.costs.slippageBps <= 10000.0 && n <= |job.bars|
    ensures SleeveAt(job, n).financing == Times(LoanCostPerSecond(job), HeldSeconds(job, n) as real)
  {
    hide Times, Fill, SleeveAt, FinancingCost, Loan;
    TimesOne(LoanCostPerSecond(job));
    if n == 0 {
      FirstBar(job);
    } else {
      NextBar(job, n - 1);
      var st := SleeveAt(job, n - 1);
      FinancingIsTimeHeld(job, n - 1);
      CostsAreCosts(job, n - 1);
      if n == 1 {
        FirstBar(job);
      }
      FillKeepsFinancing(job, Accrue(job, st, n - 1), n - 1);
      DecideKeeps(job, Fill(job, Accrue(job, st, n - 1), n - 1), n - 1);
      if n > 1 && st.quantity > 0.0 {
        var seconds := job.bars[n - 1].ts - job.bars[n - 2].ts;
        FinancingByTime(st.borrowed, job.costs.FinancingRate(), seconds);
        TimesAdd(LoanCostPerSecond(job), HeldSeconds(job, n - 1) as real, seconds as real);
        LoanIsPowerLessCapital(job);
        if st.borrowed == 0.0 {
          TimesOne(job.costs.FinancingRate());
          TimesOne(seconds as real);
        }
      }
    }
  }

  lemma FillKeepsFinancing(job: Job, st: Sleeve, i: nat)
    requires job.Valid() && i < |job.bars|
    ensures Fill(job, st, i).financing == st.financing
  {
  }

  lemma {:induction false} TimePasses(job: Job, n: nat)
    requires job.Valid() && n <= |job.bars| && Ordered(job.bars)
    ensures HeldSeconds(job, n) >= 0
  {
    hide SleeveAt;
    if n > 1 {
      TimePasses(job, n - 1);
    }
  }

  /** Costs only take away: after every bar no cost is negative, and cash is at most what the same
      trades would have left without costs. */
  lemma CostsOnlyTakeAway(job: Job, n: nat)
    requires job.Valid() && job.costs.slippageBps <= 10000.0 && n <= |job.bars| && Ordered(job.bars)
    ensures var st := SleeveAt(job, n);
      && st.fees >= 0.0 && st.slippage >= 0.0 && st.financing >= 0.0
      && st.cash <= job.capital + OpenToOpenGain(st.trades) - Times(st.quantity, st.entryOpen)
  {
    hide Times, SleeveAt, OpenToOpenGain, RealizedPnl, TradesInOrder;
    CostsAreCosts(job, n);
    FinancingIsTimeHeld(job, n);
    EngineAccounting(job, n);
    TimePasses(job, n);
    LoanIsPowerLessCapital(job);
    TimesNonNegative(Loan(job), job.costs.FinancingRate());
    TimesNonNegative(LoanCostPerSecond(job), HeldSeconds(job, n) as real);
  }

  /** In a market without leverage nothing is ever borrowed. */
  lemma SpotBorrowsNothing(job: Job, venue: Venue, n: nat)
    requires job.Valid() && job.leverage <= MaximumLeverage(venue) && !venue.VnEquity?
    requires job.costs.slippageBps <= 10000.0 && n <= |job.bars|
    ensures SleeveAt(job, n).borrowed == 0.0 && SleeveAt(job, n).financing == 0.0
  {
    hide SleeveAt;
    CostsAreCosts(job, n);
    FinancingIsTimeHeld(job, n);
    TimesOne(job.capital);
    TimesOne(job.costs.FinancingRate());
    TimesOne(HeldSeconds(job, n) as real);
  }

  // ---------------------------------------------------------------- from signals to trades

  /** Every position was opened on a buy signal given while flat and every trade closed on a sell
      signal given while long. */
  ghost predicate OnSignals(job: Job, st: Sleeve)
    requires job.Valid()
  {
    && (st.quantity > 0.0 ==>
          && st.entrySignal < |job.bars| && job.strategy.Signal(job.bars, st.entrySignal, false) == Some(Buy)
          && st.entry < |job.bars| && st.entryOpen == job.bars[st.entry].open
          && Times(Times(st.quantity, st.entryOpen), PurchaseShare(job.costs)) == job.Power())
    && (st.pending.Some? ==>
          && st.pending.value.signal < |job.bars|
          && job.strategy.Signal(job.bars, st.pending.value.signal, st.quantity > 0.0) == Some(st.pending.value.action))
    && (forall k :: 0 <= k < |st.trades| ==> TradedOnSignals(job, st.trades[k]))
  }

  /** A trade bought with the whole power at the open after a buy signal, sold at the open after a sell
      signal, and realised what the sale left of its value there, less what was spent. */
  ghost predicate TradedOnSignals(job: Job, t: Trade)
    requires job.Valid()
  {
    && t.entrySignal < |job.bars| && job.strategy.Signal(job.bars, t.entrySignal, false) == Some(Buy)
    && t.exitSignal < |job.bars| && job.strategy.Signal(job.bars, t.exitSignal, true) == Some(Sell)
    && t.entry < |job.bars| && t.entryOpen == job.bars[t.entry].open
    && t.exit < |job.bars| && t.exitOpen == job.bars[t.exit].open
    && Times(Times(t.quantity, t.entryOpen), PurchaseShare(job.costs)) == job.Power()
    && t.realizedPnl == Times(Times(t.quantity, t.exitOpen), SaleShare(job.costs)) - job.Power()
  }

  lemma FillOnSignals(job: Job, st: Sleeve, i: nat)
    requires job.Valid() && i < |job.bars| && OnSignals(job, st) && Balanced(job, st, i)
    ensures OnSignals(job, Fill(job, st, i))
  {
    hide Times, BuyQuantity, Strategy.Signal, OpenToOpenGain, RealizedPnl, TradesInOrder, SaleShare, PurchaseShare, BuyPrice, SellPrice, Commission;
    PurchaseQuantity(job.Power(), job.bars[i].open, job.costs);
    if st.pending.Some? && st.pending.value.action.Sell? && st.quantity > 0.0 {
      SaleProceeds(st.quantity, job.bars[i].open, job.costs);
    }
  }

  lemma {:induction false} TradesFollowSignals(job: Job, n: nat)
    requires job.Valid() && n <= |job.bars|
    ensures OnSignals(job, SleeveAt(job, n))
  {
    hide Fill, SleeveAt, Strategy.Signal, TradedOnSignals, Balanced, FinancingCost;
    if n == 0 {
      FirstBar(job);
    } else {
      NextBar(job, n - 1);
      var st := SleeveAt(job, n - 1);
      TradesFollowSignals(job, n - 1);
      EngineAccounting(job, n - 1);
      AccrueBalances(job, st, n - 1);
      FillOnSignals(job, Accrue(job, st, n - 1), n - 1);
      FillBalances(job, Accrue(job, st, n - 1), n - 1);
      DecideKeeps(job, Fill(job, Accrue(job, st, n - 1), n - 1), n - 1);
    }
  }

  /** A buy signal given while flat is filled at the next bar, a sell signal given while long as well,
      and nothing else changes the position. */
  lemma SignalsAreFilled(job: Job, i: nat)
    requires job.Valid() && i + 1 < |job.bars|
    ensures var (st, next) := (SleeveAt(job, i + 1), SleeveAt(job, i + 2));
      var signal := job.strategy.Signal(job.bars, i, st.quantity > 0.0);
      && (st.quantity == 0.0 && signal == Some(Buy) ==>
            next.quantity > 0.0 && next.entry == i + 1 && next.entrySignal == i && next.trades == st.trades)
      && (st.quantity > 0.0 && signal == Some(Sell) ==>
            next.quantity == 0.0 && |next.trades| == |st.trades| + 1 && next.trades[..|st.trades|] == st.trades
            && next.trades[|st.trades|].exit == i + 1 && next.trades[|st.trades|].exitSignal == i)
      && (!(st.quantity == 0.0 && signal == Some(Buy)) && !(st.quantity > 0.0 && signal == Some(Sell)) ==>
            next.quantity == st.quantity && next.entry == st.entry && next.trades == st.trades)
  {
    hide Times, SleeveAt, Strategy.Signal, Balanced, FinancingCost, BuyQuantity, BuyPrice, SellPrice, Commission;
    var st := SleeveAt(job, i);
    NextBar(job, i);
    NextBar(job, i + 1);
    EngineAccounting(job, i);
    EngineAccounting(job, i + 1);
    NonNegativePosition(job, SleeveAt(job, i + 1), i + 1);
    AccrueBalances(job, st, i);
    FillBalances(job, Accrue(job, st, i), i);
    DecideKeeps(job, Fill(job, Accrue(job, st, i), i), i);
    DecideKeeps(job, Fill(job, Accrue(job, SleeveAt(job, i + 1), i + 1), i + 1), i + 1);
    FillPricesPositive(job.bars[i + 1].open, job.costs);
    PowerPositive(job);
    BuySpendsBudget(job.Power(), BuyPrice(job.bars[i + 1].open, job.costs), job.costs.FeeRate());
  }

  lemma NonNegativePosition(job: Job, st: Sleeve, n: nat)
    requires Balanced(job, st, n)
    ensures st.quantity >= 0.0
  {
  }

  // ---------------------------------------------------------------- no look-ahead

  /** Two runs whose bars agree on the first n have the same points, fills and orders there. */
  lemma {:induction false} NoLookAhead(job: Job, others: seq<Bar>, n: nat)
    requires job.Valid() && Priced(others) && Causal(job.strategy) && Agree(job.bars, others, n)
    ensures SleeveAt(job, n) == SleeveAt(job.(bars := others), n)
  {
    hide Accrue, Fill, MarkAndDecide, Causal;
    if n > 0 {
      var other := job.(bars := others);
      NoLookAhead(job, others, n - 1);
      BarSame(job, other, SleeveAt(job, n - 1), n - 1);
    }
  }

  lemma BarSame(job: Job, other: Job, st: Sleeve, i: nat)
    requires job.Valid() && other == job.(bars := other.bars) && Priced(other.bars)
    requires Causal(job.strategy) && Agree(job.bars, other.bars, i + 1)
    ensures Bar(job, st, i) == Bar(other, st, i)
  {
    hide Fill, Strategy.Signal;
    FillSame(job, other, Accrue(job, st, i), i);
    assert job.bars[..i + 1] == other.bars[..i + 1];
  }

  lemma FillSame(job: Job, other: Job, st: Sleeve, i: nat)
    requires job.Valid() && i < |job.bars| && i < |other.bars| && other == job.(bars := other.bars)
    requires Priced(other.bars) && job.bars[i] == other.bars[i]
    ensures Fill(job, st, i) == Fill(other, st, i)
  {
  }

  /** No catalog rule modelled here lets a backtest depend on bars it has not reached. */
  lemma CatalogBacktestsAreCausal(job: Job, others: seq<Bar>, n: nat)
    requires job.Valid() && Priced(others) && !job.strategy.Other? && Agree(job.bars, others, n)
    ensures SleeveAt(job, n) == SleeveAt(job.(bars := others), n)
  {
    CatalogIsCausal(job.strategy);
    NoLookAhead(job, others, n);
  }
}
