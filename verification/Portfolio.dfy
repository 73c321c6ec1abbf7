/** The portfolio ledger (quant-worker/backtest/portfolio.py): completed sleeve values, monthly
    contributions and periodic rebalancing at a cost. Decimals are exact reals. */
module Portfolio {
  import opened Prelude
  import Sorting
  import Market

  datatype Frequency = Never | Monthly | Quarterly | Yearly

  /** One completed sleeve valuation. */
  datatype Mark = Mark(ts: int, equity: real)

  /** A leg without a market stands in an unsupported one. */
  datatype Leg = Leg(symbol: string, bps: nat, notional: real, commissionBps: real, slippageBps: real, taxBps: real,
                     financingBps: real, market: Option<Market.Venue>, adjustment: string, marks: seq<Mark>) {
    function Rate(isBuy: bool): real {
      (commissionBps + slippageBps + (if isBuy then 0.0 else taxBps)) / 10000.0
    }
  }

  /** `month` numbers the calendar months of timestamps consecutively; `costed` are the markets with
      cost assumptions. */
  datatype Plan = Plan(capital: real, cashBps: nat, monthly: real, frequency: Frequency, fxPolicy: string,
                       dividendMode: string, costed: set<Market.Venue>, legs: seq<Leg>, month: int -> int) {
    predicate Valid() {
      && capital > 0.0 && monthly >= 0.0 && legs != [] && TotalBps(legs) + cashBps == 10000
      && (forall i, j | 0 <= i < j < |legs| :: legs[i].symbol != legs[j].symbol)
      && fxPolicy == "normalized_returns" && (dividendMode == "exclude" || dividendMode == "adjusted_prices")
      && (dividendMode == "adjusted_prices" ==> forall i | 0 <= i < |legs| :: legs[i].adjustment == "total_return")
      && (forall i | 0 <= i < |legs| :: legs[i].market.Some? && legs[i].market.value in costed)
      && (forall i | 0 <= i < |legs| :: ValidLeg(legs[i], capital))
    }

    /** The plan with its legs sorted by symbol. */
    function BySymbol(): Plan { this.(legs := Sorting.Sort(SymbolLeq, legs)) }

    function Period(ts: int): int {
      match frequency
      case Never => 0
      case Monthly => month(ts)
      case Quarterly => month(ts) / 3
      case Yearly => month(ts) / 12
    }
  }

  predicate SymbolLeq(a: Leg, b: Leg) {
    Sorting.StringLeq(a.symbol, b.symbol)
  }

  predicate ValidLeg(leg: Leg, capital: real) {
    && leg.marks != [] && leg.marks[0].equity > 0.0 && leg.notional == Share(capital, leg.bps)
    && leg.commissionBps >= 0.0 && leg.slippageBps >= 0.0 && leg.taxBps >= 0.0 && leg.financingBps >= 0.0
  }

  datatype PortfolioError = InvalidPlan | NonPositiveSleeve

  datatype Point = Point(ts: int, cash: real, marketValue: real, equity: real, drawdown: real)

  datatype Rebalance = Rebalance(ts: int, turnover: real, cost: real)

  datatype Ledger = Ledger(
    balances: seq<real>, cash: real, previous: seq<Option<real>>, lastMonth: Option<int>, lastPeriod: Option<int>,
    peak: real, maxDrawdown: real, contributions: real, rebalanceCost: real,
    points: seq<Point>, flows: seq<int>, rebalances: seq<Rebalance>)
  {
    function Equity(): real { cash + Sum(balances) }

    predicate Shaped(plan: Plan) { |balances| == |plan.legs| && |previous| == |plan.legs| }
  }

  function TotalBps(legs: seq<Leg>): nat {
    if legs == [] then 0 else TotalBps(legs[..|legs| - 1]) + legs[|legs| - 1].bps
  }

  function Share(value: real, bps: nat): real {
    Times(value, bps as real / 10000.0)
  }

  /** The valuation of a sleeve at a timestamp, the last one if it is repeated. */
  function MarkAt(marks: seq<Mark>, ts: int): Option<real> {
    if marks == [] then None
    else if marks[|marks| - 1].ts == ts then Some(marks[|marks| - 1].equity)
    else MarkAt(marks[..|marks| - 1], ts)
  }

  function MarkTimes(times: seq<int>, marks: seq<Mark>): seq<int> {
    if marks == [] then times else InsertAscending(MarkTimes(times, marks[..|marks| - 1]), marks[|marks| - 1].ts)
  }

  /** All timestamps of all sleeves, ascending. */
  function Timeline(legs: seq<Leg>): seq<int> {
    if legs == [] then [] else MarkTimes(Timeline(legs[..|legs| - 1]), legs[|legs| - 1].marks)
  }

  // ---------------------------------------------------------------- one timestamp

  function MarkedBalance(balance: real, previous: Option<real>, mark: Option<real>): real
    requires mark.Some? && previous.Some? ==> previous.value > 0.0
  {
    if mark.Some? && previous.Some? then Times(balance, mark.value / previous.value) else balance
  }

  predicate Markable(plan: Plan, st: Ledger, ts: int)
    requires st.Shaped(plan)
  {
    forall i | 0 <= i < |plan.legs| ::
      MarkAt(plan.legs[i].marks, ts).Some? && st.previous[i].Some? ==> st.previous[i].value > 0.0
  }

  /** The balances follow their sleeves. */
  function Marked(plan: Plan, st: Ledger, ts: int): (r: Ledger)
    requires st.Shaped(plan) && Markable(plan, st, ts)
    ensures r.Shaped(plan)
    ensures r == st.(balances := r.balances, previous := r.previous)
    ensures forall i :: 0 <= i < |r.balances| ==>
        r.balances[i] == MarkedBalance(st.balances[i], st.previous[i], MarkAt(plan.legs[i].marks, ts))
    ensures forall i :: 0 <= i < |r.balances| ==>
        r.previous[i] == if MarkAt(plan.legs[i].marks, ts).Some? then MarkAt(plan.legs[i].marks, ts) else st.previous[i]
  {
    st.(balances := seq(|plan.legs|, i requires 0 <= i < |plan.legs| =>
          MarkedBalance(st.balances[i], st.previous[i], MarkAt(plan.legs[i].marks, ts))),
        previous := seq(|plan.legs|, i requires 0 <= i < |plan.legs| =>
          if MarkAt(plan.legs[i].marks, ts).Some? then MarkAt(plan.legs[i].marks, ts) else st.previous[i]))
  }

  predicate Contributes(plan: Plan, st: Ledger, ts: int) {
    st.lastMonth.Some? && plan.month(ts) != st.lastMonth.value && plan.monthly > 0.0
  }

  /** The monthly amount is spread by allocation, before any rebalance. */
  function Contributed(plan: Plan, st: Ledger, ts: int): (r: Ledger)
    requires st.Shaped(plan)
    ensures r.Shaped(plan)
  {
    if !Contributes(plan, st, ts) then st.(lastMonth := Some(plan.month(ts)))
    else st.(balances := seq(|plan.legs|, i requires 0 <= i < |plan.legs| => st.balances[i] + Share(plan.monthly, plan.legs[i].bps)),
             cash := st.cash + Share(plan.monthly, plan.cashBps), contributions := st.contributions + plan.monthly,
             flows := st.flows + [ts], lastMonth := Some(plan.month(ts)))
  }

  predicate Rebalances(plan: Plan, st: Ledger, ts: int) {
    !plan.frequency.Never? && st.lastPeriod.Some? && plan.Period(ts) != st.lastPeriod.value
  }

  function Transfer(value: real, balance: real, leg: Leg): real {
    Share(value, leg.bps) - balance
  }

  function LegCost(value: real, balance: real, leg: Leg): real {
    Times(Abs(Transfer(value, balance, leg)), leg.Rate(Transfer(value, balance, leg) >= 0.0))
  }

  function NewBalance(value: real, balance: real, leg: Leg): real {
    Max(0.0, Share(value, leg.bps) - LegCost(value, balance, leg))
  }

  function NewBalances(plan: Plan, value: real, balances: seq<real>): (r: seq<real>)
    requires |balances| == |plan.legs|
    ensures |r| == |balances| && forall i :: 0 <= i < |r| ==> r[i] == NewBalance(value, balances[i], plan.legs[i])
  {
    seq(|balances|, i requires 0 <= i < |balances| => NewBalance(value, balances[i], plan.legs[i]))
  }

  function Costs(plan: Plan, value: real, balances: seq<real>): (r: seq<real>)
    requires |balances| == |plan.legs|
    ensures |r| == |balances| && forall i :: 0 <= i < |r| ==> r[i] == LegCost(value, balances[i], plan.legs[i])
  {
    seq(|balances|, i requires 0 <= i < |balances| => LegCost(value, balances[i], plan.legs[i]))
  }

  function Transfers(plan: Plan, value: real, balances: seq<real>): (r: seq<real>)
    requires |balances| == |plan.legs|
    ensures |r| == |balances| && forall i :: 0 <= i < |r| ==> r[i] == Abs(Transfer(value, balances[i], plan.legs[i]))
  {
    seq(|balances|, i requires 0 <= i < |balances| => Abs(Transfer(value, balances[i], plan.legs[i])))
  }

  function Rebalanced(plan: Plan, st: Ledger, ts: int): (r: Ledger)
    requires st.Shaped(plan)
    ensures r.Shaped(plan)
  {
    var period := if plan.frequency.Never? then st.lastPeriod else Some(plan.Period(ts));
    if !Rebalances(plan, st, ts) then st.(lastPeriod := period)
    else
      var value := st.Equity();
      var cost := Sum(Costs(plan, value, st.balances));
      st.(balances := NewBalances(plan, value, st.balances), cash := Share(value, plan.cashBps),
          rebalanceCost := st.rebalanceCost + cost, lastPeriod := period,
          rebalances := st.rebalances + [Rebalance(ts, Sum(Transfers(plan, value, st.balances)), cost)])
  }

  function Recorded(st: Ledger, ts: int): Ledger {
    var peak := Max(st.peak, st.Equity());
    var drawdown := Drawdown(st.Equity(), peak);
    st.(peak := peak, maxDrawdown := Min(st.maxDrawdown, drawdown),
        points := st.points + [Point(ts, st.cash, Sum(st.balances), st.Equity(), drawdown)])
  }

  function Step(plan: Plan, st: Ledger, ts: int): (r: Ledger)
    requires st.Shaped(plan) && Markable(plan, st, ts)
    ensures r.Shaped(plan)
  {
    Recorded(Rebalanced(plan, Contributed(plan, Marked(plan, st, ts), ts), ts), ts)
  }

  function Opening(plan: Plan): (r: Ledger)
    ensures r.Shaped(plan)
  {
    Ledger(seq(|plan.legs|, i requires 0 <= i < |plan.legs| => plan.legs[i].notional), Share(plan.capital, plan.cashBps),
           seq(|plan.legs|, i => None), None, None, plan.capital, 0.0, 0.0, 0.0, [], [], [])
  }

  function LedgerAfter(plan: Plan, times: seq<int>): (r: Result<Ledger, PortfolioError>)
    ensures r.Ok? ==> r.value.Shaped(plan)
  {
    if times == [] then Ok(Opening(plan))
    else
      var before := LedgerAfter(plan, times[..|times| - 1]);
      if before.Err? then before
      else if !Markable(plan, before.value, times[|times| - 1]) then Err(NonPositiveSleeve)
      else Ok(Step(plan, before.value, times[|times| - 1]))
  }

  function PortfolioOf(plan: Plan): Result<Ledger, PortfolioError> {
    if !plan.Valid() then Err(InvalidPlan) else LedgerAfter(plan, Timeline(plan.legs))
  }

  // ---------------------------------------------------------------- the loop

  method MarkLegs(plan: Plan, st: Ledger, ts: int) returns (r: Option<Ledger>)
    requires st.Shaped(plan)
    ensures r == if Markable(plan, st, ts) then Some(Marked(plan, st, ts)) else None
  {
    hide Times, MarkAt;
    var balances, previous := st.balances, st.previous;
    for i := 0 to |plan.legs|
      invariant |balances| == |previous| == |plan.legs|
      invariant forall k :: 0 <= k < i && MarkAt(plan.legs[k].marks, ts).Some? && st.previous[k].Some? ==> st.previous[k].value > 0.0
      invariant forall k :: 0 <= k < i ==> balances[k] == MarkedBalance(st.balances[k], st.previous[k], MarkAt(plan.legs[k].marks, ts))
      invariant forall k :: 0 <= k < i ==>
          previous[k] == if MarkAt(plan.legs[k].marks, ts).Some? then MarkAt(plan.legs[k].marks, ts) else st.previous[k]
      invariant forall k :: i <= k < |plan.legs| ==> balances[k] == st.balances[k] && previous[k] == st.previous[k]
    {
      var mark := MarkAt(plan.legs[i].marks, ts);
      if mark.Some? {
        if previous[i].Some? {
          if previous[i].value <= 0.0 {
            return None;
          }
          balances := balances[i := Times(balances[i], mark.value / previous[i].value)];
        }
        previous := previous[i := mark];
      }
    }
    assert balances == Marked(plan, st, ts).balances && previous == Marked(plan, st, ts).previous;
    r := Some(st.(balances := balances, previous := previous));
  }

  method AddContribution(plan: Plan, st: Ledger, ts: int) returns (r: Ledger)
    requires st.Shaped(plan)
    ensures r == Contributed(plan, st, ts)
  {
    hide Share;
    r := st;
    if st.lastMonth.Some? && plan.month(ts) != st.lastMonth.value && plan.monthly > 0.0 {
      var balances := st.balances;
      for i := 0 to |plan.legs|
        invariant |balances| == |plan.legs|
        invariant forall k :: 0 <= k < i ==> balances[k] == st.balances[k] + Share(plan.monthly, plan.legs[k].bps)
        invariant forall k :: i <= k < |plan.legs| ==> balances[k] == st.balances[k]
      {
        balances := balances[i := balances[i] + Share(plan.monthly, plan.legs[i].bps)];
      }
      assert balances == Contributed(plan, st, ts).balances;
      r := st.(balances := balances, cash := st.cash + Share(plan.monthly, plan.cashBps),
               contributions := st.contributions + plan.monthly, flows := st.flows + [ts]);
    }
    r := r.(lastMonth := Some(plan.month(ts)));
  }

  method RebalanceLegs(plan: Plan, st: Ledger, ts: int) returns (r: Ledger)
    requires st.Shaped(plan)
    ensures r == Rebalanced(plan, st, ts)
  {
    hide NewBalance, LegCost, Transfer, Share;
    r := st;
    var period := plan.Period(ts);
    if Rebalances(plan, st, ts) {
      var value := st.Equity();
      var balances: seq<real> := [];
      var turnover, cost := 0.0, 0.0;
      for i := 0 to |plan.legs|
        invariant |balances| == i && forall k :: 0 <= k < i ==> balances[k] == NewBalance(value, st.balances[k], plan.legs[k])
        invariant turnover == Sum(Transfers(plan, value, st.balances)[..i])
        invariant cost == Sum(Costs(plan, value, st.balances)[..i])
      {
        SumTake(Transfers(plan, value, st.balances), i);
        SumTake(Costs(plan, value, st.balances), i);
        turnover := turnover + Abs(Transfer(value, st.balances[i], plan.legs[i]));
        cost := cost + LegCost(value, st.balances[i], plan.legs[i]);
        balances := balances + [NewBalance(value, st.balances[i], plan.legs[i])];
      }
      assert balances == NewBalances(plan, value, st.balances);
      assert Transfers(plan, value, st.balances)[..|plan.legs|] == Transfers(plan, value, st.balances);
      assert Costs(plan, value, st.balances)[..|plan.legs|] == Costs(plan, value, st.balances);
      r := st.(balances := balances, cash := Share(value, plan.cashBps), rebalanceCost := st.rebalanceCost + cost,
               rebalances := st.rebalances + [Rebalance(ts, turnover, cost)]);
    }
    if !plan.frequency.Never? {
      r := r.(lastPeriod := Some(period));
    }
  }

  lemma {:induction false} LedgerFails(plan: Plan, times: seq<int>, n: nat)
    requires n <= |times| && LedgerAfter(plan, times[..n]).Err?
    ensures LedgerAfter(plan, times) == LedgerAfter(plan, times[..n])
  {
    if n == |times| {
      assert times[..n] == times;
    } else {
      assert times[..|times| - 1][..n] == times[..n];
      LedgerFails(plan, times[..|times| - 1], n);
    }
  }

  method RunPortfolio(given: Plan) returns (r: Result<Ledger, PortfolioError>)
    ensures r == PortfolioOf(given.BySymbol())
  {
    var plan := given.BySymbol();
    if !plan.Valid() {
      return Err(InvalidPlan);
    }
    r := RunLedger(plan);
  }

  method RunLedger(plan: Plan) returns (r: Result<Ledger, PortfolioError>)
    ensures r == LedgerAfter(plan, Timeline(plan.legs))
  {
    hide Markable, Marked, Contributed, Rebalanced, Recorded, MarkAt, Timeline;
    var times := Timeline(plan.legs);
    var st := Opening(plan);
    for i := 0 to |times|
      invariant LedgerAfter(plan, times[..i]) == Ok(st)
    {
      assert times[..i + 1][..i] == times[..i];
      var marked := MarkLegs(plan, st, times[i]);
      if marked.None? {
        LedgerFails(plan, times, i + 1);
        return Err(NonPositiveSleeve);
      }
      st := AddContribution(plan, marked.value, times[i]);
      st := RebalanceLegs(plan, st, times[i]);
      st := Recorded(st, times[i]);
    }
    assert times[..|times|] == times;
    r := Ok(st);
  }

  lemma SymbolsAreOrdered()
    ensures Sorting.TotalOrder(SymbolLeq)
  {
    forall a: Leg, b: Leg
      ensures SymbolLeq(a, b) || SymbolLeq(b, a)
    {
      Sorting.StringLeqTotal(a.symbol, b.symbol);
    }
    forall a: Leg, b: Leg, c: Leg | SymbolLeq(a, b) && SymbolLeq(b, c)
      ensures SymbolLeq(a, c)
    {
      Sorting.StringLeqTransitive(a.symbol, b.symbol, c.symbol);
    }
  }

  lemma SymbolsTell(legs: seq<Leg>, a: Leg, b: Leg)
    requires forall i, j :: 0 <= i < j < |legs| ==> legs[i].symbol != legs[j].symbol
    requires a in legs && b in legs && SymbolLeq(a, b) && SymbolLeq(b, a)
    ensures a == b
  {
    hide Sorting.StringLeq;
    Sorting.StringLeqAntisymmetric(a.symbol, b.symbol);
    var i :| 0 <= i < |legs| && legs[i] == a;
    var j :| 0 <= j < |legs| && legs[j] == b;
  }

  lemma SortedLegs(legs: seq<Leg>, others: seq<Leg>)
    requires multiset(legs) == multiset(others)
    requires forall i, j :: 0 <= i < j < |legs| ==> legs[i].symbol != legs[j].symbol
    ensures Sorting.Sort(SymbolLeq, legs) == Sorting.Sort(SymbolLeq, others)
  {
    hide *;
    SymbolsAreOrdered();
    Sorting.SortSorts(SymbolLeq, legs);
    Sorting.SortSorts(SymbolLeq, others);
    var sorted := Sorting.Sort(SymbolLeq, legs);
    forall a, b | a in sorted && b in sorted && SymbolLeq(a, b) && SymbolLeq(b, a)
      ensures a == b
    {
      SymbolsTell(legs, a, b);
    }
    Sorting.SortedUnique(SymbolLeq, sorted, Sorting.Sort(SymbolLeq, others));
  }

  /** With one leg per symbol, the order in which the legs are given does not matter. */
  lemma LegOrderIsIrrelevant(plan: Plan, legs: seq<Leg>)
    requires multiset(legs) == multiset(plan.legs)
    requires forall i, j :: 0 <= i < j < |legs| ==> legs[i].symbol != legs[j].symbol
    ensures PortfolioOf(plan.(legs := legs).BySymbol()) == PortfolioOf(plan.BySymbol())
  {
    hide PortfolioOf, Sorting.Sort;
    SortedLegs(legs, plan.legs);
  }

  // ---------------------------------------------------------------- shares add up

  lemma {:induction false} SharesAddUp(value: real, legs: seq<Leg>)
    ensures Sum(seq(|legs|, i requires 0 <= i < |legs| => Share(value, legs[i].bps))) == Share(value, TotalBps(legs))
  {
    var shares := seq(|legs|, i requires 0 <= i < |legs| => Share(value, legs[i].bps));
    hide Times;
    if legs == [] {
      TimesOne(value);
    } else {
      var init := legs[..|legs| - 1];
      SharesAddUp(value, init);
      assert shares[..|shares| - 1] == seq(|init|, i requires 0 <= i < |init| => Share(value, init[i].bps));
      TimesAdd(value, TotalBps(init) as real / 10000.0, legs[|legs| - 1].bps as real / 10000.0);
    }
  }

  function Shares(value: real, legs: seq<Leg>): (r: seq<real>)
    ensures |r| == |legs| && forall i :: 0 <= i < |r| ==> r[i] == Share(value, legs[i].bps)
  {
    seq(|legs|, i requires 0 <= i < |legs| => Share(value, legs[i].bps))
  }

  /** The shares of a value over all legs and cash are the value. */
  lemma WholeIsShared(plan: Plan, value: real)
    requires plan.Valid()
    ensures Sum(Shares(value, plan.legs)) + Share(value, plan.cashBps) == value
  {
    hide Times;
    SharesAddUp(value, plan.legs);
    assert Shares(value, plan.legs) == seq(|plan.legs|, i requires 0 <= i < |plan.legs| => Share(value, plan.legs[i].bps));
    TimesAdd(value, TotalBps(plan.legs) as real / 10000.0, plan.cashBps as real / 10000.0);
    assert TotalBps(plan.legs) as real / 10000.0 + plan.cashBps as real / 10000.0 == 1.0;
    TimesOne(value);
  }

  lemma {:induction false} SumAdd(a: seq<real>, b: seq<real>, c: seq<real>)
    requires |a| == |b| == |c| && forall i :: 0 <= i < |a| ==> c[i] == a[i] + b[i]
    ensures Sum(c) == Sum(a) + Sum(b)
  {
    if a != [] {
      SumAdd(a[..|a| - 1], b[..|b| - 1], c[..|c| - 1]);
    }
  }

  /** A contribution raises equity by exactly its amount. */
  lemma ContributionRaisesEquity(plan: Plan, st: Ledger, ts: int)
    requires plan.Valid() && st.Shaped(plan)
    ensures Contributed(plan, st, ts).Equity() == st.Equity() + (if Contributes(plan, st, ts) then plan.monthly else 0.0)
    ensures Contributed(plan, st, ts).contributions == st.contributions + (if Contributes(plan, st, ts) then plan.monthly else 0.0)
  {
    WholeIsShared(plan, plan.monthly);
    hide Share, Plan.Valid;
    if Contributes(plan, st, ts) {
      SumAdd(st.balances, Shares(plan.monthly, plan.legs), Contributed(plan, st, ts).balances);
    }
  }

  // ---------------------------------------------------------------- rebalancing

  /** What a cost beyond its target writes off for free. */
  function Excess(value: real, balance: real, leg: Leg): real {
    Max(0.0, LegCost(value, balance, leg) - Share(value, leg.bps))
  }

  function Excesses(plan: Plan, value: real, balances: seq<real>): (r: seq<real>)
    requires |balances| == |plan.legs|
    ensures |r| == |balances| && forall i :: 0 <= i < |r| ==> r[i] == Excess(value, balances[i], plan.legs[i])
  {
    seq(|balances|, i requires 0 <= i < |balances| => Excess(value, balances[i], plan.legs[i]))
  }

  /** After a rebalance, equity plus the reported cost is the old equity plus the excesses. */
  lemma RebalanceBalance(plan: Plan, st: Ledger, ts: int)
    requires plan.Valid() && st.Shaped(plan) && Rebalances(plan, st, ts)
    ensures Rebalanced(plan, st, ts).Equity() + Sum(Costs(plan, st.Equity(), st.balances)) ==
        st.Equity() + Sum(Excesses(plan, st.Equity(), st.balances))
  {
    var value := st.Equity();
    WholeIsShared(plan, value);
    hide Share, LegCost, Plan.Valid;
    var after, costs := NewBalances(plan, value, st.balances), Costs(plan, value, st.balances);
    var shares, excess := Shares(value, plan.legs), Excesses(plan, value, st.balances);
    var sums := seq(|after|, i requires 0 <= i < |after| => after[i] + costs[i]);
    SumAdd(after, costs, sums);
    SumAdd(shares, excess, sums);
  }

  lemma {:induction false} SumZeroIff(s: seq<real>)
    requires forall i :: 0 <= i < |s| ==> s[i] >= 0.0
    ensures Sum(s) >= 0.0
    ensures Sum(s) == 0.0 <==> forall i :: 0 <= i < |s| ==> s[i] == 0.0
  {
    if s != [] {
      SumZeroIff(s[..|s| - 1]);
      assert s == s[..|s| - 1] + [s[|s| - 1]];
    }
  }

  /** A rebalance lowers equity by at most its reported cost, and by exactly that cost if and only
      if no leg's cost exceeds its target. */
  lemma RebalanceLosesItsCost(plan: Plan, st: Ledger, ts: int)
    requires plan.Valid() && st.Shaped(plan) && Rebalances(plan, st, ts)
    ensures var (value, after) := (st.Equity(), Rebalanced(plan, st, ts));
      var cost := after.rebalances[|after.rebalances| - 1].cost;
      && after.rebalanceCost == st.rebalanceCost + cost
      && value - after.Equity() <= cost
      && (value - after.Equity() == cost <==>
            forall i :: 0 <= i < |plan.legs| ==> LegCost(value, st.balances[i], plan.legs[i]) <= Share(value, plan.legs[i].bps))
  {
    var value := st.Equity();
    RebalanceBalance(plan, st, ts);
    hide Share, LegCost, Plan.Valid, NewBalances;
    var excess := Excesses(plan, value, st.balances);
    SumZeroIff(excess);
    assert forall i :: 0 <= i < |excess| ==>
      (excess[i] == 0.0 <==> LegCost(value, st.balances[i], plan.legs[i]) <= Share(value, plan.legs[i].bps));
  }

  // ---------------------------------------------------------------- whole runs

  /** What the sleeves earned, timestamp by timestamp. */
  ghost function Gains(plan: Plan, times: seq<int>): real
    requires LedgerAfter(plan, times).Ok?
  {
    if times == [] then 0.0
    else
      var (init, ts) := (times[..|times| - 1], times[|times| - 1]);
      var before := LedgerAfter(plan, init).value;
      Gains(plan, init) + (Marked(plan, before, ts).Equity() - before.Equity())
  }

  /** The costs that clamping a balance at zero forgave. */
  ghost function Forgiven(plan: Plan, times: seq<int>): real
    requires LedgerAfter(plan, times).Ok?
  {
    if times == [] then 0.0
    else
      var (init, ts) := (times[..|times| - 1], times[|times| - 1]);
      var st := Contributed(plan, Marked(plan, LedgerAfter(plan, init).value, ts), ts);
      Forgiven(plan, init) + (if Rebalances(plan, st, ts) then Sum(Excesses(plan, st.Equity(), st.balances)) else 0.0)
  }

  /** Conservation: equity is capital, contributions and gains, less costs, plus forgiven costs. */
  lemma {:induction false} EquityBridge(plan: Plan, times: seq<int>)
    requires plan.Valid() && LedgerAfter(plan, times).Ok?
    ensures var st := LedgerAfter(plan, times).value;
      st.Equity() == plan.capital + st.contributions + Gains(plan, times) - st.rebalanceCost + Forgiven(plan, times)
  {
    if times == [] {
      WholeIsShared(plan, plan.capital);
      hide Share;
      assert Opening(plan).balances == Shares(plan.capital, plan.legs);
    } else {
      var (init, ts) := (times[..|times| - 1], times[|times| - 1]);
      var before := LedgerAfter(plan, init).value;
      EquityBridge(plan, init);
      StepBridge(plan, before, ts);
      hide Marked, Contributed, Rebalanced, Recorded, Markable, Rebalances, Excesses, Plan.Valid, Ledger.Equity;
    }
  }

  lemma StepBridge(plan: Plan, st: Ledger, ts: int)
    requires plan.Valid() && st.Shaped(plan) && Markable(plan, st, ts)
    ensures var marked := Marked(plan, st, ts);
      var paid := Contributed(plan, marked, ts);
      var after := Step(plan, st, ts);
      after.Equity() - after.contributions + after.rebalanceCost ==
        marked.Equity() - st.contributions + st.rebalanceCost
        + (if Rebalances(plan, paid, ts) then Sum(Excesses(plan, paid.Equity(), paid.balances)) else 0.0)
  {
    var marked := Marked(plan, st, ts);
    var paid := Contributed(plan, marked, ts);
    ContributionRaisesEquity(plan, marked, ts);
    ContributionKeepsCost(plan, marked, ts);
    RecordingKeepsMoney(Rebalanced(plan, paid, ts), ts);
    if Rebalances(plan, paid, ts) {
      RebalanceBalance(plan, paid, ts);
    }
    hide Marked, Contributed, Recorded, Markable, Rebalances, Excesses, Costs, NewBalances, Plan.Valid, Share;
  }

  lemma ContributionKeepsCost(plan: Plan, st: Ledger, ts: int)
    requires st.Shaped(plan)
    ensures Contributed(plan, st, ts).rebalanceCost == st.rebalanceCost && Contributed(plan, st, ts).rebalances == st.rebalances
    ensures Contributed(plan, st, ts).lastPeriod == st.lastPeriod && Contributed(plan, st, ts).lastMonth == Some(plan.month(ts))
    ensures Contributed(plan, st, ts).previous == st.previous && Contributed(plan, st, ts).points == st.points
    ensures Contributed(plan, st, ts).flows == if Contributes(plan, st, ts) then st.flows + [ts] else st.flows
    ensures Contributed(plan, st, ts).peak == st.peak && Contributed(plan, st, ts).maxDrawdown == st.maxDrawdown
  {
  }

  lemma RecordingKeepsMoney(st: Ledger, ts: int)
    ensures var after := Recorded(st, ts);
      after == st.(peak := after.peak, maxDrawdown := after.maxDrawdown, points := after.points)
  {
  }

  // ---------------------------------------------------------------- how often

  function Changes(keys: seq<int>): nat {
    if |keys| <= 1 then 0
    else Changes(keys[..|keys| - 1]) + (if keys[|keys| - 1] != keys[|keys| - 2] then 1 else 0)
  }

  function Months(plan: Plan, times: seq<int>): (r: seq<int>)
    ensures |r| == |times| && forall i :: 0 <= i < |r| ==> r[i] == plan.month(times[i])
  {
    seq(|times|, i requires 0 <= i < |times| => plan.month(times[i]))
  }

  function Periods(plan: Plan, times: seq<int>): (r: seq<int>)
    ensures |r| == |times| && forall i :: 0 <= i < |r| ==> r[i] == plan.Period(times[i])
  {
    seq(|times|, i requires 0 <= i < |times| => plan.Period(times[i]))
  }

  predicate NonDecreasing(keys: seq<int>) {
    forall i, j | 0 <= i < j < |keys| :: keys[i] <= keys[j]
  }

  function Values(keys: seq<int>): set<int> {
    set k | k in keys
  }

  lemma ValuesSnoc(keys: seq<int>, key: int)
    ensures Values(keys + [key]) == Values(keys) + {key}
  {
  }

  lemma LastIsGreatest(keys: seq<int>, key: int)
    requires NonDecreasing(keys + [key]) && keys != []
    ensures NonDecreasing(keys)
    ensures key in Values(keys) <==> key == keys[|keys| - 1]
  {
    var all := keys + [key];
    assert forall i :: 0 <= i < |keys| ==> all[i] == keys[i];
    assert all[|keys| - 1] <= all[|keys|];
  }

  /** Ordered keys change one time less than they have values. */
  lemma {:induction false} ChangesCountValues(keys: seq<int>)
    requires NonDecreasing(keys) && keys != []
    ensures |Values(keys)| == Changes(keys) + 1
  {
    var (init, last) := (keys[..|keys| - 1], keys[|keys| - 1]);
    assert keys == init + [last];
    ValuesSnoc(init, last);
    ChangesSnoc(keys, init);
    if init == [] {
      assert Values(init) == {};
    } else {
      LastIsGreatest(init, last);
      ChangesCountValues(init);
      hide Values, NonDecreasing, Changes;
      OneMore(Values(init), last);
    }
  }

  lemma OneMore(values: set<int>, key: int)
    ensures |values + {key}| == |values| + (if key in values then 0 else 1)
  {
    if key in values {
      assert values + {key} == values;
    }
  }

  lemma LedgerStep(plan: Plan, times: seq<int>)
    requires LedgerAfter(plan, times).Ok? && times != []
    ensures var (init, ts) := (times[..|times| - 1], times[|times| - 1]);
      && LedgerAfter(plan, init).Ok? && Markable(plan, LedgerAfter(plan, init).value, ts)
      && LedgerAfter(plan, times).value == Step(plan, LedgerAfter(plan, init).value, ts)
  {
  }

  lemma ChangesSnoc(keys: seq<int>, init: seq<int>)
    requires keys != [] && init == keys[..|keys| - 1]
    ensures Changes(keys) == Changes(init) + (if init != [] && keys[|keys| - 1] != init[|init| - 1] then 1 else 0)
  {
  }

  lemma KeysSnoc(plan: Plan, times: seq<int>)
    requires times != []
    ensures Months(plan, times)[..|times| - 1] == Months(plan, times[..|times| - 1])
    ensures Periods(plan, times)[..|times| - 1] == Periods(plan, times[..|times| - 1])
  {
  }

  /** The counters follow the calendar: one contribution for every change of month, one rebalance
      for every change of period. */
  ghost predicate CountersMatch(plan: Plan, times: seq<int>, st: Ledger) {
    && |st.flows| == (if plan.monthly > 0.0 then Changes(Months(plan, times)) else 0)
    && st.contributions == Times(|st.flows| as real, plan.monthly)
    && |st.rebalances| == (if plan.frequency.Never? then 0 else Changes(Periods(plan, times)))
    && st.lastMonth == (if times == [] then None else Some(plan.month(times[|times| - 1])))
    && st.lastPeriod == (if times == [] || plan.frequency.Never? then None else Some(plan.Period(times[|times| - 1])))
  }

  lemma {:induction false} Counters(plan: Plan, times: seq<int>)
    requires LedgerAfter(plan, times).Ok?
    ensures CountersMatch(plan, times, LedgerAfter(plan, times).value)
  {
    if times == [] {
      TimesOne(plan.monthly);
    } else {
      hide *;
      LedgerStep(plan, times);
      Counters(plan, times[..|times| - 1]);
      CountersStep(plan, times, LedgerAfter(plan, times[..|times| - 1]).value);
    }
  }

  lemma CountersStep(plan: Plan, times: seq<int>, st: Ledger)
    requires times != [] && st.Shaped(plan) && Markable(plan, st, times[|times| - 1])
    requires CountersMatch(plan, times[..|times| - 1], st)
    ensures CountersMatch(plan, times, Step(plan, st, times[|times| - 1]))
  {
    hide LedgerAfter, Step, Changes, Months, Periods, Marked, Markable, Times, Plan.Period, Contributed, Ledger.Shaped;
    var (init, ts) := (times[..|times| - 1], times[|times| - 1]);
    KeysSnoc(plan, times);
    ChangesSnoc(Months(plan, times), Months(plan, init));
    ChangesSnoc(Periods(plan, times), Periods(plan, init));
    StepCounters(plan, st, ts);
    TimesAdd(plan.monthly, |st.flows| as real, 1.0);
    TimesOne(plan.monthly);
  }

  lemma StepCounters(plan: Plan, st: Ledger, ts: int)
    requires st.Shaped(plan) && Markable(plan, st, ts)
    ensures var after := Step(plan, st, ts);
      && after.flows == (if Contributes(plan, st, ts) then st.flows + [ts] else st.flows)
      && after.contributions == st.contributions + (if Contributes(plan, st, ts) then plan.monthly else 0.0)
      && |after.rebalances| == |st.rebalances| + (if Rebalances(plan, st, ts) then 1 else 0)
      && after.lastMonth == Some(plan.month(ts))
      && after.lastPeriod == (if plan.frequency.Never? then st.lastPeriod else Some(plan.Period(ts)))
  {
    var marked := Marked(plan, st, ts);
    ContributionKeepsCost(plan, marked, ts);
    hide Markable, Costs, NewBalances, Transfers, Share;
  }

  lemma {:induction false} MarkTimesAscending(times: seq<int>, marks: seq<Mark>)
    requires Ascending(times)
    ensures Ascending(MarkTimes(times, marks))
    ensures forall t :: t in MarkTimes(times, marks) <==> t in times || MarkAt(marks, t).Some?
  {
    if marks != [] {
      MarkTimesAscending(times, marks[..|marks| - 1]);
      InsertAscendingKeeps(MarkTimes(times, marks[..|marks| - 1]), marks[|marks| - 1].ts);
    }
  }

  /** The timeline is ascending and lists exactly the timestamps some sleeve is valued at. */
  lemma {:induction false} TimelineIsUnion(legs: seq<Leg>)
    ensures Ascending(Timeline(legs))
    ensures forall t :: t in Timeline(legs) <==> exists i :: 0 <= i < |legs| && MarkAt(legs[i].marks, t).Some?
  {
    if legs != [] {
      var (init, last) := (legs[..|legs| - 1], legs[|legs| - 1]);
      TimelineIsUnion(init);
      MarkTimesAscending(Timeline(init), last.marks);
      assert forall i :: 0 <= i < |init| ==> init[i] == legs[i];
      forall t
        ensures t in Timeline(legs) <==> exists i :: 0 <= i < |legs| && MarkAt(legs[i].marks, t).Some?
      {
        if t in Timeline(init) {
          var i :| 0 <= i < |init| && MarkAt(init[i].marks, t).Some?;
          assert MarkAt(legs[i].marks, t).Some?;
        }
      }
    }
  }

  ghost predicate MonotoneMonths(plan: Plan) {
    forall a, b :: a <= b ==> plan.month(a) <= plan.month(b)
  }

  lemma KeysInOrder(plan: Plan, times: seq<int>)
    requires MonotoneMonths(plan) && Ascending(times)
    ensures NonDecreasing(Months(plan, times)) && NonDecreasing(Periods(plan, times))
  {
    forall i, j | 0 <= i < j < |times|
      ensures plan.month(times[i]) <= plan.month(times[j])
      ensures plan.Period(times[i]) <= plan.Period(times[j])
    {
    }
  }

  /** A run contributes once for every month after the first, and rebalances once for every period
      after the first. */
  lemma OncePerPeriod(plan: Plan)
    requires PortfolioOf(plan).Ok? && MonotoneMonths(plan) && Timeline(plan.legs) != []
    ensures var (st, times) := (PortfolioOf(plan).value, Timeline(plan.legs));
      && (plan.monthly > 0.0 ==> |st.flows| == |Values(Months(plan, times))| - 1)
      && st.contributions == Times(|st.flows| as real, plan.monthly)
      && (!plan.frequency.Never? ==> |st.rebalances| == |Values(Periods(plan, times))| - 1)
  {
    hide LedgerAfter, Plan.Valid, Timeline, Times, MonotoneMonths, Months, Periods, Values, Changes, Ascending, NonDecreasing;
    var times := Timeline(plan.legs);
    Counters(plan, times);
    TimelineIsUnion(plan.legs);
    KeysInOrder(plan, times);
    ChangesCountValues(Months(plan, times));
    ChangesCountValues(Periods(plan, times));
  }

  // ---------------------------------------------------------------- positive sleeves

  ghost predicate PositiveMarks(plan: Plan) {
    forall i, k :: 0 <= i < |plan.legs| && 0 <= k < |plan.legs[i].marks| ==> plan.legs[i].marks[k].equity > 0.0
  }

  lemma {:induction false} MarkPositive(marks: seq<Mark>, ts: int)
    requires forall k :: 0 <= k < |marks| ==> marks[k].equity > 0.0
    ensures MarkAt(marks, ts).Some? ==> MarkAt(marks, ts).value > 0.0
  {
    if marks != [] {
      MarkPositive(marks[..|marks| - 1], ts);
    }
  }

  ghost predicate NonNegative(s: seq<real>) {
    forall i :: 0 <= i < |s| ==> s[i] >= 0.0
  }

  ghost predicate Positives(s: seq<Option<real>>) {
    forall i :: 0 <= i < |s| && s[i].Some? ==> s[i].value > 0.0
  }

  ghost predicate Funded(plan: Plan, st: Ledger) {
    st.Shaped(plan) && st.cash >= 0.0 && NonNegative(st.balances) && Positives(st.previous)
  }

  lemma MarkedFunded(plan: Plan, st: Ledger, ts: int)
    requires PositiveMarks(plan) && Funded(plan, st)
    ensures Markable(plan, st, ts) && Funded(plan, Marked(plan, st, ts))
  {
    hide Times, MarkAt;
    forall i | 0 <= i < |plan.legs|
      ensures MarkAt(plan.legs[i].marks, ts).Some? ==> MarkAt(plan.legs[i].marks, ts).value > 0.0
      ensures Marked(plan, st, ts).balances[i] >= 0.0
    {
      MarkPositive(plan.legs[i].marks, ts);
      if MarkAt(plan.legs[i].marks, ts).Some? && st.previous[i].Some? {
        var ratio := MarkAt(plan.legs[i].marks, ts).value / st.previous[i].value;
        TimesNonNegative(st.balances[i], ratio);
      }
    }
  }

  lemma ShareNonNegative(value: real, bps: nat)
    requires value >= 0.0
    ensures Share(value, bps) >= 0.0
  {
    hide Times;
    TimesNonNegative(value, bps as real / 10000.0);
  }

  lemma ContributedFunded(plan: Plan, st: Ledger, ts: int)
    requires plan.Valid() && Funded(plan, st)
    ensures Funded(plan, Contributed(plan, st, ts))
  {
    hide Share;
    forall i | 0 <= i < |plan.legs|
      ensures Share(plan.monthly, plan.legs[i].bps) >= 0.0
    {
      ShareNonNegative(plan.monthly, plan.legs[i].bps);
    }
    ShareNonNegative(plan.monthly, plan.cashBps);
  }

  lemma RebalancedFunded(plan: Plan, st: Ledger, ts: int)
    requires Funded(plan, st)
    ensures Funded(plan, Rebalanced(plan, st, ts))
  {
    hide Share, LegCost, Transfers, Costs;
    SumZeroIff(st.balances);
    ShareNonNegative(st.Equity(), plan.cashBps);
  }

  /** The peak bounds every recorded equity, and every drawdown is a percentage of the peak. */
  ghost predicate Watermarks(plan: Plan, st: Ledger) {
    && st.peak >= plan.capital && -100.0 <= st.maxDrawdown <= 0.0
    && forall i :: 0 <= i < |st.points| ==>
        && 0.0 <= st.points[i].equity <= st.peak && st.points[i].equity == st.points[i].cash + st.points[i].marketValue
        && st.maxDrawdown <= st.points[i].drawdown <= 0.0
  }

  lemma DrawdownRange(equity: real, peak: real)
    requires 0.0 <= equity <= peak && peak > 0.0
    ensures -100.0 <= Drawdown(equity, peak) <= 0.0
  {
    assert 0.0 <= equity / peak <= 1.0;
  }

  lemma RecordedWatermarks(plan: Plan, st: Ledger, ts: int)
    requires plan.capital > 0.0 && Funded(plan, st) && Watermarks(plan, st)
    ensures Watermarks(plan, Recorded(st, ts)) && Funded(plan, Recorded(st, ts))
  {
    hide Drawdown;
    SumZeroIff(st.balances);
    DrawdownRange(st.Equity(), Max(st.peak, st.Equity()));
  }

  lemma MovesKeepWatermarks(plan: Plan, st: Ledger, ts: int)
    requires st.Shaped(plan) && Markable(plan, st, ts) && Watermarks(plan, st)
    ensures Watermarks(plan, Rebalanced(plan, Contributed(plan, Marked(plan, st, ts), ts), ts))
  {
    ContributionKeepsCost(plan, Marked(plan, st, ts), ts);
    hide Contributed, Markable, Costs, Transfers, NewBalances, Share;
  }

  /** With positive sleeve values the run never fails, no balance is ever negative, and peak and
      drawdown are what they claim. */
  lemma {:induction false} PositiveSleevesNeverFail(plan: Plan, times: seq<int>)
    requires plan.Valid() && PositiveMarks(plan)
    ensures LedgerAfter(plan, times).Ok?
    ensures Funded(plan, LedgerAfter(plan, times).value) && Watermarks(plan, LedgerAfter(plan, times).value)
  {
    if times == [] {
      hide Share;
      forall i | 0 <= i < |plan.legs|
        ensures plan.legs[i].notional >= 0.0
      {
        ShareNonNegative(plan.capital, plan.legs[i].bps);
      }
      ShareNonNegative(plan.capital, plan.cashBps);
    } else {
      var (init, ts) := (times[..|times| - 1], times[|times| - 1]);
      PositiveSleevesNeverFail(plan, init);
      var st := LedgerAfter(plan, init).value;
      assert plan.capital > 0.0;
      hide Funded, Watermarks, Plan.Valid, PositiveMarks, Marked, Contributed, Rebalanced, Recorded, Markable, Ledger.Shaped;
      MarkedFunded(plan, st, ts);
      MovesKeepWatermarks(plan, st, ts);
      ContributedFunded(plan, Marked(plan, st, ts), ts);
      RebalancedFunded(plan, Contributed(plan, Marked(plan, st, ts), ts), ts);
      RecordedWatermarks(plan, Rebalanced(plan, Contributed(plan, Marked(plan, st, ts), ts), ts), ts);
    }
  }

  /** The number of sleeve units a leg holds. */
  function Units(st: Ledger, i: nat): real
    requires i < |st.balances| && i < |st.previous| && st.previous[i].Some? && st.previous[i].value != 0.0
  {
    st.balances[i] / st.previous[i].value
  }

  predicate Quiet(plan: Plan, st: Ledger, ts: int) {
    !Contributes(plan, st, ts) && !Rebalances(plan, st, ts)
  }

  lemma QuietStep(plan: Plan, st: Ledger, ts: int, i: nat)
    requires PositiveMarks(plan) && Funded(plan, st) && Markable(plan, st, ts) && Quiet(plan, st, ts)
    requires i < |plan.legs| && st.previous[i].Some?
    ensures var after := Step(plan, st, ts);
      after.previous[i].Some? && after.previous[i].value > 0.0 && Units(after, i) == Units(st, i)
  {
    var mark := MarkAt(plan.legs[i].marks, ts);
    MarkPositive(plan.legs[i].marks, ts);
    var marked := Marked(plan, st, ts);
    hide Times;
    assert Contributed(plan, marked, ts) == marked.(lastMonth := Some(plan.month(ts)));
    assert Step(plan, st, ts).balances == marked.balances && Step(plan, st, ts).previous == marked.previous;
    if mark.Some? {
      ScaledUnits(st.balances[i], st.previous[i].value, mark.value);
    }
  }

  lemma ScaledUnits(balance: real, previous: real, mark: real)
    requires previous > 0.0 && mark > 0.0
    ensures Times(balance, mark / previous) / mark == balance / previous
  {
    assert Times(balance, mark / previous) == mark * (balance / previous);
  }

  /** No timestamp from index `from` on sees a contribution or a rebalance. */
  ghost predicate QuietSince(plan: Plan, times: seq<int>, from: nat) {
    || |times| <= from
    || (QuietSince(plan, times[..|times| - 1], from)
        && LedgerAfter(plan, times[..|times| - 1]).Ok?
        && Quiet(plan, LedgerAfter(plan, times[..|times| - 1]).value, times[|times| - 1]))
  }

  /** Between contributions and rebalances a leg holds a fixed number of units of its sleeve. */
  lemma {:induction false} UnitsAreFixed(plan: Plan, times: seq<int>, from: nat, i: nat)
    requires plan.Valid() && PositiveMarks(plan) && from <= |times| && i < |plan.legs| && QuietSince(plan, times, from)
    ensures LedgerAfter(plan, times).Ok? && LedgerAfter(plan, times[..from]).Ok?
    ensures var (st, base) := (LedgerAfter(plan, times).value, LedgerAfter(plan, times[..from]).value);
      base.previous[i].Some? ==>
        && st.previous[i].Some? && st.previous[i].value > 0.0 && base.previous[i].value > 0.0
        && Units(st, i) == Units(base, i)
  {
    hide *;
    PositiveSleevesNeverFail(plan, times);
    PositiveSleevesNeverFail(plan, times[..from]);
    FundedPrevious(plan, LedgerAfter(plan, times[..from]).value, i);
    if from == |times| {
      assert times[..from] == times;
    } else {
      var (init, ts) := (times[..|times| - 1], times[|times| - 1]);
      assert init[..from] == times[..from];
      QuietInit(plan, times, from);
      UnitsAreFixed(plan, init, from, i);
      PositiveSleevesNeverFail(plan, init);
      LedgerStep(plan, times);
      if LedgerAfter(plan, times[..from]).value.previous[i].Some? {
        QuietStep(plan, LedgerAfter(plan, init).value, ts, i);
      }
    }
  }

  lemma FundedPrevious(plan: Plan, st: Ledger, i: nat)
    requires Funded(plan, st) && i < |plan.legs|
    ensures i < |st.previous| && i < |st.balances| && (st.previous[i].Some? ==> st.previous[i].value > 0.0)
  {
  }

  lemma QuietInit(plan: Plan, times: seq<int>, from: nat)
    requires QuietSince(plan, times, from) && from < |times|
    ensures QuietSince(plan, times[..|times| - 1], from) && LedgerAfter(plan, times[..|times| - 1]).Ok?
    ensures Quiet(plan, LedgerAfter(plan, times[..|times| - 1]).value, times[|times| - 1])
  {
    hide LedgerAfter, Quiet;
  }

  // ---------------------------------------------------------------- what the assumptions mean

  /** Buying costs commission and slippage on what is moved, selling the tax as well. */
  lemma SidesOfATransfer(value: real, balance: real, leg: Leg)
    ensures var target := Share(value, leg.bps);
      && (target >= balance ==> LegCost(value, balance, leg) == Times(target - balance, (leg.commissionBps + leg.slippageBps) / 10000.0))
      && (target < balance ==>
            LegCost(value, balance, leg) == Times(balance - target, (leg.commissionBps + leg.slippageBps + leg.taxBps) / 10000.0))
  {
    hide Times;
  }

  /** With months numbered twelve to a year, quarters are three months of one year and years all twelve. */
  lemma PeriodsAreCalendar(plan: Plan, t: int, u: int, y: int, m: int, z: int, n: int)
    requires plan.month(t) == 12 * y + m && 0 <= m < 12 && plan.month(u) == 12 * z + n && 0 <= n < 12
    ensures match plan.frequency
      case Never => plan.Period(t) == plan.Period(u)
      case Monthly => plan.Period(t) == plan.Period(u) <==> y == z && m == n
      case Quarterly => plan.Period(t) == plan.Period(u) <==> y == z && m / 3 == n / 3
      case Yearly => plan.Period(t) == plan.Period(u) <==> y == z
  {
    QuarterAndYear(y, m);
    QuarterAndYear(z, n);
    if plan.frequency.Quarterly? {
      assert plan.Period(t) == 4 * y + m / 3 && plan.Period(u) == 4 * z + n / 3;
    }
  }

  lemma QuarterAndYear(y: int, m: int)
    requires 0 <= m < 12
    ensures (12 * y + m) / 3 == 4 * y + m / 3 && 0 <= m / 3 < 4
    ensures (12 * y + m) / 12 == y
  {
  }

  /** Without costs a rebalance puts every leg and the cash on its share of the equity, and loses nothing. */
  lemma FreeRebalanceHitsTargets(plan: Plan, st: Ledger, ts: int, i: nat)
    requires plan.Valid() && st.Shaped(plan) && Rebalances(plan, st, ts) && i < |plan.legs| && st.Equity() >= 0.0
    requires forall k :: 0 <= k < |plan.legs| ==> plan.legs[k].commissionBps == plan.legs[k].slippageBps == plan.legs[k].taxBps == 0.0
    ensures var after := Rebalanced(plan, st, ts);
      && Times(st.Equity(), plan.legs[i].bps as real) == Times(after.balances[i], 10000.0)
      && Times(st.Equity(), plan.cashBps as real) == Times(after.cash, 10000.0)
  {
    var (value, leg) := (st.Equity(), plan.legs[i]);
    SidesOfATransfer(value, st.balances[i], leg);
    TimesOne(Share(value, leg.bps) - st.balances[i]);
    TimesOne(st.balances[i] - Share(value, leg.bps));
    assert leg.commissionBps == 0.0;
    ShareNonNegative(value, leg.bps);
    ShareOfTenThousand(value, leg.bps);
    ShareOfTenThousand(value, plan.cashBps);
    hide Times, Share, LegCost, Plan.Valid;
  }

  lemma ShareOfTenThousand(value: real, bps: nat)
    ensures Times(Share(value, bps), 10000.0) == Times(value, bps as real)
  {
  }

  /** A contribution reaches every leg and the cash in proportion to its allocation. */
  lemma ContributionIsSpread(plan: Plan, st: Ledger, ts: int, i: nat)
    requires st.Shaped(plan) && i < |plan.legs| && Contributes(plan, st, ts)
    ensures var after := Contributed(plan, st, ts);
      && Times(after.balances[i] - st.balances[i], 10000.0) == Times(plan.monthly, plan.legs[i].bps as real)
      && Times(after.cash - st.cash, 10000.0) == Times(plan.monthly, plan.cashBps as real)
  {
    ShareOfTenThousand(plan.monthly, plan.legs[i].bps);
    ShareOfTenThousand(plan.monthly, plan.cashBps);
    hide Times, Share;
  }

  /** What makes a plan invalid. */
  predicate Refused(plan: Plan) {
    || plan.capital <= 0.0 || plan.monthly < 0.0 || plan.legs == []
    || plan.fxPolicy != "normalized_returns" || plan.dividendMode !in ["exclude", "adjusted_prices"]
    || TotalBps(plan.legs) + plan.cashBps != 10000
    || (exists i, j | 0 <= i < j < |plan.legs| :: plan.legs[i].symbol == plan.legs[j].symbol)
    || (exists i | 0 <= i < |plan.legs| :: RefusedLeg(plan, plan.legs[i]))
  }

  predicate RefusedLeg(plan: Plan, leg: Leg) {
    || leg.market.None? || leg.market.value !in plan.costed || leg.marks == [] || leg.marks[0].equity <= 0.0
    || Times(leg.notional, 10000.0) != Times(plan.capital, leg.bps as real)
    || leg.commissionBps < 0.0 || leg.slippageBps < 0.0 || leg.taxBps < 0.0 || leg.financingBps < 0.0
    || (plan.dividendMode == "adjusted_prices" && leg.adjustment != "total_return")
  }

  lemma NotionalIsShare(plan: Plan, leg: Leg)
    ensures leg.notional == Share(plan.capital, leg.bps) <==> Times(leg.notional, 10000.0) == Times(plan.capital, leg.bps as real)
  {
    ShareOfTenThousand(plan.capital, leg.bps);
  }

  /** A plan is refused exactly for these reasons. */
  lemma RefusedIff(plan: Plan)
    ensures PortfolioOf(plan) == Err(InvalidPlan) <==> Refused(plan)
  {
    forall i | 0 <= i < |plan.legs| {
      NotionalIsShare(plan, plan.legs[i]);
    }
    LedgerErrors(plan, Timeline(plan.legs));
    hide Times, Share, TotalBps, Timeline, LedgerAfter;
  }

  lemma {:induction false} LedgerErrors(plan: Plan, times: seq<int>)
    ensures LedgerAfter(plan, times) != Err(InvalidPlan)
  {
    hide Markable, Step;
    if times != [] {
      LedgerErrors(plan, times[..|times| - 1]);
    }
  }

  // ---------------------------------------------------------------- when a run fails

  /** The last value of a sleeve among the given times. */
  ghost function LastMark(marks: seq<Mark>, times: seq<int>): Option<real> {
    if times == [] then None
    else if MarkAt(marks, times[|times| - 1]).Some? then MarkAt(marks, times[|times| - 1])
    else LastMark(marks, times[..|times| - 1])
  }

  /** A sleeve has no positive value at one time and is valued again at a later one. */
  ghost predicate Breaks(marks: seq<Mark>, early: int, late: int) {
    MarkAt(marks, early).Some? && MarkAt(marks, early).value <= 0.0 && MarkAt(marks, late).Some?
  }

  ghost predicate LegBreaks(marks: seq<Mark>, times: seq<int>) {
    exists p, q :: 0 <= p < q < |times| && Breaks(marks, times[p], times[q])
  }

  ghost predicate SomeLegBreaks(plan: Plan, times: seq<int>) {
    exists i :: 0 <= i < |plan.legs| && LegBreaks(plan.legs[i].marks, times)
  }

  /** The value found for a time is that of the last mark given for it, if there is one. */
  lemma {:induction false} MarkAtIsLast(marks: seq<Mark>, ts: int, i: int)
    requires -1 <= i < |marks| && (i >= 0 ==> marks[i].ts == ts) && forall j :: i < j < |marks| ==> marks[j].ts != ts
    ensures MarkAt(marks, ts) == if i >= 0 then Some(marks[i].equity) else None
  {
    if i < |marks| - 1 {
      MarkAtIsLast(marks[..|marks| - 1], ts, i);
    }
  }

  lemma {:induction false} LastMarkIs(marks: seq<Mark>, times: seq<int>)
    ensures LastMark(marks, times).None? ==> forall p :: 0 <= p < |times| ==> MarkAt(marks, times[p]).None?
    ensures LastMark(marks, times).Some? ==>
        exists p :: 0 <= p < |times| && MarkAt(marks, times[p]) == LastMark(marks, times)
                 && forall later :: p < later < |times| ==> MarkAt(marks, times[later]).None?
  {
    if times != [] {
      hide MarkAt;
      var init := times[..|times| - 1];
      LastMarkIs(marks, init);
      if MarkAt(marks, times[|times| - 1]).None? && LastMark(marks, times).Some? {
        var p :| 0 <= p < |init| && MarkAt(marks, init[p]) == LastMark(marks, init)
              && forall later :: p < later < |init| ==> MarkAt(marks, init[later]).None?;
        assert times[p] == init[p];
      }
    }
  }

  lemma StepPrevious(plan: Plan, st: Ledger, ts: int)
    requires st.Shaped(plan) && Markable(plan, st, ts)
    ensures Step(plan, st, ts).previous == Marked(plan, st, ts).previous
  {
    hide Marked;
  }

  lemma {:induction false} PreviousIsLastMark(plan: Plan, times: seq<int>, i: nat)
    requires LedgerAfter(plan, times).Ok? && i < |plan.legs|
    ensures LedgerAfter(plan, times).value.previous[i] == LastMark(plan.legs[i].marks, times)
  {
    if times != [] {
      LedgerStep(plan, times);
      PreviousIsLastMark(plan, times[..|times| - 1], i);
      StepPrevious(plan, LedgerAfter(plan, times[..|times| - 1]).value, times[|times| - 1]);
      hide Step, LedgerAfter, MarkAt, Markable;
    }
  }

  /** Being valued once more breaks a sleeve exactly if its last value was not positive. */
  lemma BreaksSnoc(marks: seq<Mark>, times: seq<int>, ts: int)
    ensures LegBreaks(marks, times + [ts]) <==>
        LegBreaks(marks, times) || (MarkAt(marks, ts).Some? && LastMark(marks, times).Some? && LastMark(marks, times).value <= 0.0)
  {
    var all := times + [ts];
    hide MarkAt;
    LastMarkIs(marks, times);
    if LegBreaks(marks, times) {
      var p, q :| 0 <= p < q < |times| && Breaks(marks, times[p], times[q]);
      assert Breaks(marks, all[p], all[q]);
    }
    if MarkAt(marks, ts).Some? && LastMark(marks, times).Some? && LastMark(marks, times).value <= 0.0 {
      var p :| 0 <= p < |times| && MarkAt(marks, times[p]) == LastMark(marks, times);
      assert Breaks(marks, all[p], all[|times|]);
    }
    if LegBreaks(marks, all) {
      var p, q :| 0 <= p < q < |all| && Breaks(marks, all[p], all[q]);
      if q < |times| {
        assert Breaks(marks, times[p], times[q]);
      } else {
        var last :| 0 <= last < |times| && MarkAt(marks, times[last]) == LastMark(marks, times)
                 && forall later :: last < later < |times| ==> MarkAt(marks, times[later]).None?;
        assert p <= last && times[p] == all[p];
        assert p < last ==> Breaks(marks, times[p], times[last]);
      }
    }
  }

  lemma MarkableIff(plan: Plan, times: seq<int>, ts: int)
    requires LedgerAfter(plan, times).Ok? && !SomeLegBreaks(plan, times)
    ensures Markable(plan, LedgerAfter(plan, times).value, ts) <==> !SomeLegBreaks(plan, times + [ts])
  {
    hide LegBreaks, LedgerAfter, LastMark, MarkAt;
    forall i | 0 <= i < |plan.legs|
      ensures LedgerAfter(plan, times).value.previous[i] == LastMark(plan.legs[i].marks, times)
      ensures LegBreaks(plan.legs[i].marks, times + [ts]) <==>
          MarkAt(plan.legs[i].marks, ts).Some? && LastMark(plan.legs[i].marks, times).Some? && LastMark(plan.legs[i].marks, times).value <= 0.0
    {
      PreviousIsLastMark(plan, times, i);
      BreaksSnoc(plan.legs[i].marks, times, ts);
    }
  }

  /** A run fails exactly if some sleeve, after a value that was not positive, is valued once more. */
  lemma {:induction false} FailsIff(plan: Plan, times: seq<int>)
    ensures LedgerAfter(plan, times) == Err(NonPositiveSleeve) <==> SomeLegBreaks(plan, times)
    ensures LedgerAfter(plan, times).Ok? <==> !SomeLegBreaks(plan, times)
  {
    if times != [] {
      var (init, ts) := (times[..|times| - 1], times[|times| - 1]);
      assert times == init + [ts];
      FailsIff(plan, init);
      hide Step, Markable, LegBreaks;
      if LedgerAfter(plan, init).Ok? {
        MarkableIff(plan, init, ts);
      } else {
        StaysBroken(plan, init, ts);
      }
    }
  }

  lemma StaysBroken(plan: Plan, times: seq<int>, ts: int)
    requires SomeLegBreaks(plan, times)
    ensures SomeLegBreaks(plan, times + [ts])
  {
    var i :| 0 <= i < |plan.legs| && LegBreaks(plan.legs[i].marks, times);
    BreaksSnoc(plan.legs[i].marks, times, ts);
  }
}
