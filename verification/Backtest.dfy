/** The combined equity curve of a backtest (`run_strategy` in quant-worker/backtest/engine.py):
    every asset is simulated on an equal share of the capital, and each timestamp adds up the
    latest known point of every sleeve. Jobs stand in asset order. */
module Backtest {
  import opened Prelude
  import opened Market
  import opened Strategies
  import opened Engine

  /** One asset's bars with its simulated points. */
  datatype Curve = Curve(bars: seq<Market.Bar>, points: seq<Point>, capital: real) {
    predicate Valid() { |points| == |bars| && Increasing(bars) }

    function Opening(): Point { Point(capital, 0.0, capital) }
  }

  /** The point the asset has at a timestamp of its own. */
  function PointAt(bars: seq<Market.Bar>, points: seq<Point>, t: int): Option<Point>
    requires |points| == |bars|
  {
    if bars == [] then None
    else if bars[|bars| - 1].ts == t then Some(points[|points| - 1])
    else PointAt(bars[..|bars| - 1], points[..|points| - 1], t)
  }

  /** How many bars have been reached at time `t`. */
  function Reached(bars: seq<Market.Bar>, t: int): (n: nat)
    ensures n <= |bars|
  {
    if bars == [] then 0 else if bars[|bars| - 1].ts <= t then |bars| else Reached(bars[..|bars| - 1], t)
  }

  /** The last point at or before `t`, or the untouched capital. */
  function LatestPoint(c: Curve, t: int): Point
    requires c.Valid()
  {
    var n := Reached(c.bars, t);
    if n == 0 then c.Opening() else c.points[n - 1]
  }

  predicate AllValid(curves: seq<Curve>) {
    forall k | 0 <= k < |curves| :: curves[k].Valid()
  }

  function LatestPoints(curves: seq<Curve>, t: int): (r: seq<Point>)
    requires AllValid(curves)
    ensures |r| == |curves| && forall k :: 0 <= k < |r| ==> r[k] == LatestPoint(curves[k], t)
  {
    seq(|curves|, k requires 0 <= k < |curves| => LatestPoint(curves[k], t))
  }

  function Total(points: seq<Point>): Point {
    if points == [] then Point(0.0, 0.0, 0.0)
    else
      var (t, p) := (Total(points[..|points| - 1]), points[|points| - 1]);
      Point(t.cash + p.cash, t.marketValue + p.marketValue, t.cash + p.cash + (t.marketValue + p.marketValue))
  }

  function TimesOf(times: seq<int>, bars: seq<Market.Bar>): seq<int> {
    if bars == [] then times else InsertAscending(TimesOf(times, bars[..|bars| - 1]), bars[|bars| - 1].ts)
  }

  /** All timestamps of all assets, ascending. */
  function Timeline(curves: seq<Curve>): seq<int> {
    if curves == [] then [] else TimesOf(Timeline(curves[..|curves| - 1]), curves[|curves| - 1].bars)
  }

  predicate HasBarAt(bars: seq<Market.Bar>, t: int) {
    exists i | 0 <= i < |bars| :: bars[i].ts == t
  }

  lemma {:induction false} TimesOfUnion(times: seq<int>, bars: seq<Market.Bar>)
    requires Ascending(times)
    ensures Ascending(TimesOf(times, bars))
    ensures forall t :: t in TimesOf(times, bars) <==> t in times || HasBarAt(bars, t)
  {
    if bars != [] {
      TimesOfUnion(times, bars[..|bars| - 1]);
      InsertAscendingKeeps(TimesOf(times, bars[..|bars| - 1]), bars[|bars| - 1].ts);
      assert bars == bars[..|bars| - 1] + [bars[|bars| - 1]];
    }
  }

  /** The timeline lists each timestamp of some bar once, and nothing else. */
  lemma {:induction false} TimelineUnion(curves: seq<Curve>)
    ensures Ascending(Timeline(curves))
    ensures forall t :: t in Timeline(curves) <==> exists k :: 0 <= k < |curves| && HasBarAt(curves[k].bars, t)
  {
    if curves != [] {
      var (init, last) := (curves[..|curves| - 1], curves[|curves| - 1]);
      TimelineUnion(init);
      TimesOfUnion(Timeline(init), last.bars);
      hide HasBarAt, TimesOf;
      assert curves == init + [last];
    }
  }

  lemma {:induction false} ReachedExactly(bars: seq<Market.Bar>, t: int)
    requires Increasing(bars)
    ensures forall i :: 0 <= i < |bars| ==> (bars[i].ts <= t <==> i < Reached(bars, t))
  {
    if bars != [] && bars[|bars| - 1].ts > t {
      ReachedExactly(bars[..|bars| - 1], t);
    }
  }

  lemma {:induction false} PointAtIndex(bars: seq<Market.Bar>, points: seq<Point>, t: int)
    requires |points| == |bars| && Increasing(bars)
    ensures PointAt(bars, points, t).Some? ==> exists i :: 0 <= i < |bars| && bars[i].ts == t && PointAt(bars, points, t) == Some(points[i])
    ensures PointAt(bars, points, t).None? ==> forall i :: 0 <= i < |bars| ==> bars[i].ts != t
  {
    if bars != [] && bars[|bars| - 1].ts != t {
      var init := bars[..|bars| - 1];
      PointAtIndex(init, points[..|points| - 1], t);
      assert forall i :: 0 <= i < |init| ==> init[i] == bars[i] && points[..|points| - 1][i] == points[i];
    }
  }

  lemma {:induction false} ReachedSame(bars: seq<Market.Bar>, p: int, t: int)
    requires p <= t && forall i :: 0 <= i < |bars| && bars[i].ts <= t ==> bars[i].ts <= p
    ensures Reached(bars, p) == Reached(bars, t)
  {
    if bars != [] {
      ReachedSame(bars[..|bars| - 1], p, t);
    }
  }

  lemma {:induction false} ReachedNone(bars: seq<Market.Bar>, t: int)
    requires forall i :: 0 <= i < |bars| ==> bars[i].ts > t
    ensures Reached(bars, t) == 0
  {
    if bars != [] {
      ReachedNone(bars[..|bars| - 1], t);
    }
  }

  /** Carrying points forward over a timeline that misses no bar keeps the latest point. */
  lemma CarryForward(c: Curve, previous: Option<int>, t: int)
    requires c.Valid() && (previous.Some? ==> previous.value < t)
    requires forall i :: 0 <= i < |c.bars| && c.bars[i].ts < t ==> previous.Some? && c.bars[i].ts <= previous.value
    ensures LatestPoint(c, t) ==
        if PointAt(c.bars, c.points, t).Some? then PointAt(c.bars, c.points, t).value
        else if previous.None? then c.Opening() else LatestPoint(c, previous.value)
  {
    ReachedExactly(c.bars, t);
    PointAtIndex(c.bars, c.points, t);
    hide Reached, PointAt;
    if PointAt(c.bars, c.points, t).None? {
      if previous.Some? {
        ReachedSame(c.bars, previous.value, t);
      } else {
        ReachedNone(c.bars, t);
      }
    }
  }

  // ---------------------------------------------------------------- the loop

  datatype Summary = Summary(curve: seq<Point>, peak: real, maxDrawdown: real)

  /** The equity of each timestamp is the sum of the latest points of all sleeves. */
  function CurveOf(curves: seq<Curve>, times: seq<int>): (r: seq<Point>)
    requires AllValid(curves)
    ensures |r| == |times| && forall i :: 0 <= i < |r| ==> r[i] == Total(LatestPoints(curves, times[i]))
  {
    seq(|times|, i requires 0 <= i < |times| => Total(LatestPoints(curves, times[i])))
  }

  /** Highest equity so far and deepest drawdown below it. */
  function Watermark(initial: real, curve: seq<Point>): (real, real) {
    if curve == [] then (initial, 0.0)
    else
      var (peak, worst) := Watermark(initial, curve[..|curve| - 1]);
      var equity := curve[|curve| - 1].equity;
      (Max(peak, equity), Min(worst, Drawdown(equity, Max(peak, equity))))
  }

  /** The peak is the highest of the initial capital and all equities so far. */
  lemma {:induction false} PeakIsHighest(initial: real, curve: seq<Point>)
    ensures var peak := Watermark(initial, curve).0;
      && peak >= initial && (forall i :: 0 <= i < |curve| ==> peak >= curve[i].equity)
      && (peak == initial || exists i :: 0 <= i < |curve| && peak == curve[i].equity)
  {
    hide Drawdown;
    if curve != [] {
      PeakIsHighest(initial, curve[..|curve| - 1]);
      assert curve == curve[..|curve| - 1] + [curve[|curve| - 1]];
    }
  }

  /** The maximum drawdown is the deepest loss below the peak reached by then, or none. */
  lemma {:induction false} DrawdownIsDeepest(initial: real, curve: seq<Point>)
    requires initial > 0.0
    ensures var worst := Watermark(initial, curve).1;
      && worst <= 0.0
      && (forall i :: 0 <= i < |curve| ==> worst <= Drawdown(curve[i].equity, Watermark(initial, curve[..i + 1]).0))
      && (worst == 0.0 || exists i :: 0 <= i < |curve| && worst == Drawdown(curve[i].equity, Watermark(initial, curve[..i + 1]).0))
  {
    hide Drawdown;
    if curve != [] {
      var init := curve[..|curve| - 1];
      DrawdownIsDeepest(initial, init);
      assert forall i :: 0 <= i < |init| ==> init[..i + 1] == curve[..i + 1] && init[i] == curve[i];
      assert curve[..|curve|] == curve;
    }
  }

  /** The combined point adds up cash and market value of the sleeves, and its equity is their sum. */
  lemma {:induction false} TotalAddsUp(points: seq<Point>)
    ensures Total(points).cash == Sum(seq(|points|, i requires 0 <= i < |points| => points[i].cash))
    ensures Total(points).marketValue == Sum(seq(|points|, i requires 0 <= i < |points| => points[i].marketValue))
    ensures Total(points).equity == Total(points).cash + Total(points).marketValue
  {
    if points != [] {
      var init := points[..|points| - 1];
      TotalAddsUp(init);
      var cash := seq(|points|, i requires 0 <= i < |points| => points[i].cash);
      var value := seq(|points|, i requires 0 <= i < |points| => points[i].marketValue);
      assert cash[..|init|] == seq(|init|, i requires 0 <= i < |init| => init[i].cash);
      assert value[..|init|] == seq(|init|, i requires 0 <= i < |init| => init[i].marketValue);
    }
  }

  method TotalOf(points: seq<Point>) returns (total: Point)
    ensures total == Total(points)
  {
    var cash, marketValue := 0.0, 0.0;
    for k := 0 to |points|
      invariant Total(points[..k]) == Point(cash, marketValue, cash + marketValue)
    {
      assert points[..k + 1][..k] == points[..k];
      cash := cash + points[k].cash;
      marketValue := marketValue + points[k].marketValue;
    }
    assert points[..|points|] == points;
    total := Point(cash, marketValue, cash + marketValue);
  }

  /** Replaces the points of the assets that have one at `t`. */
  method Refresh(curves: seq<Curve>, before: seq<Point>, previous: Option<int>, t: int) returns (latest: seq<Point>)
    requires AllValid(curves) && |before| == |curves| && (previous.Some? ==> previous.value < t)
    requires forall k, i :: 0 <= k < |curves| && 0 <= i < |curves[k].bars| && curves[k].bars[i].ts < t ==>
        previous.Some? && curves[k].bars[i].ts <= previous.value
    requires forall k :: 0 <= k < |curves| ==>
        before[k] == if previous.None? then curves[k].Opening() else LatestPoint(curves[k], previous.value)
    ensures latest == LatestPoints(curves, t)
  {
    latest := before;
    for k := 0 to |curves|
      invariant |latest| == |curves|
      invariant forall j :: 0 <= j < k ==> latest[j] == LatestPoint(curves[j], t)
      invariant forall j :: k <= j < |curves| ==> latest[j] == before[j]
    {
      CarryForward(curves[k], previous, t);
      var point := PointAt(curves[k].bars, curves[k].points, t);
      if point.Some? {
        latest := latest[k := point.value];
      }
    }
  }

  method CombineCurves(curves: seq<Curve>, initial: real) returns (r: Summary)
    requires AllValid(curves)
    ensures r.curve == CurveOf(curves, Timeline(curves))
    ensures (r.peak, r.maxDrawdown) == Watermark(initial, r.curve)
  {
    hide LatestPoint, Total, Drawdown, Timeline;
    var times := Timeline(curves);
    TimelineUnion(curves);
    var latest := seq(|curves|, k requires 0 <= k < |curves| => curves[k].Opening());
    var curve: seq<Point> := [];
    var (peak, worst) := (initial, 0.0);
    for i := 0 to |times|
      invariant |curve| == i && forall j :: 0 <= j < i ==> curve[j] == Total(LatestPoints(curves, times[j]))
      invariant |latest| == |curves| && forall k :: 0 <= k < |curves| ==>
          latest[k] == if i == 0 then curves[k].Opening() else LatestPoint(curves[k], times[i - 1])
      invariant (peak, worst) == Watermark(initial, curve)
    {
      var previous := if i == 0 then None else Some(times[i - 1]);
      NoBarBetween(curves, times, i);
      latest := Refresh(curves, latest, previous, times[i]);
      var total := TotalOf(latest);
      peak := Max(peak, total.equity);
      worst := Min(worst, Drawdown(total.equity, peak));
      assert (curve + [total])[..|curve|] == curve;
      curve := curve + [total];
    }
    r := Summary(curve, peak, worst);
  }

  lemma NoBarBetween(curves: seq<Curve>, times: seq<int>, n: nat)
    requires times == Timeline(curves) && n < |times|
    ensures n > 0 ==> times[n - 1] < times[n]
    ensures forall k, i :: 0 <= k < |curves| && 0 <= i < |curves[k].bars| && curves[k].bars[i].ts < times[n] ==>
        n > 0 && curves[k].bars[i].ts <= times[n - 1]
  {
    TimelineUnion(curves);
    hide Timeline;
    forall k, i | 0 <= k < |curves| && 0 <= i < |curves[k].bars| && curves[k].bars[i].ts < times[n]
      ensures n > 0 && curves[k].bars[i].ts <= times[n - 1]
    {
      assert HasBarAt(curves[k].bars, curves[k].bars[i].ts);
      assert curves[k].bars[i].ts in times;
      var j :| 0 <= j < |times| && times[j] == curves[k].bars[i].ts;
      assert j < n;
    }
  }

  // ---------------------------------------------------------------- simulated curves

  predicate Runnable(job: Job) {
    job.Valid() && Increasing(job.bars)
  }

  predicate AllRunnable(jobs: seq<Job>) {
    forall k | 0 <= k < |jobs| :: Runnable(jobs[k])
  }

  function CurveFrom(job: Job): (c: Curve)
    requires Runnable(job)
    ensures c.Valid() && c.bars == job.bars && c.capital == job.capital
  {
    PointsRecordStates(job, |job.bars|);
    Curve(job.bars, SleeveAt(job, |job.bars|).points, job.capital)
  }

  function Curves(jobs: seq<Job>): (r: seq<Curve>)
    requires AllRunnable(jobs)
    ensures |r| == |jobs| && AllValid(r) && forall k :: 0 <= k < |r| ==> r[k] == CurveFrom(jobs[k])
  {
    seq(|jobs|, k requires 0 <= k < |jobs| => CurveFrom(jobs[k]))
  }

  /** The latest point is the state of the simulation after the bars reached so far. */
  lemma LatestIsState(job: Job, t: int)
    requires Runnable(job)
    ensures var n := Reached(job.bars, t);
      LatestPoint(CurveFrom(job), t) ==
        if n == 0 then Point(job.capital, 0.0, job.capital) else PointOf(SleeveAt(job, n), job.bars[n - 1].close)
  {
    hide SleeveAt, PointOf, Reached;
    PointsRecordStates(job, |job.bars|);
  }

  /** The bars up to `t` are the same. */
  ghost predicate SameUntil(one: seq<Market.Bar>, other: seq<Market.Bar>, t: int) {
    Reached(one, t) == Reached(other, t) && Agree(one, other, Reached(other, t))
  }

  lemma SameEarlier(one: seq<Market.Bar>, other: seq<Market.Bar>, t: int, p: int)
    requires Increasing(one) && Increasing(other) && SameUntil(one, other, t) && p <= t
    ensures SameUntil(one, other, p)
    ensures HasBarAt(one, p) <==> HasBarAt(other, p)
  {
    ReachesAsMuch(one, other, t, p);
    ReachesAsMuch(other, one, t, p);
    ReachedExactly(one, p);
    ReachedExactly(other, p);
  }

  lemma ReachesAsMuch(one: seq<Market.Bar>, other: seq<Market.Bar>, t: int, p: int)
    requires Increasing(one) && Increasing(other) && SameUntil(one, other, t) && p <= t
    ensures Reached(one, p) <= Reached(other, p) && Reached(one, p) <= Reached(one, t)
    ensures forall i :: 0 <= i < Reached(one, t) ==> i < |one| && i < |other| && one[i] == other[i]
  {
    ReachedExactly(one, t);
    ReachedExactly(one, p);
    ReachedExactly(other, p);
    var n := Reached(one, p);
    forall i | 0 <= i < Reached(one, t)
      ensures i < |one| && i < |other| && one[i] == other[i]
    {
      assert one[..Reached(one, t)][i] == one[i] && other[..Reached(one, t)][i] == other[i];
    }
    if n > 0 {
      assert one[n - 1].ts <= p;
    }
  }

  /** How many of the times are at most `t`. */
  function Until(times: seq<int>, t: int): (n: nat)
    ensures n <= |times|
  {
    if times == [] then 0 else if times[|times| - 1] <= t then |times| else Until(times[..|times| - 1], t)
  }

  lemma {:induction false} UntilExactly(times: seq<int>, t: int)
    requires Ascending(times)
    ensures forall i :: 0 <= i < |times| ==> (times[i] <= t <==> i < Until(times, t))
  {
    if times != [] && times[|times| - 1] > t {
      UntilExactly(times[..|times| - 1], t);
    }
  }

  lemma InitElements(s: seq<int>, x: int)
    requires Ascending(s) && s != []
    ensures x in s[..|s| - 1] <==> x in s && x != s[|s| - 1]
  {
    assert s == s[..|s| - 1] + [s[|s| - 1]];
  }

  /** Ascending lists of the same numbers are the same. */
  lemma {:induction false} AscendingUnique(s: seq<int>, r: seq<int>)
    requires Ascending(s) && Ascending(r) && (forall x :: x in s ==> x in r) && (forall x :: x in r ==> x in s)
    ensures s == r
  {
    if s == [] {
      if r != [] {
        SameGreatest(r, s);
      }
    } else {
      SameGreatest(s, r);
      var (initS, initR) := (s[..|s| - 1], r[..|r| - 1]);
      assert s == initS + [s[|s| - 1]] && r == initR + [r[|r| - 1]];
      forall x | x in initS
        ensures x in initR
      {
        InitElements(s, x);
        InitElements(r, x);
      }
      forall x | x in initR
        ensures x in initS
      {
        InitElements(s, x);
        InitElements(r, x);
      }
      AscendingUnique(initS, initR);
    }
  }

  lemma SameGreatest(s: seq<int>, r: seq<int>)
    requires Ascending(s) && Ascending(r) && (forall x :: x in s ==> x in r) && (forall x :: x in r ==> x in s)
    requires s != []
    ensures r != [] && s[|s| - 1] == r[|r| - 1]
  {
    assert s[0] in s && s[0] in r;
    assert s[|s| - 1] in r && r[|r| - 1] in s;
  }

  /** The times up to `t` of two timelines whose bars agree until then. */
  lemma SameTimes(curves: seq<Curve>, others: seq<Curve>, t: int)
    requires |curves| == |others| && AllValid(curves) && AllValid(others)
    requires forall k :: 0 <= k < |curves| ==> SameUntil(curves[k].bars, others[k].bars, t)
    ensures Timeline(curves)[..Until(Timeline(curves), t)] == Timeline(others)[..Until(Timeline(others), t)]
  {
    var (one, other) := (Timeline(curves), Timeline(others));
    TimelineUnion(curves);
    TimelineUnion(others);
    UntilExactly(one, t);
    UntilExactly(other, t);
    hide Timeline, Until, HasBarAt, Reached, SameUntil;
    forall x
      ensures x in one[..Until(one, t)] <==> x in other[..Until(other, t)]
    {
      if x <= t {
        forall k | 0 <= k < |curves| {
          SameEarlier(curves[k].bars, others[k].bars, t, x);
        }
      }
      assert x in one[..Until(one, t)] <==> x in one && x <= t;
      assert x in other[..Until(other, t)] <==> x in other && x <= t;
    }
    AscendingUnique(one[..Until(one, t)], other[..Until(other, t)]);
  }

  function WithBars(jobs: seq<Job>, others: seq<seq<Market.Bar>>): (r: seq<Job>)
    requires |others| == |jobs|
    ensures |r| == |jobs| && forall k :: 0 <= k < |jobs| ==> r[k] == jobs[k].(bars := others[k])
  {
    seq(|jobs|, k requires 0 <= k < |jobs| => jobs[k].(bars := others[k]))
  }

  /** The combined curve up to time `t`: its timestamps and its points. */
  function CurveUntil(jobs: seq<Job>, t: int): (seq<int>, seq<Point>)
    requires AllRunnable(jobs)
  {
    var times := Timeline(Curves(jobs));
    (times[..Until(times, t)], CurveOf(Curves(jobs), times)[..Until(times, t)])
  }

  /** The combined curve up to a time depends only on bars reached by then: other bars afterwards,
      for any of the assets, leave its timestamps and points, hence also the running peak and the
      deepest drawdown so far, as they are. */
  lemma CurveIsCausal(jobs: seq<Job>, others: seq<seq<Market.Bar>>, t: int, initial: real)
    requires |others| == |jobs| && AllRunnable(jobs) && AllRunnable(WithBars(jobs, others))
    requires forall k :: 0 <= k < |jobs| ==> Causal(jobs[k].strategy) && SameUntil(jobs[k].bars, others[k], t)
    ensures CurveUntil(WithBars(jobs, others), t) == CurveUntil(jobs, t)
    ensures Watermark(initial, CurveUntil(WithBars(jobs, others), t).1) == Watermark(initial, CurveUntil(jobs, t).1)
  {
    hide Runnable, Causal, SameUntil, Total, CurveFrom, Timeline, Until, Watermark;
    var changed := WithBars(jobs, others);
    var (times, moved) := (Timeline(Curves(jobs)), Timeline(Curves(changed)));
    SameTimes(Curves(jobs), Curves(changed), t);
    var n := Until(times, t);
    assert Until(moved, t) == |moved[..Until(moved, t)]| == n;
    forall i | 0 <= i < n
      ensures CurveOf(Curves(changed), moved)[i] == CurveOf(Curves(jobs), times)[i]
    {
      assert moved[i] == moved[..n][i] == times[..n][i] == times[i];
      UntilExactlyHere(Curves(jobs), t, i);
      PointIsCausal(jobs, others, t, times[i]);
    }
    assert CurveOf(Curves(changed), moved)[..n] == CurveOf(Curves(jobs), times)[..n];
  }

  lemma UntilExactlyHere(curves: seq<Curve>, t: int, i: nat)
    requires i < Until(Timeline(curves), t)
    ensures Timeline(curves)[i] <= t
  {
    TimelineUnion(curves);
    UntilExactly(Timeline(curves), t);
  }

  /** The combined point at a time depends only on bars reached by then. */
  lemma PointIsCausal(jobs: seq<Job>, others: seq<seq<Market.Bar>>, t: int, p: int)
    requires |others| == |jobs| && AllRunnable(jobs) && AllRunnable(WithBars(jobs, others)) && p <= t
    requires forall k :: 0 <= k < |jobs| ==> Causal(jobs[k].strategy) && SameUntil(jobs[k].bars, others[k], t)
    ensures LatestPoints(Curves(WithBars(jobs, others)), p) == LatestPoints(Curves(jobs), p)
  {
    var changed := WithBars(jobs, others);
    hide Causal, SameUntil, LatestPoint, CurveFrom, Job.Valid;
    forall k | 0 <= k < |jobs|
      ensures LatestPoint(CurveFrom(jobs[k]), p) == LatestPoint(CurveFrom(changed[k]), p)
    {
      assert Runnable(jobs[k]) && Runnable(changed[k]);
      SameEarlier(jobs[k].bars, others[k], t, p);
      SleeveIsCausal(jobs[k], others[k], p);
    }
    assert LatestPoints(Curves(changed), p) == LatestPoints(Curves(jobs), p);
  }

  lemma SleeveIsCausal(job: Job, others: seq<Market.Bar>, t: int)
    requires Runnable(job) && Runnable(job.(bars := others)) && Causal(job.strategy)
    requires SameUntil(job.bars, others, t)
    ensures LatestPoint(CurveFrom(job), t) == LatestPoint(CurveFrom(job.(bars := others)), t)
  {
    hide SleeveAt, PointOf, Reached, Causal, LatestPoint, CurveFrom;
    LatestIsState(job, t);
    LatestIsState(job.(bars := others), t);
    NoLookAhead(job, others, Reached(others, t));
  }

  // ---------------------------------------------------------------- the whole backtest

  datatype Asset = Asset(bars: seq<Market.Bar>, leverage: real, venue: Venue)

  datatype RunError = CapitalNotPositive | NoAssets | SleeveFailed(error: EngineError)

  datatype Backtest = Backtest(summary: Summary, trades: seq<seq<Trade>>, fees: real, slippage: real, financing: real)

  /** The simulation of one asset on its share of the capital, bars in time order. */
  function JobOf(asset: Asset, share: real, costs: Costs, strategy: Strategy): Job {
    Job(Normalize(asset.bars), share, asset.leverage, costs, strategy)
  }

  function JobsOf(assets: seq<Asset>, share: real, costs: Costs, strategy: Strategy): (r: seq<Job>)
    ensures |r| == |assets| && forall k :: 0 <= k < |r| ==> r[k] == JobOf(assets[k], share, costs, strategy)
  {
    seq(|assets|, k requires 0 <= k < |assets| => JobOf(assets[k], share, costs, strategy))
  }

  /** Whether the asset can be simulated: enough bars and a permitted leverage. */
  predicate Simulates(asset: Asset, strategy: Strategy) {
    |asset.bars| >= strategy.WarmupBars() + 2 && 1.0 <= asset.leverage <= MaximumLeverage(asset.venue)
  }

  /** Bars as stored: priced, and one per timestamp. */
  predicate Loaded(asset: Asset) {
    Priced(asset.bars) && Increasing(Normalize(asset.bars))
  }

  function Finals(jobs: seq<Job>): (r: seq<Sleeve>)
    requires AllRunnable(jobs)
    ensures |r| == |jobs| && forall k :: 0 <= k < |r| ==> Runnable(jobs[k]) && r[k] == SleeveAt(jobs[k], |jobs[k].bars|)
  {
    seq(|jobs|, k requires 0 <= k < |jobs| => assert Runnable(jobs[k]); SleeveAt(jobs[k], |jobs[k].bars|))
  }

  /** Fees, slippage and financing added over all sleeves. */
  function CostTotals(sleeves: seq<Sleeve>): (real, real, real) {
    if sleeves == [] then (0.0, 0.0, 0.0)
    else
      var ((f, s, i), last) := (CostTotals(sleeves[..|sleeves| - 1]), sleeves[|sleeves| - 1]);
      (f + last.fees, s + last.slippage, i + last.financing)
  }

  /** What the backtest keeps of one asset's simulation. */
  ghost predicate SleeveOf(job: Job, curve: Curve, trades: seq<Trade>) {
    Runnable(job) && curve == CurveFrom(job) && trades == SleeveAt(job, |job.bars|).trades
  }

  method SimulateAsset(asset: Asset, share: real, costs: Costs, strategy: Strategy) returns (r: Result<SleeveResult, EngineError>)
    requires costs.Valid() && strategy.Valid() && share > 0.0 && Loaded(asset)
    ensures r.Ok? <==> Simulates(asset, strategy)
    ensures r.Ok? ==> var job := JobOf(asset, share, costs, strategy);
      && |r.value.points| == |job.bars| && SleeveOf(job, Curve(job.bars, r.value.points, share), r.value.trades)
      && (var st := SleeveAt(job, |job.bars|);
          r.value.fees == st.fees && r.value.slippage == st.slippage && r.value.financing == st.financing)
  {
    hide Normalize, SleeveAt;
    NormalizeSorts(asset.bars);
    r := SimulateSleeve(Job(asset.bars, share, asset.leverage, costs, strategy), asset.venue);
    if r.Ok? {
      PointsRecordStates(JobOf(asset, share, costs, strategy), |asset.bars|);
    } else {
      match r.error {
        case InsufficientBars => assert r == Err(InsufficientBars);
        case LeverageOutOfRange => assert r == Err(LeverageOutOfRange);
      }
    }
  }

  /** The reported totals are the sums over the sleeves, each of its kind. */
  lemma {:induction false} CostTotalsAreSums(sleeves: seq<Sleeve>)
    ensures CostTotals(sleeves).0 == Sum(seq(|sleeves|, i requires 0 <= i < |sleeves| => sleeves[i].fees))
    ensures CostTotals(sleeves).1 == Sum(seq(|sleeves|, i requires 0 <= i < |sleeves| => sleeves[i].slippage))
    ensures CostTotals(sleeves).2 == Sum(seq(|sleeves|, i requires 0 <= i < |sleeves| => sleeves[i].financing))
  {
    if sleeves != [] {
      var init := sleeves[..|sleeves| - 1];
      CostTotalsAreSums(init);
      assert seq(|sleeves|, i requires 0 <= i < |sleeves| => sleeves[i].fees)[..|init|] == seq(|init|, i requires 0 <= i < |init| => init[i].fees);
      assert seq(|sleeves|, i requires 0 <= i < |sleeves| => sleeves[i].slippage)[..|init|] == seq(|init|, i requires 0 <= i < |init| => init[i].slippage);
      assert seq(|sleeves|, i requires 0 <= i < |sleeves| => sleeves[i].financing)[..|init|] == seq(|init|, i requires 0 <= i < |init| => init[i].financing);
    }
  }

  lemma CostTotalsSnoc(sleeves: seq<Sleeve>, last: Sleeve)
    ensures var (f, s, i) := CostTotals(sleeves);
      CostTotals(sleeves + [last]) == (f + last.fees, s + last.slippage, i + last.financing)
  {
    assert (sleeves + [last])[..|sleeves|] == sleeves;
  }

  /** `run_strategy`: every asset on an equal share of the capital, then the combined curve. */
  method RunStrategy(assets: seq<Asset>, initial: real, costs: Costs, strategy: Strategy) returns (r: Result<Backtest, RunError>)
    requires costs.Valid() && strategy.Valid() && forall k :: 0 <= k < |assets| ==> Loaded(assets[k])
    ensures r == Err(CapitalNotPositive) <==> initial <= 0.0
    ensures r == Err(NoAssets) <==> initial > 0.0 && assets == []
    ensures r.Ok? <==> initial > 0.0 && assets != [] && forall k :: 0 <= k < |assets| ==> Simulates(assets[k], strategy)
    ensures r.Ok? ==> var jobs := JobsOf(assets, initial / |assets| as real, costs, strategy);
      && AllRunnable(jobs)
      && r.value.summary.curve == CurveOf(Curves(jobs), Timeline(Curves(jobs)))
      && (r.value.summary.peak, r.value.summary.maxDrawdown) == Watermark(initial, r.value.summary.curve)
      && (r.value.fees, r.value.slippage, r.value.financing) == CostTotals(Finals(jobs))
      && |r.value.trades| == |jobs| && forall k :: 0 <= k < |jobs| ==> r.value.trades[k] == Finals(jobs)[k].trades
  {
    hide Normalize, Increasing, SleeveAt, CurveFrom, CurveOf, CostTotals, Watermark, Timeline, Loaded, Simulates, JobOf, Job.Valid;
    if initial <= 0.0 {
      return Err(CapitalNotPositive);
    }
    if assets == [] {
      return Err(NoAssets);
    }
    var share := initial / |assets| as real;
    SharePositive(initial, |assets|);
    ghost var jobs := JobsOf(assets, share, costs, strategy);
    ghost var sleeves: seq<Sleeve> := [];
    var curves: seq<Curve>, trades: seq<seq<Trade>> := [], [];
    var fees, slippage, financing := 0.0, 0.0, 0.0;
    NoCosts();
    for k := 0 to |assets|
      invariant |curves| == |trades| == |sleeves| == k
      invariant forall j :: 0 <= j < k ==> Simulates(assets[j], strategy) && SleeveOf(jobs[j], curves[j], trades[j])
      invariant forall j :: 0 <= j < k ==> sleeves[j] == SleeveAt(jobs[j], |jobs[j].bars|)
      invariant (fees, slippage, financing) == CostTotals(sleeves)
    {
      var result := SimulateAsset(assets[k], share, costs, strategy);
      if result.Err? {
        return Err(SleeveFailed(result.error));
      }
      curves := curves + [Curve(Normalize(assets[k].bars), result.value.points, share)];
      JobFields(assets[k], share, costs, strategy);
      trades := trades + [result.value.trades];
      CostTotalsSnoc(sleeves, SleeveAt(jobs[k], |jobs[k].bars|));
      sleeves := sleeves + [SleeveAt(jobs[k], |jobs[k].bars|)];
      fees, slippage, financing := fees + result.value.fees, slippage + result.value.slippage, financing + result.value.financing;
    }
    assert AllRunnable(jobs);
    assert curves == Curves(jobs);
    assert sleeves == Finals(jobs);
    var summary := CombineCurves(curves, initial);
    r := Ok(Backtest(summary, trades, fees, slippage, financing));
  }

  lemma NoCosts()
    ensures CostTotals([]) == (0.0, 0.0, 0.0)
  {
  }

  lemma JobFields(asset: Asset, share: real, costs: Costs, strategy: Strategy)
    ensures JobOf(asset, share, costs, strategy).bars == Normalize(asset.bars)
  {
    hide Normalize;
  }

  lemma SharePositive(initial: real, n: nat)
    requires initial > 0.0 && n > 0
    ensures initial / n as real > 0.0
  {
  }

  // ---------------------------------------------------------------- combined accounting

  function CostsPaid(st: Sleeve): real {
    st.fees + st.slippage + st.financing
  }

  ghost function Gained(st: Sleeve): real {
    OpenToOpenGain(st.trades) - Times(st.quantity, st.entryOpen)
  }

  ghost function SleeveAfter(job: Job, t: int): Sleeve
    requires Runnable(job)
  {
    SleeveAt(job, Reached(job.bars, t))
  }

  ghost function AllCosts(jobs: seq<Job>, t: int): real
    requires AllRunnable(jobs)
  {
    if jobs == [] then 0.0
    else AllCosts(jobs[..|jobs| - 1], t) + CostsPaid(SleeveAfter(jobs[|jobs| - 1], t))
  }

  ghost function AllGains(jobs: seq<Job>, t: int): real
    requires AllRunnable(jobs)
  {
    if jobs == [] then 0.0
    else AllGains(jobs[..|jobs| - 1], t) + Gained(SleeveAfter(jobs[|jobs| - 1], t))
  }

  function AllCapital(jobs: seq<Job>): real {
    if jobs == [] then 0.0 else AllCapital(jobs[..|jobs| - 1]) + jobs[|jobs| - 1].capital
  }

  lemma SleeveCash(job: Job, t: int)
    requires Runnable(job)
    ensures LatestPoint(CurveFrom(job), t).cash + CostsPaid(SleeveAfter(job, t)) == job.capital + Gained(SleeveAfter(job, t))
  {
    hide Times, Reached, CurveFrom, LatestPoint;
    var n := Reached(job.bars, t);
    LatestIsState(job, t);
    EngineAccounting(job, n);
    hide SleeveAt;
    if n == 0 {
      FirstBar(job);
    }
  }

  /** At every time, combined cash plus all costs paid so far is the capital plus what the closed
      quantities gained, less what the open ones cost at their entry opens. */
  lemma {:induction false} CombinedAccounting(jobs: seq<Job>, t: int)
    requires AllRunnable(jobs)
    ensures Total(LatestPoints(Curves(jobs), t)).cash + AllCosts(jobs, t) == AllCapital(jobs) + AllGains(jobs, t)
  {
    if jobs != [] {
      hide Runnable, SleeveAfter, CostsPaid, Gained, LatestPoint, CurveFrom;
      var (init, last) := (jobs[..|jobs| - 1], jobs[|jobs| - 1]);
      CombinedAccounting(init, t);
      SleeveCash(last, t);
      assert LatestPoints(Curves(jobs), t)[..|init|] == LatestPoints(Curves(init), t);
    }
  }
}
