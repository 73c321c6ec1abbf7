/** Signal rules of the strategy catalog and the proof that they look at no later bar
    (quant-worker/backtest/strategies.py). */
module Strategies {
  import opened Prelude
  import opened Market

  datatype PivotKind = High | Low

  datatype Pivot = Pivot(index: nat, kind: PivotKind, price: real)

  datatype Pattern = Pattern(a: Pivot, b: Pivot, c: Pivot, target: real)

  type SignalFunction = (seq<Bar>, nat, bool) -> Option<Action>

  datatype Strategy =
    | MovingAverage(fastPeriod: nat, slowPeriod: nat)
    | Turtle(entryPeriod: nat, exitPeriod: nat)
    | Rolling(confirmationBars: nat)
    | Abcd(left: nat, right: nat, retracementMin: real, retracementMax: real, extensionMin: real)
    | Other(warmup: nat, rule: SignalFunction)
  {
    /** The ranges each strategy checks when it is built. */
    predicate Valid() {
      match this
      case MovingAverage(fast, slow) => 2 <= fast < slow
      case Turtle(entry, exit) => 2 <= entry && 2 <= exit
      case Rolling(n) => 2 <= n <= 20
      case Abcd(left, right, low, high, ext) => 1 <= left && 1 <= right && 0.0 < low < high && 0.0 < ext
      case Other(_, _) => true
    }

    function WarmupBars(): nat {
      match this
      case MovingAverage(_, slow) => slow
      case Turtle(entry, exit) => if entry >= exit then entry else exit
      case Rolling(n) => n
      case Abcd(left, right, _, _, _) => left + right + 4
      case Other(warmup, _) => warmup
    }

    function Signal(bars: seq<Bar>, index: nat, inPosition: bool): Option<Action>
      requires Valid() && index < |bars|
    {
      match this
      case MovingAverage(fast, slow) => MovingAverageSignal(fast, slow, bars, index, inPosition)
      case Turtle(entry, exit) => TurtleSignal(entry, exit, bars, index, inPosition)
      case Rolling(n) => RollingSignal(n, bars, index, inPosition)
      case Abcd(_, right, _, _, _) => AbcdSignal(LatestPattern(this, Pivots(this, bars, index)), right, bars, index, inPosition)
      case Other(_, rule) => rule(bars, index, inPosition)
    }
  }

  // ---------------------------------------------------------------- window rules

  function CloseSum(bars: seq<Bar>, lo: nat, hi: nat): real
    requires lo <= hi <= |bars|
  {
    if lo == hi then 0.0 else CloseSum(bars, lo, hi - 1) + bars[hi - 1].close
  }

  function Sma(bars: seq<Bar>, end: nat, period: nat): real
    requires 0 < period <= end + 1 <= |bars|
  {
    CloseSum(bars, end + 1 - period, end + 1) / period as real
  }

  function MovingAverageSignal(fast: nat, slow: nat, bars: seq<Bar>, index: nat, inPosition: bool): Option<Action>
    requires 2 <= fast < slow && index < |bars|
  {
    if index < slow then None
    else
      var previousFast, previousSlow := Sma(bars, index - 1, fast), Sma(bars, index - 1, slow);
      var currentFast, currentSlow := Sma(bars, index, fast), Sma(bars, index, slow);
      if !inPosition && previousFast <= previousSlow && currentFast > currentSlow then Some(Buy)
      else if inPosition && previousFast >= previousSlow && currentFast < currentSlow then Some(Sell)
      else None
  }

  function HighestHigh(bars: seq<Bar>, lo: nat, hi: nat): real
    requires lo < hi <= |bars|
  {
    if lo + 1 == hi then bars[lo].high else Max(HighestHigh(bars, lo, hi - 1), bars[hi - 1].high)
  }

  function LowestLow(bars: seq<Bar>, lo: nat, hi: nat): real
    requires lo < hi <= |bars|
  {
    if lo + 1 == hi then bars[lo].low else Min(LowestLow(bars, lo, hi - 1), bars[hi - 1].low)
  }

  function TurtleSignal(entry: nat, exit: nat, bars: seq<Bar>, index: nat, inPosition: bool): Option<Action>
    requires 2 <= entry && 2 <= exit && index < |bars|
  {
    if index < entry || index < exit then None
    else if !inPosition && bars[index].close > HighestHigh(bars, index - entry, index) then Some(Buy)
    else if inPosition && bars[index].close < LowestLow(bars, index - exit, index) then Some(Sell)
    else None
  }

  predicate Rising(bars: seq<Bar>, lo: nat, hi: nat)
    requires hi <= |bars|
  {
    forall k | lo < k < hi :: bars[k].close > bars[k - 1].close
  }

  predicate Falling(bars: seq<Bar>, lo: nat, hi: nat)
    requires hi <= |bars|
  {
    forall k | lo < k < hi :: bars[k].close < bars[k - 1].close
  }

  function RollingSignal(n: nat, bars: seq<Bar>, index: nat, inPosition: bool): Option<Action>
    requires 2 <= n && index < |bars|
  {
    if index < n then None
    else if !inPosition && Rising(bars, index - n + 1, index + 1) then Some(Buy)
    else if inPosition && Falling(bars, index - n + 1, index + 1) then Some(Sell)
    else None
  }

  // ---------------------------------------------------------------- ABCD pivots and patterns

  /** The pivot at a candidate bar, if its low (or else its high) beats all its neighbours. */
  function PivotAt(s: Strategy, bars: seq<Bar>, candidate: nat): Option<Pivot>
    requires s.Abcd? && s.Valid() && s.left <= candidate && candidate + s.right < |bars|
  {
    if forall k | candidate - s.left <= k <= candidate + s.right && k != candidate :: bars[candidate].low < bars[k].low
    then Some(Pivot(candidate, Low, bars[candidate].low))
    else if forall k | candidate - s.left <= k <= candidate + s.right && k != candidate :: bars[candidate].high > bars[k].high
    then Some(Pivot(candidate, High, bars[candidate].high))
    else None
  }

  /** The pivots confirmed at bar `index`: candidates up to `index - right`, in order. */
  function Pivots(s: Strategy, bars: seq<Bar>, index: nat): (pivots: seq<Pivot>)
    requires s.Abcd? && s.Valid() && index < |bars|
    ensures forall p :: 0 <= p < |pivots| ==> pivots[p].index + s.right <= index
    ensures forall p, q :: 0 <= p < q < |pivots| ==> pivots[p].index < pivots[q].index
  {
    if index < s.left + s.right then []
    else
      var earlier := Pivots(s, bars, index - 1);
      match PivotAt(s, bars, index - s.right)
      case Some(pivot) => earlier + [pivot]
      case None => earlier
  }

  method ConfirmedPivots(s: Strategy, bars: seq<Bar>, index: nat) returns (pivots: seq<Pivot>)
    requires s.Abcd? && s.Valid() && index < |bars|
    ensures pivots == Pivots(s, bars, index)
  {
    pivots := [];
    if index < s.right || index - s.right < s.left {
      return;
    }
    var lastCandidate := index - s.right;
    for candidate := s.left to lastCandidate + 1
      invariant candidate + s.right > 0 && pivots == Pivots(s, bars, candidate + s.right - 1)
    {
      match PivotAt(s, bars, candidate)
      case Some(pivot) => pivots := pivots + [pivot];
      case None =>
    }
  }

  /** The low-high-low pattern that starts at `offset`, if its retracement is in range. */
  function PatternAt(s: Strategy, pivots: seq<Pivot>, offset: nat): Option<Pattern>
    requires s.Abcd? && offset + 2 < |pivots|
  {
    var a, b, c := pivots[offset], pivots[offset + 1], pivots[offset + 2];
    PatternOf(s, a, b, c)
  }

  function PatternOf(s: Strategy, a: Pivot, b: Pivot, c: Pivot): (pattern: Option<Pattern>)
    requires s.Abcd?
    ensures pattern.Some? ==> a.kind.Low? && b.kind.High? && c.kind.Low? && pattern.value.c == c
  {
    if !(a.kind.Low? && b.kind.High? && c.kind.Low?) || b.price - a.price <= 0.0 then None
    else
      var ab := b.price - a.price;
      var retracement := (b.price - c.price) / ab;
      if s.retracementMin <= retracement <= s.retracementMax
      then Some(Pattern(a, b, c, c.price + ab * s.extensionMin))
      else None
  }

  /** The valid pattern whose C pivot comes last. */
  function LatestPattern(s: Strategy, pivots: seq<Pivot>): Option<Pattern>
    requires s.Abcd?
  {
    if |pivots| < 3 then None
    else
      match PatternAt(s, pivots, |pivots| - 3)
      case Some(pattern) => Some(pattern)
      case None => LatestPattern(s, pivots[..|pivots| - 1])
  }

  method FindLatestPattern(s: Strategy, pivots: seq<Pivot>) returns (latest: Option<Pattern>)
    requires s.Abcd?
    requires forall p, q :: 0 <= p < q < |pivots| ==> pivots[p].index < pivots[q].index
    ensures latest == LatestPattern(s, pivots)
  {
    hide PatternOf;
    latest := None;
    var offset := 0;
    while offset + 2 < |pivots|
      invariant offset <= |pivots|
      invariant |pivots| >= 2 ==> offset + 2 <= |pivots| && latest == LatestPattern(s, pivots[..offset + 2])
      invariant latest.Some? ==> exists k :: 2 <= k < offset + 2 && k < |pivots| && latest.value.c == pivots[k]
    {
      assert pivots[..offset + 3][..offset + 2] == pivots[..offset + 2];
      match PatternAt(s, pivots, offset) {
        case Some(pattern) =>
          if latest.None? || pattern.c.index > latest.value.c.index {
            latest := Some(pattern);
          }
        case None =>
      }
      offset := offset + 1;
    }
    assert pivots[..|pivots|] == pivots;
  }

  function AbcdSignal(latest: Option<Pattern>, right: nat, bars: seq<Bar>, index: nat, inPosition: bool): Option<Action>
    requires index < |bars|
  {
    match latest
    case None => None
    case Some(pattern) =>
      var confirmation := pattern.c.index + right;
      if !inPosition && confirmation == index then Some(Buy)
      else if inPosition && index > confirmation && bars[index].close >= pattern.target then Some(Sell)
      else None
  }

  /** One more bar confirms at most one more pivot and withdraws none. */
  lemma PivotsGrow(s: Strategy, bars: seq<Bar>, index: nat)
    requires s.Abcd? && s.Valid() && index + 1 < |bars|
    ensures Pivots(s, bars, index) <= Pivots(s, bars, index + 1)
    ensures |Pivots(s, bars, index + 1)| <= |Pivots(s, bars, index)| + 1
  {
  }

  /** The latest pattern is the one of the greatest offset that forms a pattern at all. */
  lemma {:induction false} LatestPatternIsLast(s: Strategy, pivots: seq<Pivot>)
    requires s.Abcd?
    ensures LatestPattern(s, pivots).None? <==>
        forall o :: 0 <= o < |pivots| - 2 ==> PatternAt(s, pivots, o).None?
    ensures LatestPattern(s, pivots).Some? ==>
        exists o :: 0 <= o < |pivots| - 2 && PatternAt(s, pivots, o) == LatestPattern(s, pivots)
                 && forall later :: o < later < |pivots| - 2 ==> PatternAt(s, pivots, later).None?
  {
    hide PatternOf;
    if |pivots| >= 3 {
      var shorter := pivots[..|pivots| - 1];
      LatestPatternIsLast(s, shorter);
      assert forall o :: 0 <= o < |shorter| - 2 ==> PatternAt(s, shorter, o) == PatternAt(s, pivots, o);
      if PatternAt(s, pivots, |pivots| - 3).None? && LatestPattern(s, shorter).Some? {
        var o :| 0 <= o < |shorter| - 2 && PatternAt(s, shorter, o) == LatestPattern(s, shorter)
              && forall later :: o < later < |shorter| - 2 ==> PatternAt(s, shorter, later).None?;
        assert PatternAt(s, pivots, o) == LatestPattern(s, pivots);
      }
    }
  }

  /** Any three pivots in a row that form a pattern count, and the latest pattern is no earlier. */
  lemma NeighboursFormPatterns(s: Strategy, pivots: seq<Pivot>, o: nat)
    requires s.Abcd? && o + 2 < |pivots| && PatternOf(s, pivots[o], pivots[o + 1], pivots[o + 2]).Some?
    requires forall p, q :: 0 <= p < q < |pivots| ==> pivots[p].index < pivots[q].index
    ensures LatestPattern(s, pivots).Some? && LatestPattern(s, pivots).value.c.index >= pivots[o + 2].index
  {
    LatestPatternIsLast(s, pivots);
    assert PatternAt(s, pivots, o).Some?;
  }

  /** An ABCD entry only fires on the bar that confirms pivot C: the pivot list grew on that bar. */
  lemma AbcdEntryOnConfirmation(s: Strategy, bars: seq<Bar>, index: nat)
    requires s.Abcd? && s.Valid() && 0 < index < |bars|
    requires s.Signal(bars, index, false) == Some(Buy)
    ensures |Pivots(s, bars, index)| == |Pivots(s, bars, index - 1)| + 1
    ensures var pivots := Pivots(s, bars, index);
      pivots[|pivots| - 1].kind.Low? && pivots[|pivots| - 1].index + s.right == index
  {
    hide PivotAt, Pivots, LatestPattern, Strategy.Signal;
    var pivots, earlier := Pivots(s, bars, index), Pivots(s, bars, index - 1);
    AbcdEntryPattern(s, bars, index);
    var p := PatternUsesPivots(s, pivots);
    PivotsGrow(s, bars, index - 1);
  }

  /** The C pivot of the latest pattern is a low from the list. */
  lemma {:induction false} PatternUsesPivots(s: Strategy, pivots: seq<Pivot>) returns (p: nat)
    requires s.Abcd? && LatestPattern(s, pivots).Some?
    ensures p < |pivots| && pivots[p] == LatestPattern(s, pivots).value.c && pivots[p].kind.Low?
  {
    hide PatternOf;
    p := |pivots| - 1;
    if PatternAt(s, pivots, |pivots| - 3).None? {
      p := PatternUsesPivots(s, pivots[..|pivots| - 1]);
    }
  }

  lemma AbcdEntryPattern(s: Strategy, bars: seq<Bar>, index: nat)
    requires s.Abcd? && s.Valid() && index < |bars|
    requires s.Signal(bars, index, false) == Some(Buy)
    ensures var latest := LatestPattern(s, Pivots(s, bars, index));
      latest.Some? && latest.value.c.index + s.right == index
  {
    hide PatternOf, PivotAt, Pivots, LatestPattern;
  }

  // ---------------------------------------------------------------- what the signals mean

  /** The closes of the last `period` bars up to `end`. */
  function Closes(bars: seq<Bar>, end: nat, period: nat): (r: seq<real>)
    requires period <= end + 1 <= |bars|
    ensures |r| == period && forall i :: 0 <= i < period ==> r[i] == bars[end + 1 - period + i].close
  {
    seq(period, i requires 0 <= i < period => bars[end + 1 - period + i].close)
  }

  lemma {:induction false} CloseSumIsSum(bars: seq<Bar>, lo: nat, hi: nat)
    requires lo <= hi && 0 < hi <= |bars|
    ensures CloseSum(bars, lo, hi) == Sum(Closes(bars, hi - 1, hi - lo))
  {
    if lo < hi {
      var all := Closes(bars, hi - 1, hi - lo);
      if hi > 1 {
        CloseSumIsSum(bars, lo, hi - 1);
        assert all[..|all| - 1] == Closes(bars, hi - 2, hi - 1 - lo);
      } else {
        assert all[..0] == [];
      }
    }
  }

  /** The fast mean is above the slow one, compared without dividing. */
  predicate FastAbove(fast: nat, slow: nat, bars: seq<Bar>, end: nat)
    requires fast <= end + 1 <= |bars| && slow <= end + 1
  {
    Times(slow as real, Sum(Closes(bars, end, fast))) > Times(fast as real, Sum(Closes(bars, end, slow)))
  }

  predicate FastBelow(fast: nat, slow: nat, bars: seq<Bar>, end: nat)
    requires fast <= end + 1 <= |bars| && slow <= end + 1
  {
    Times(slow as real, Sum(Closes(bars, end, fast))) < Times(fast as real, Sum(Closes(bars, end, slow)))
  }

  lemma CompareQuotients(a: real, m: nat, b: real, n: nat)
    requires m > 0 && n > 0
    ensures a / m as real > b / n as real <==> Times(n as real, a) > Times(m as real, b)
    ensures a / m as real < b / n as real <==> Times(n as real, a) < Times(m as real, b)
  {
    var (x, y, p, q) := (a / m as real, b / n as real, m as real, n as real);
    assert a == x * p && b == y * q;
    assert q * a == (p * q) * x && p * b == (p * q) * y;
    assert p * q > 0.0;
    OrderScaled(p * q, x, y);
  }

  lemma OrderScaled(k: real, x: real, y: real)
    requires k > 0.0
    ensures x > y <==> k * x > k * y
    ensures x < y <==> k * x < k * y
  {
  }

  lemma SmaCompare(fast: nat, slow: nat, bars: seq<Bar>, end: nat)
    requires 0 < fast <= end + 1 <= |bars| && 0 < slow <= end + 1
    ensures Sma(bars, end, fast) > Sma(bars, end, slow) <==> FastAbove(fast, slow, bars, end)
    ensures Sma(bars, end, fast) < Sma(bars, end, slow) <==> FastBelow(fast, slow, bars, end)
  {
    hide Times, CloseSum, Sum;
    CloseSumIsSum(bars, end + 1 - fast, end + 1);
    CloseSumIsSum(bars, end + 1 - slow, end + 1);
    CompareQuotients(Sum(Closes(bars, end, fast)), fast, Sum(Closes(bars, end, slow)), slow);
  }

  /** The moving-average rule buys when the fast mean rises above the slow one while flat, and sells
      when it falls below while long. */
  lemma MovingAverageCrosses(fast: nat, slow: nat, bars: seq<Bar>, index: nat, inPosition: bool)
    requires 2 <= fast < slow && index < |bars|
    ensures var signal := MovingAverageSignal(fast, slow, bars, index, inPosition);
      && (signal == Some(Buy) <==>
            index >= slow && !inPosition && !FastAbove(fast, slow, bars, index - 1) && FastAbove(fast, slow, bars, index))
      && (signal == Some(Sell) <==>
            index >= slow && inPosition && !FastBelow(fast, slow, bars, index - 1) && FastBelow(fast, slow, bars, index))
  {
    hide Sma, FastAbove, FastBelow;
    if index >= slow {
      SmaCompare(fast, slow, bars, index - 1);
      SmaCompare(fast, slow, bars, index);
    }
  }

  lemma {:induction false} ExtremesBound(bars: seq<Bar>, lo: nat, hi: nat, x: real)
    requires lo < hi <= |bars|
    ensures x > HighestHigh(bars, lo, hi) <==> forall k :: lo <= k < hi ==> x > bars[k].high
    ensures x < LowestLow(bars, lo, hi) <==> forall k :: lo <= k < hi ==> x < bars[k].low
  {
    if lo + 1 < hi {
      ExtremesBound(bars, lo, hi - 1, x);
    }
  }

  /** The Turtle rule buys on a close above every high of the entry window while flat, and sells on a
      close below every low of the exit window while long; the current bar is in neither window. */
  lemma TurtleBreaksOut(entry: nat, exit: nat, bars: seq<Bar>, index: nat, inPosition: bool)
    requires 2 <= entry && 2 <= exit && index < |bars|
    ensures var signal := TurtleSignal(entry, exit, bars, index, inPosition);
      && (signal == Some(Buy) <==>
            && index >= entry && index >= exit && !inPosition
            && forall k :: index - entry <= k < index ==> bars[index].close > bars[k].high)
      && (signal == Some(Sell) <==>
            && index >= entry && index >= exit && inPosition
            && forall k :: index - exit <= k < index ==> bars[index].close < bars[k].low)
  {
    if index >= entry && index >= exit {
      ExtremesBound(bars, index - entry, index, bars[index].close);
      ExtremesBound(bars, index - exit, index, bars[index].close);
    }
  }

  lemma {:induction false} RisingThroughout(bars: seq<Bar>, lo: nat, hi: nat, j: nat, k: nat)
    requires lo <= j < k < hi <= |bars|
    ensures Rising(bars, lo, hi) ==> bars[j].close < bars[k].close
    ensures Falling(bars, lo, hi) ==> bars[j].close > bars[k].close
  {
    if j + 1 < k {
      RisingThroughout(bars, lo, hi, j, k - 1);
    }
  }

  /** Every close of the window is above every earlier one in it. */
  ghost predicate RisesThroughout(bars: seq<Bar>, lo: nat, hi: nat)
    requires hi <= |bars|
  {
    forall j, k :: lo <= j < k < hi ==> bars[j].close < bars[k].close
  }

  ghost predicate FallsThroughout(bars: seq<Bar>, lo: nat, hi: nat)
    requires hi <= |bars|
  {
    forall j, k :: lo <= j < k < hi ==> bars[j].close > bars[k].close
  }

  /** The rolling rule buys when the last n closes rise throughout while flat, and sells when they fall
      throughout while long. */
  lemma RollingFollowsRuns(n: nat, bars: seq<Bar>, index: nat, inPosition: bool)
    requires 2 <= n && index < |bars|
    ensures var signal := RollingSignal(n, bars, index, inPosition);
      && (signal == Some(Buy) <==> index >= n && !inPosition && RisesThroughout(bars, index - n + 1, index + 1))
      && (signal == Some(Sell) <==> index >= n && inPosition && FallsThroughout(bars, index - n + 1, index + 1))
  {
    if index >= n {
      forall j, k | index - n + 1 <= j < k < index + 1
        ensures Rising(bars, index - n + 1, index + 1) ==> bars[j].close < bars[k].close
        ensures Falling(bars, index - n + 1, index + 1) ==> bars[j].close > bars[k].close
      {
        RisingThroughout(bars, index - n + 1, index + 1, j, k);
      }
    }
  }

  /** The low of the bar is below the low of every neighbour. */
  ghost predicate IsLow(s: Strategy, bars: seq<Bar>, i: nat)
    requires s.Abcd? && s.left <= i && i + s.right < |bars|
  {
    && (forall k :: i - s.left <= k < i ==> bars[i].low < bars[k].low)
    && (forall k :: i < k <= i + s.right ==> bars[i].low < bars[k].low)
  }

  ghost predicate IsHigh(s: Strategy, bars: seq<Bar>, i: nat)
    requires s.Abcd? && s.left <= i && i + s.right < |bars|
  {
    && (forall k :: i - s.left <= k < i ==> bars[i].high > bars[k].high)
    && (forall k :: i < k <= i + s.right ==> bars[i].high > bars[k].high)
  }

  lemma PivotAtMeans(s: Strategy, bars: seq<Bar>, i: nat)
    requires s.Abcd? && s.Valid() && s.left <= i && i + s.right < |bars|
    ensures PivotAt(s, bars, i) ==
        if IsLow(s, bars, i) then Some(Pivot(i, Low, bars[i].low))
        else if IsHigh(s, bars, i) then Some(Pivot(i, High, bars[i].high)) else None
  {
  }

  /** The pivots at a bar are exactly the lows and highs confirmed by then: a low where its low is
      below those of all neighbours, otherwise a high where its high is above all of theirs. */
  lemma {:induction false} PivotsAreExtremes(s: Strategy, bars: seq<Bar>, index: nat, p: Pivot)
    requires s.Abcd? && s.Valid() && index < |bars|
    ensures p in Pivots(s, bars, index) <==>
        && s.left <= p.index && p.index + s.right <= index
        && p == (if IsLow(s, bars, p.index) then Pivot(p.index, Low, bars[p.index].low)
                 else Pivot(p.index, High, bars[p.index].high))
        && (IsLow(s, bars, p.index) || IsHigh(s, bars, p.index))
  {
    hide IsLow, IsHigh, PivotAt;
    if index >= s.left + s.right {
      PivotsAreExtremes(s, bars, index - 1, p);
      PivotAtMeans(s, bars, index - s.right);
    }
  }

  /** A pattern is a low, a higher high and a low that takes back between the two given shares of the
      rise; its target lies above the last low by the given extension of the rise. */
  lemma PatternIsRetracement(s: Strategy, a: Pivot, b: Pivot, c: Pivot)
    requires s.Abcd? && s.Valid()
    ensures var rise := b.price - a.price;
      PatternOf(s, a, b, c).Some? <==>
        && a.kind.Low? && b.kind.High? && c.kind.Low? && rise > 0.0
        && b.price - Times(s.retracementMax, rise) <= c.price <= b.price - Times(s.retracementMin, rise)
    ensures PatternOf(s, a, b, c).Some? ==>
        var target := PatternOf(s, a, b, c).value.target;
        target > c.price && target - c.price == Times(s.extensionMin, b.price - a.price)
  {
    var rise := b.price - a.price;
    if rise > 0.0 {
      var part := (b.price - c.price) / rise;
      assert part * rise == b.price - c.price;
      OrderScaledNonStrict(rise, s.retracementMin, part);
      OrderScaledNonStrict(rise, part, s.retracementMax);
      PositiveProduct(s.extensionMin, rise);
    }
  }

  lemma OrderScaledNonStrict(k: real, x: real, y: real)
    requires k > 0.0
    ensures x <= y <==> x * k <= y * k
  {
  }

  /** The ABCD rule sells when, after the pattern was confirmed, the close reaches its target. */
  lemma AbcdSellsAtTarget(s: Strategy, bars: seq<Bar>, index: nat)
    requires s.Abcd? && s.Valid() && index < |bars|
    ensures var latest := LatestPattern(s, Pivots(s, bars, index));
      && (s.Signal(bars, index, true) == Some(Sell) <==>
            latest.Some? && latest.value.c.index + s.right < index && latest.value.target <= bars[index].close)
      && (s.Signal(bars, index, false) == Some(Buy) <==> latest.Some? && latest.value.c.index + s.right == index)
  {
    hide LatestPattern, Pivots;
  }

  // ---------------------------------------------------------------- warm-up

  function FlatBar(price: real): Bar {
    Bar(0, price, price, price, price, None, "feed")
  }

  /** Bars at zero up to the last one, which jumps to one. */
  function Jump(n: nat): (r: seq<Bar>)
    ensures |r| == n + 1 && forall i :: 0 <= i <= n ==> r[i] == FlatBar(if i == n then 1.0 else 0.0)
  {
    seq(n + 1, i requires 0 <= i <= n => FlatBar(if i == n then 1.0 else 0.0))
  }

  function Ramp(n: nat): (r: seq<Bar>)
    ensures |r| == n + 1 && forall i :: 0 <= i <= n ==> r[i] == FlatBar(i as real)
  {
    seq(n + 1, i requires 0 <= i <= n => FlatBar(i as real))
  }

  lemma {:induction false} ZeroSum(s: seq<real>)
    requires forall i :: 0 <= i < |s| ==> s[i] == 0.0
    ensures Sum(s) == 0.0
  {
    if s != [] {
      ZeroSum(s[..|s| - 1]);
    }
  }

  lemma JumpCrosses(fast: nat, slow: nat)
    requires 2 <= fast < slow
    ensures MovingAverageSignal(fast, slow, Jump(slow), slow, false) == Some(Buy)
  {
    var bars := Jump(slow);
    ZeroSum(Closes(bars, slow - 1, fast));
    ZeroSum(Closes(bars, slow - 1, slow));
    var (f, g) := (Closes(bars, slow, fast), Closes(bars, slow, slow));
    ZeroSum(f[..fast - 1]);
    ZeroSum(g[..slow - 1]);
    MovingAverageCrosses(fast, slow, bars, slow, false);
  }

  /** The warm-up of the window rules is the first bar at which they can signal: never before it, and
      on some bars right at it. */
  lemma WarmupIsFirstSignal(s: Strategy)
    requires s.Valid() && (s.MovingAverage? || s.Turtle? || s.Rolling?)
    ensures forall bars: seq<Bar>, index: nat, inPosition: bool | index < |bars| && index < s.WarmupBars() ::
        s.Signal(bars, index, inPosition) == None
    ensures exists bars: seq<Bar> :: |bars| == s.WarmupBars() + 1 && s.Signal(bars, s.WarmupBars(), false) == Some(Buy)
  {
    match s {
      case MovingAverage(fast, slow) =>
        JumpCrosses(fast, slow);
        assert s.Signal(Jump(slow), slow, false) == Some(Buy);
      case Turtle(entry, exit) =>
        var n := s.WarmupBars();
        TurtleBreaksOut(entry, exit, Ramp(n), n, false);
        assert s.Signal(Ramp(n), n, false) == Some(Buy);
      case Rolling(n) =>
        RollingFollowsRuns(n, Ramp(n), n, false);
        assert s.Signal(Ramp(n), n, false) == Some(Buy);
    }
  }

  // ---------------------------------------------------------------- no look-ahead

  /** The rule answers the same on two histories that agree up to the bar it is asked about. */
  ghost predicate Causal(s: Strategy) {
    forall bars: seq<Bar>, others: seq<Bar>, index: nat, inPosition: bool ::
      s.Valid() && index < |bars| && index < |others| && bars[..index + 1] == others[..index + 1] ==>
        s.Signal(bars, index, inPosition) == s.Signal(others, index, inPosition)
  }

  ghost predicate Agree(bars: seq<Bar>, others: seq<Bar>, n: nat) {
    n <= |bars| && n <= |others| && forall i :: 0 <= i < n ==> bars[i] == others[i]
  }

  lemma {:induction false} CloseSumCausal(bars: seq<Bar>, others: seq<Bar>, lo: nat, hi: nat)
    requires lo <= hi && Agree(bars, others, hi)
    ensures CloseSum(bars, lo, hi) == CloseSum(others, lo, hi)
  {
    if lo < hi {
      CloseSumCausal(bars, others, lo, hi - 1);
    }
  }

  lemma {:induction false} ExtremesCausal(bars: seq<Bar>, others: seq<Bar>, lo: nat, hi: nat)
    requires lo < hi && Agree(bars, others, hi)
    ensures HighestHigh(bars, lo, hi) == HighestHigh(others, lo, hi)
    ensures LowestLow(bars, lo, hi) == LowestLow(others, lo, hi)
  {
    if lo + 1 < hi {
      ExtremesCausal(bars, others, lo, hi - 1);
    }
  }

  lemma PivotAtCausal(s: Strategy, bars: seq<Bar>, others: seq<Bar>, candidate: nat)
    requires s.Abcd? && s.Valid() && s.left <= candidate && Agree(bars, others, candidate + s.right + 1)
    ensures PivotAt(s, bars, candidate) == PivotAt(s, others, candidate)
  {
    assert forall k | candidate - s.left <= k <= candidate + s.right && k != candidate ::
        bars[k] == others[k] && bars[candidate] == others[candidate];
  }

  lemma {:induction false} PivotsCausal(s: Strategy, bars: seq<Bar>, others: seq<Bar>, index: nat)
    requires s.Abcd? && s.Valid() && Agree(bars, others, index + 1)
    ensures Pivots(s, bars, index) == Pivots(s, others, index)
  {
    hide PivotAt;
    if index >= s.left + s.right {
      PivotsCausal(s, bars, others, index - 1);
      PivotAtCausal(s, bars, others, index - s.right);
    }
  }

  lemma MovingAverageCausal(fast: nat, slow: nat, bars: seq<Bar>, others: seq<Bar>, index: nat, inPosition: bool)
    requires 2 <= fast < slow && Agree(bars, others, index + 1)
    ensures MovingAverageSignal(fast, slow, bars, index, inPosition) == MovingAverageSignal(fast, slow, others, index, inPosition)
  {
    hide CloseSum;
    if index >= slow {
      CloseSumCausal(bars, others, index - fast, index);
      CloseSumCausal(bars, others, index - slow, index);
      CloseSumCausal(bars, others, index + 1 - fast, index + 1);
      CloseSumCausal(bars, others, index + 1 - slow, index + 1);
    }
  }

  lemma TurtleCausal(entry: nat, exit: nat, bars: seq<Bar>, others: seq<Bar>, index: nat, inPosition: bool)
    requires 2 <= entry && 2 <= exit && Agree(bars, others, index + 1)
    ensures TurtleSignal(entry, exit, bars, index, inPosition) == TurtleSignal(entry, exit, others, index, inPosition)
  {
    hide HighestHigh, LowestLow;
    if index >= entry && index >= exit {
      ExtremesCausal(bars, others, index - entry, index);
      ExtremesCausal(bars, others, index - exit, index);
    }
  }

  lemma RollingCausal(n: nat, bars: seq<Bar>, others: seq<Bar>, index: nat, inPosition: bool)
    requires 2 <= n && Agree(bars, others, index + 1)
    ensures RollingSignal(n, bars, index, inPosition) == RollingSignal(n, others, index, inPosition)
  {
    if index >= n {
      assert Rising(bars, index - n + 1, index + 1) == Rising(others, index - n + 1, index + 1);
      assert Falling(bars, index - n + 1, index + 1) == Falling(others, index - n + 1, index + 1);
    }
  }

  lemma SignalCausal(s: Strategy, bars: seq<Bar>, others: seq<Bar>, index: nat, inPosition: bool)
    requires s.Valid() && !s.Other? && Agree(bars, others, index + 1)
    ensures s.Signal(bars, index, inPosition) == s.Signal(others, index, inPosition)
  {
    hide MovingAverageSignal, TurtleSignal, RollingSignal, Pivots, LatestPattern;
    match s
    case MovingAverage(fast, slow) => MovingAverageCausal(fast, slow, bars, others, index, inPosition);
    case Turtle(entry, exit) => TurtleCausal(entry, exit, bars, others, index, inPosition);
    case Rolling(n) => RollingCausal(n, bars, others, index, inPosition);
    case Abcd(_, _, _, _, _) => PivotsCausal(s, bars, others, index);
  }

  lemma CatalogIsCausal(s: Strategy)
    requires !s.Other?
    ensures Causal(s)
  {
    hide Strategy.Signal;
    forall bars: seq<Bar>, others: seq<Bar>, index: nat, inPosition: bool
      | s.Valid() && index < |bars| && index < |others| && bars[..index + 1] == others[..index + 1]
      ensures s.Signal(bars, index, inPosition) == s.Signal(others, index, inPosition)
    {
      forall i | 0 <= i < index + 1
        ensures bars[i] == others[i]
      {
        assert bars[..index + 1][i] == others[..index + 1][i];
      }
      SignalCausal(s, bars, others, index, inPosition);
    }
  }

  /** The modelled rules buy only when flat and sell only when long. */
  lemma CatalogIsDisciplined(s: Strategy, bars: seq<Bar>, index: nat, inPosition: bool)
    requires s.Valid() && !s.Other? && index < |bars|
    ensures s.Signal(bars, index, inPosition) == Some(Buy) ==> !inPosition
    ensures s.Signal(bars, index, inPosition) == Some(Sell) ==> inPosition
  {
    hide Pivots, LatestPattern, CloseSum, HighestHigh, LowestLow, Rising, Falling;
  }
}
