/** Capped allocation: water-filling under a maximum weight, then largest-remainder
    rounding to basis points (quant-worker/backtest/optimizer.py). Weights are exact reals;
    `eps` stands for the loop's tolerance 1e-12 and every statement holds for any eps >= 0. */
module Optimizer {
  import opened Prelude

  const NEGATIVE_TOLERANCE := 0.00000001
  const GUARD_TOLERANCE := 0.000000001

  datatype OptimizerError = InvalidWeights | ZeroWeights | GuardInfeasible | CapInfeasible | RoundingInfeasible

  // ---------------------------------------------------------------- water-filling

  function Clip(raw: seq<real>): (r: seq<real>)
    ensures |r| == |raw|
    ensures forall i :: 0 <= i < |r| ==> r[i] == Max(raw[i], 0.0)
  {
    seq(|raw|, i requires 0 <= i < |raw| => Max(raw[i], 0.0))
  }

  function Share(x: real, whole: real, total: real): real
    requires whole != 0.0
  {
    x / whole * total
  }

  lemma ShareIsTimes(x: real, whole: real, total: real)
    requires whole != 0.0
    ensures Share(x, whole, total) == Times(x, total / whole)
    ensures Times(whole, total / whole) == total
  {
  }

  lemma ShareNonNegative(x: real, whole: real, total: real)
    requires whole > 0.0 && x >= 0.0 && total >= 0.0
    ensures Share(x, whole, total) >= 0.0
  {
    TimesNonNegative(x / whole, total);
  }

  /** The clipped weights scaled to sum to `total`: the starting point of the loop. */
  function Scaled(raw: seq<real>, total: real): (r: seq<real>)
    requires Sum(Clip(raw)) > 0.0
    ensures |r| == |raw|
    ensures forall i :: 0 <= i < |r| ==> r[i] == Share(Clip(raw)[i], Sum(Clip(raw)), total)
  {
    seq(|raw|, i requires 0 <= i < |raw| => Share(Clip(raw)[i], Sum(Clip(raw)), total))
  }

  /** Weight held above the cap. */
  function Excess(s: seq<real>, cap: real): real {
    if s == [] then 0.0
    else Excess(s[..|s| - 1], cap) + (if s[|s| - 1] >= cap then s[|s| - 1] - cap else 0.0)
  }

  /** Weight of the entries strictly below the cap. */
  function Base(s: seq<real>, cap: real): real {
    if s == [] then 0.0
    else Base(s[..|s| - 1], cap) + (if s[|s| - 1] < cap then s[|s| - 1] else 0.0)
  }

  /** What the entries below the cap can still take. */
  function Room(s: seq<real>, cap: real): real {
    if s == [] then 0.0
    else Room(s[..|s| - 1], cap) + (if s[|s| - 1] < cap then cap - s[|s| - 1] else 0.0)
  }

  function OpenCount(s: seq<real>, cap: real): nat {
    if s == [] then 0
    else OpenCount(s[..|s| - 1], cap) + (if s[|s| - 1] < cap then 1 else 0)
  }

  predicate Over(s: seq<real>, bound: real) {
    exists i | 0 <= i < |s| :: s[i] > bound
  }

  predicate NonNegative(s: seq<real>) {
    forall i | 0 <= i < |s| :: s[i] >= 0.0
  }

  /** What a round adds to an open entry x: a proportional part and a flat part. */
  function Addition(x: real, k: real, c: real): real {
    Times(k, x) + c
  }

  function Lift(x: real, cap: real, addition: real): real {
    if x >= cap then cap else x + addition
  }

  /** Capped entries drop to the cap, open entries get their addition. */
  ghost function Raised(s: seq<real>, cap: real, k: real, c: real): (t: seq<real>)
    ensures |t| == |s|
    ensures forall i :: 0 <= i < |s| ==> t[i] == Lift(s[i], cap, Addition(s[i], k, c))
  {
    seq(|s|, i requires 0 <= i < |s| => Lift(s[i], cap, Addition(s[i], k, c)))
  }

  lemma AdditionMonotone(x: real, y: real, k: real, c: real)
    requires k >= 0.0 && c >= 0.0 && 0.0 <= x && 0.0 <= y
    ensures Addition(x, k, c) >= 0.0
    ensures x <= y ==> Addition(x, k, c) <= Addition(y, k, c)
  {
    hide Times;
    TimesNonNegative(k, x);
    if x <= y {
      TimesMonotone(k, x, y);
    }
  }

  /** Raising a level by the factor 1 + k adds k times what each weight already had. */
  lemma LevelUp(w: real, k: real, lambda: real)
    requires k >= 0.0 && lambda >= 1.0 && w >= 0.0
    ensures Times(lambda, 1.0 + k) >= 1.0
    ensures Times(Times(lambda, 1.0 + k), w) == Times(lambda, w) + Times(k, Times(lambda, w))
    ensures Times(k, Times(lambda, w)) >= 0.0
    ensures Times(lambda, w) >= w
  {
    hide Times;
    TimesAdd(lambda, 1.0, k);
    TimesOne(lambda);
    TimesNonNegative(lambda, k);
    TimesNonNegative(lambda, w);
    TimesNonNegative(k, Times(lambda, w));
    TimesAssociative(lambda, 1.0 + k, w);
    TimesAssociative(k, lambda, w);
    TimesCommutative(lambda, k);
    TimesAdd(w, lambda, Times(lambda, k));
    TimesAdd(w, 1.0, lambda - 1.0);
    TimesOne(w);
    TimesNonNegative(lambda - 1.0, w);
  }

  lemma {:induction false} SumRaised(s: seq<real>, cap: real, k: real, c: real)
    ensures Sum(Raised(s, cap, k, c))
         == Sum(s) - Excess(s, cap) + Times(k, Base(s, cap)) + Times(c, OpenCount(s, cap) as real)
  {
    hide Times;
    TimesOne(k);
    TimesOne(c);
    if s != [] {
      var n := |s| - 1;
      SumRaised(s[..n], cap, k, c);
      assert Raised(s, cap, k, c)[..n] == Raised(s[..n], cap, k, c);
      TimesAdd(k, Base(s[..n], cap), s[n]);
      TimesAdd(c, OpenCount(s[..n], cap) as real, 1.0);
    }
  }

  lemma {:induction false} RoomMinusExcess(s: seq<real>, cap: real)
    ensures Room(s, cap) - Excess(s, cap) == Times(|s| as real, cap) - Sum(s)
  {
    hide Times;
    TimesOne(cap);
    if s != [] {
      RoomMinusExcess(s[..|s| - 1], cap);
      TimesAdd(cap, (|s| - 1) as real, 1.0);
    }
  }

  lemma {:induction false} BaseAtLeast(s: seq<real>, cap: real, j: nat)
    requires NonNegative(s)
    requires j < |s| && s[j] < cap
    ensures Base(s, cap) >= s[j]
  {
    var n := |s| - 1;
    BaseNonNegative(s[..n], cap);
    if j < n {
      BaseAtLeast(s[..n], cap, j);
    }
  }

  lemma {:induction false} BaseNonNegative(s: seq<real>, cap: real)
    requires NonNegative(s)
    ensures Base(s, cap) >= 0.0
  {
    if s != [] {
      BaseNonNegative(s[..|s| - 1], cap);
    }
  }

  lemma {:induction false} ExcessNonNegative(s: seq<real>, cap: real)
    ensures Excess(s, cap) >= 0.0
  {
    if s != [] {
      ExcessNonNegative(s[..|s| - 1], cap);
    }
  }

  lemma {:induction false} OpenCountShrinks(s: seq<real>, t: seq<real>, cap: real)
    requires |s| == |t|
    requires forall i :: 0 <= i < |s| && t[i] < cap ==> s[i] < cap
    ensures OpenCount(t, cap) <= OpenCount(s, cap)
    ensures (exists j :: 0 <= j < |s| && s[j] < cap <= t[j]) ==> OpenCount(t, cap) < OpenCount(s, cap)
  {
    if s != [] {
      OpenCountShrinks(s[..|s| - 1], t[..|t| - 1], cap);
    }
  }

  lemma {:induction false} OpenCountZero(s: seq<real>, cap: real)
    ensures OpenCount(s, cap) == 0 <==> forall i :: 0 <= i < |s| ==> s[i] >= cap
  {
    if s != [] {
      OpenCountZero(s[..|s| - 1], cap);
    }
  }

  /** With nothing below the cap and something above the bound, the total exceeds n caps. */
  lemma {:induction false} AllCapped(s: seq<real>, cap: real, eps: real)
    requires eps >= 0.0
    requires forall i :: 0 <= i < |s| ==> s[i] >= cap
    ensures Sum(s) >= Times(|s| as real, cap)
    ensures Over(s, cap + eps) ==> Sum(s) > Times(|s| as real, cap) + eps
  {
    hide Times;
    TimesOne(cap);
    if s != [] {
      var n := |s| - 1;
      AllCapped(s[..n], cap, eps);
      TimesAdd(cap, n as real, 1.0);
      if Over(s, cap + eps) && s[n] <= cap + eps {
        var i :| 0 <= i < |s| && s[i] > cap + eps;
        assert s[..n][i] > cap + eps;
      }
    }
  }

  function Proportional(excess: real, x: real, base: real): real
    requires base != 0.0
  {
    excess * x / base
  }

  lemma ProportionalIsAddition(excess: real, x: real, base: real)
    requires base != 0.0
    ensures Proportional(excess, x, base) == Addition(x, excess / base, 0.0)
  {
  }

  lemma {:induction false} SumScaled(s: seq<real>, t: seq<real>, k: real)
    requires |s| == |t|
    requires forall i :: 0 <= i < |s| ==> t[i] == Times(s[i], k)
    ensures Sum(t) == Times(Sum(s), k)
  {
    hide Times;
    TimesOne(k);
    if s != [] {
      var n := |s| - 1;
      SumScaled(s[..n], t[..n], k);
      TimesAdd(k, Sum(s[..n]), s[n]);
    }
  }

  /** One level for all: an entry is either parked at the cap, which it would pass at level
      `lambda`, or it is exactly `lambda` times its starting weight. */
  ghost predicate Levelled(start: seq<real>, s: seq<real>, cap: real, lambda: real) {
    && |start| == |s|
    && lambda >= 1.0
    && forall i :: 0 <= i < |s| ==>
        (s[i] == cap && Times(lambda, start[i]) >= cap) || s[i] == Times(lambda, start[i])
  }

  /** Starting weights that are zero or above the tolerance. */
  predicate Decided(start: seq<real>, eps: real) {
    forall i | 0 <= i < |start| :: start[i] == 0.0 || start[i] > eps
  }

  /** The positive entries are full and the others share what is left equally. */
  ghost predicate FilledUp(start: seq<real>, s: seq<real>, cap: real) {
    && |start| == |s|
    && (forall i :: 0 <= i < |s| && start[i] != 0.0 ==> s[i] == cap)
    && (forall i, j :: 0 <= i < |s| && 0 <= j < |s| && start[i] == 0.0 && start[j] == 0.0 ==> s[i] == s[j])
  }

  ghost predicate OrderKept(start: seq<real>, s: seq<real>, cap: real)
    requires |start| == |s|
  {
    forall i, j :: 0 <= i < |s| && 0 <= j < |s| && start[i] <= start[j] ==>
      Min(s[i], cap) <= Min(s[j], cap) && (start[i] == start[j] ==> s[i] == s[j])
  }

  ghost predicate NoneCutBelowCap(start: seq<real>, s: seq<real>, cap: real)
    requires |start| == |s|
  {
    forall i :: 0 <= i < |s| ==> Min(s[i], cap) >= Min(start[i], cap)
  }

  function CappedShare(w: real, cap: real, lambda: real): real {
    Min(cap, Times(lambda, w))
  }

  /** The allocation at level `lambda`: everyone gets lambda times their start, cut at the cap. */
  ghost function CappedShares(start: seq<real>, cap: real, lambda: real): (t: seq<real>)
    ensures |t| == |start|
    ensures forall i :: 0 <= i < |start| ==> t[i] == CappedShare(start[i], cap, lambda)
  {
    seq(|start|, i requires 0 <= i < |start| => CappedShare(start[i], cap, lambda))
  }

  /** The total fixes the capped proportional allocation, whatever level realises it. */
  lemma {:induction false} LevelUnique(start: seq<real>, cap: real, l1: real, l2: real)
    requires NonNegative(start)
    requires Sum(CappedShares(start, cap, l1)) == Sum(CappedShares(start, cap, l2))
    ensures CappedShares(start, cap, l1) == CappedShares(start, cap, l2)
  {
    hide Times;
    var (lo, hi) := if l1 <= l2 then (l1, l2) else (l2, l1);
    forall i | 0 <= i < |start|
      ensures CappedShares(start, cap, lo)[i] <= CappedShares(start, cap, hi)[i]
    {
      TimesMonotone(start[i], lo, hi);
      TimesCommutative(start[i], lo);
      TimesCommutative(start[i], hi);
    }
    SumSqueeze(CappedShares(start, cap, lo), CappedShares(start, cap, hi));
  }

  /** With a zero tolerance a levelled allocation is the capped proportional one. */
  lemma LevelledIsCapped(start: seq<real>, s: seq<real>, cap: real, lambda: real)
    requires Levelled(start, s, cap, lambda)
    requires !Over(s, cap)
    ensures s == CappedShares(start, cap, lambda)
  {
    hide Times;
    forall i | 0 <= i < |s|
      ensures s[i] == CappedShares(start, cap, lambda)[i]
    {
      assert s[i] <= cap;
    }
  }

  /** How many entries start above zero. */
  function PositiveCount(start: seq<real>): (n: nat)
    ensures n <= |start|
  {
    if start == [] then 0 else PositiveCount(start[..|start| - 1]) + (if start[|start| - 1] != 0.0 then 1 else 0)
  }

  /** What the full positive entries leave, shared equally by the zero ones. */
  lemma {:induction false} SumFilledUp(start: seq<real>, s: seq<real>, cap: real, c: real)
    requires |start| == |s|
    requires forall i :: 0 <= i < |s| ==> s[i] == if start[i] != 0.0 then cap else c
    ensures Sum(s) == Times(PositiveCount(start) as real, cap) + Times((|start| - PositiveCount(start)) as real, c)
  {
    hide Times;
    TimesOne(cap);
    TimesOne(c);
    if s != [] {
      var (initStart, init) := (start[..|s| - 1], s[..|s| - 1]);
      SumFilledUp(initStart, init, cap, c);
      TimesAdd(cap, PositiveCount(initStart) as real, 1.0);
      TimesAdd(c, (|initStart| - PositiveCount(initStart)) as real, 1.0);
    }
  }

  /** A level at which every positive entry is full. */
  lemma {:induction false} FillingLevel(start: seq<real>, cap: real) returns (lambda: real)
    requires NonNegative(start) && cap > 0.0
    ensures lambda >= 1.0 && forall i :: 0 <= i < |start| && start[i] != 0.0 ==> Times(lambda, start[i]) >= cap
  {
    hide Times;
    lambda := 1.0;
    if start != [] {
      var x := start[|start| - 1];
      var smaller := FillingLevel(start[..|start| - 1], cap);
      lambda := if x == 0.0 then smaller else Max(smaller, cap / x);
      forall i | 0 <= i < |start| && start[i] != 0.0
        ensures Times(lambda, start[i]) >= cap
      {
        TimesCommutative(lambda, start[i]);
        if i < |start| - 1 {
          TimesMonotone(start[i], smaller, lambda);
          TimesCommutative(smaller, start[i]);
        } else {
          TimesMonotone(x, cap / x, lambda);
          TimesQuotient(cap, x);
        }
      }
    }
  }

  /** At tolerance zero the promises of `Allocation` leave one answer. While the caps of the
      positive entries can hold the total it is min(cap, lambda * start) for a common lambda >= 1,
      and for any level with that total. */
  lemma AllocationDetermined(start: seq<real>, s: seq<real>, total: real, cap: real) returns (lambda: real)
    requires Allocation(start, s, total, cap, 0.0) && NonNegative(start) && cap > 0.0
    requires Times(PositiveCount(start) as real, cap) >= total
    ensures lambda >= 1.0 && s == CappedShares(start, cap, lambda)
    ensures forall mu :: Sum(CappedShares(start, cap, mu)) == total ==> s == CappedShares(start, cap, mu)
  {
    hide Times;
    if exists l :: Levelled(start, s, cap, l) {
      lambda :| Levelled(start, s, cap, lambda);
    } else {
      lambda := FilledUpToCaps(start, s, total, cap);
    }
    LevelledIsCapped(start, s, cap, lambda);
    forall mu | Sum(CappedShares(start, cap, mu)) == total
      ensures s == CappedShares(start, cap, mu)
    {
      LevelUnique(start, cap, lambda, mu);
    }
  }

  /** Filling up with nothing left for the zero entries is the allocation at a high level. */
  lemma FilledUpToCaps(start: seq<real>, s: seq<real>, total: real, cap: real) returns (lambda: real)
    requires FilledUp(start, s, cap) && NonNegative(s) && Sum(s) == total && NonNegative(start) && cap > 0.0
    requires Times(PositiveCount(start) as real, cap) >= total
    ensures Levelled(start, s, cap, lambda)
  {
    hide Times;
    lambda := FillingLevel(start, cap);
    TimesOne(lambda);
    if i :| 0 <= i < |s| && start[i] == 0.0 {
      ZerosExist(start, i);
      SumFilledUp(start, s, cap, s[i]);
      if s[i] > 0.0 {
        TimesMonotone(s[i], 1.0, (|start| - PositiveCount(start)) as real);
        TimesCommutative(s[i], (|start| - PositiveCount(start)) as real);
        TimesOne(s[i]);
      }
    }
  }

  lemma {:induction false} ZerosExist(start: seq<real>, i: nat)
    requires i < |start| && start[i] == 0.0
    ensures PositiveCount(start) < |start|
  {
    if i < |start| - 1 {
      ZerosExist(start[..|start| - 1], i);
    }
  }

  /** When those caps cannot hold the total, the positive entries are full and the zero ones share
      the rest equally. */
  lemma ZerosShareTheRest(start: seq<real>, s: seq<real>, total: real, cap: real)
    requires Allocation(start, s, total, cap, 0.0) && NonNegative(start) && cap > 0.0
    requires Times(PositiveCount(start) as real, cap) < total
    ensures FilledUp(start, s, cap)
    ensures forall i :: 0 <= i < |s| && start[i] == 0.0 ==>
        Times((|start| - PositiveCount(start)) as real, s[i]) == total - Times(PositiveCount(start) as real, cap)
  {
    hide Times;
    if lambda :| Levelled(start, s, cap, lambda) {
      TimesOne(lambda);
      SumOfPositives(start, s, cap);
    }
    forall i | 0 <= i < |s| && start[i] == 0.0
      ensures Times((|start| - PositiveCount(start)) as real, s[i]) == total - Times(PositiveCount(start) as real, cap)
    {
      SumFilledUp(start, s, cap, s[i]);
    }
  }

  lemma {:induction false} SumOfPositives(start: seq<real>, s: seq<real>, cap: real)
    requires |start| == |s| && cap > 0.0
    requires forall i :: 0 <= i < |s| ==> s[i] <= if start[i] != 0.0 then cap else 0.0
    ensures Sum(s) <= Times(PositiveCount(start) as real, cap)
  {
    hide Times;
    TimesOne(cap);
    if s != [] {
      var initStart := start[..|s| - 1];
      SumOfPositives(initStart, s[..|s| - 1], cap);
      TimesAdd(cap, PositiveCount(initStart) as real, 1.0);
    }
  }

  /** One round of the loop on values: what the in-place update below computes. */
  ghost function Round(s: seq<real>, cap: real, eps: real): seq<real>
    requires OpenCount(s, cap) > 0
  {
    var k, c := RoundRate(s, cap, eps), RoundFlat(s, cap, eps);
    Raised(s, cap, k, c)
  }

  ghost function RoundRate(s: seq<real>, cap: real, eps: real): real {
    if Base(s, cap) > eps && Base(s, cap) != 0.0 then Excess(s, cap) / Base(s, cap) else 0.0
  }

  ghost function RoundFlat(s: seq<real>, cap: real, eps: real): real
    requires OpenCount(s, cap) > 0
  {
    if Base(s, cap) > eps && Base(s, cap) != 0.0 then 0.0 else Excess(s, cap) / OpenCount(s, cap) as real
  }

  lemma RoundConserves(s: seq<real>, cap: real, eps: real)
    requires eps >= 0.0 && NonNegative(s) && cap > 0.0
    requires OpenCount(s, cap) > 0
    ensures Sum(Round(s, cap, eps)) == Sum(s)
    ensures RoundRate(s, cap, eps) >= 0.0 && RoundFlat(s, cap, eps) >= 0.0
    ensures forall i :: 0 <= i < |s| ==> Round(s, cap, eps)[i] >= Min(s[i], cap)
  {
    hide Times;
    var k, c := RoundRate(s, cap, eps), RoundFlat(s, cap, eps);
    SumRaised(s, cap, k, c);
    TimesOne(Base(s, cap));
    TimesOne(OpenCount(s, cap) as real);
    if k == 0.0 && Base(s, cap) <= eps {
      TimesQuotient(Excess(s, cap), OpenCount(s, cap) as real);
    } else {
      TimesQuotient(Excess(s, cap), Base(s, cap));
    }
    ExcessNonNegative(s, cap);
    BaseNonNegative(s, cap);
    forall i | 0 <= i < |s|
      ensures Round(s, cap, eps)[i] >= Min(s[i], cap)
    {
      AdditionMonotone(s[i], s[i], k, c);
    }
  }

  /** A round either raises all open entries by one factor or, once only zero entries are open,
      fills those up equally. */
  lemma RoundKeepsLevel(start: seq<real>, s: seq<real>, cap: real, eps: real, lambda: real)
    requires eps >= 0.0 && NonNegative(s) && NonNegative(start) && cap > 0.0
    requires OpenCount(s, cap) > 0 && Decided(start, eps) && Levelled(start, s, cap, lambda)
    ensures Levelled(start, Round(s, cap, eps), cap, Times(lambda, 1.0 + RoundRate(s, cap, eps)))
         || FilledUp(start, Round(s, cap, eps), cap)
  {
    hide Times;
    RoundConserves(s, cap, eps);
    var t := Round(s, cap, eps);
    if Base(s, cap) > eps && Base(s, cap) != 0.0 {
      LevelRises(start, s, cap, eps, lambda);
    } else {
      forall i | 0 <= i < |s| && start[i] != 0.0
        ensures s[i] >= cap
      {
        LevelUp(start[i], 0.0, lambda);
        if s[i] < cap {
          BaseAtLeast(s, cap, i);
        }
      }
      forall i | 0 <= i < |s| && start[i] == 0.0
        ensures s[i] == 0.0
      {
        TimesOne(lambda);
      }
      forall i | 0 <= i < |s| {
        TimesOne(s[i]);
      }
    }
  }

  lemma LevelRises(start: seq<real>, s: seq<real>, cap: real, eps: real, lambda: real)
    requires eps >= 0.0 && NonNegative(s) && NonNegative(start) && cap > 0.0 && OpenCount(s, cap) > 0
    requires Base(s, cap) > eps && Base(s, cap) != 0.0 && Levelled(start, s, cap, lambda)
    ensures Levelled(start, Round(s, cap, eps), cap, Times(lambda, 1.0 + RoundRate(s, cap, eps)))
  {
    hide Times;
    RoundConserves(s, cap, eps);
    var k := RoundRate(s, cap, eps);
    LevelUp(0.0, k, lambda);
    var t, l := Round(s, cap, eps), Times(lambda, 1.0 + k);
    forall i | 0 <= i < |s|
      ensures (t[i] == cap && Times(l, start[i]) >= cap) || t[i] == Times(l, start[i])
    {
      LevelUp(start[i], k, lambda);
    }
  }

  /** A filled-up allocation that still overflows has no open entry left. */
  lemma FilledUpIsFull(start: seq<real>, s: seq<real>, cap: real, eps: real)
    requires eps >= 0.0 && FilledUp(start, s, cap) && Over(s, cap + eps)
    ensures OpenCount(s, cap) == 0
  {
    var i :| 0 <= i < |s| && s[i] > cap + eps;
    OpenCountZero(s, cap);
  }

  lemma RoundKeepsOrder(start: seq<real>, s: seq<real>, cap: real, eps: real)
    requires eps >= 0.0 && NonNegative(s) && cap > 0.0
    requires OpenCount(s, cap) > 0
    requires |start| == |s| && OrderKept(start, s, cap)
    ensures OrderKept(start, Round(s, cap, eps), cap)
  {
    hide Times;
    RoundConserves(s, cap, eps);
    var t := Round(s, cap, eps);
    forall i, j | 0 <= i < |s| && 0 <= j < |s| && start[i] <= start[j]
      ensures Min(t[i], cap) <= Min(t[j], cap) && (start[i] == start[j] ==> t[i] == t[j])
    {
      AdditionMonotone(s[i], s[j], RoundRate(s, cap, eps), RoundFlat(s, cap, eps));
    }
  }

  lemma RoundCloses(s: seq<real>, cap: real, eps: real)
    requires eps >= 0.0 && NonNegative(s) && cap > 0.0
    requires OpenCount(s, cap) > 0
    ensures OpenCount(Round(s, cap, eps), cap) <= OpenCount(s, cap)
    ensures Over(Round(s, cap, eps), cap + eps) ==> OpenCount(Round(s, cap, eps), cap) < OpenCount(s, cap)
  {
    var t := Round(s, cap, eps);
    OpenCountShrinks(s, t, cap);
    if Over(t, cap + eps) {
      var j :| 0 <= j < |t| && t[j] > cap + eps;
      assert s[j] < cap <= t[j];
    }
  }

  lemma ScaledSums(raw: seq<real>, total: real)
    requires Sum(Clip(raw)) > 0.0 && total >= 0.0
    ensures Sum(Scaled(raw, total)) == total
    ensures NonNegative(Scaled(raw, total))
  {
    hide Times;
    hide Share;
    var whole := Sum(Clip(raw));
    forall i | 0 <= i < |raw|
      ensures Scaled(raw, total)[i] == Times(Clip(raw)[i], total / whole)
      ensures Scaled(raw, total)[i] >= 0.0
    {
      ShareIsTimes(Clip(raw)[i], whole, total);
      ShareNonNegative(Clip(raw)[i], whole, total);
    }
    ShareIsTimes(0.0, whole, total);
    SumScaled(Clip(raw), Scaled(raw, total), total / whole);
  }

  lemma StartIsLevelled(start: seq<real>, cap: real)
    ensures Levelled(start, start, cap, 1.0)
  {
    hide Times;
    forall i | 0 <= i < |start|
      ensures start[i] == Times(1.0, start[i])
    {
      TimesOne(start[i]);
    }
  }

  ghost predicate InvalidInput(raw: seq<real>) {
    exists i :: 0 <= i < |raw| && raw[i] < -NEGATIVE_TOLERANCE
  }

  /** What a finished allocation promises about its starting weights. */
  ghost predicate Allocation(start: seq<real>, s: seq<real>, total: real, cap: real, eps: real) {
    && |s| == |start|
    && NonNegative(s)
    && Sum(s) == total
    && !Over(s, cap + eps)
    && NoneCutBelowCap(start, s, cap)
    && OrderKept(start, s, cap)
    && (Decided(start, eps) ==> FilledUp(start, s, cap) || exists lambda :: Levelled(start, s, cap, lambda))
  }

  /** What the loop keeps; `lambda` is the level reached so far. */
  ghost predicate Progress(start: seq<real>, s: seq<real>, total: real, cap: real, eps: real, lambda: real) {
    && |s| == |start|
    && NonNegative(s)
    && Sum(s) == total
    && NoneCutBelowCap(start, s, cap)
    && OrderKept(start, s, cap)
    && (Decided(start, eps) ==> FilledUp(start, s, cap) || Levelled(start, s, cap, lambda))
  }

  lemma RoundKeepsProgress(start: seq<real>, s: seq<real>, total: real, cap: real, eps: real, lambda: real)
    returns (next: real)
    requires eps >= 0.0 && cap > 0.0 && NonNegative(start)
    requires OpenCount(s, cap) > 0 && Over(s, cap + eps)
    requires Progress(start, s, total, cap, eps, lambda)
    ensures Progress(start, Round(s, cap, eps), total, cap, eps, next)
  {
    hide Times, FilledUp, Levelled;
    RoundConserves(s, cap, eps);
    RoundKeepsOrder(start, s, cap, eps);
    next := lambda;
    if Decided(start, eps) {
      if FilledUp(start, s, cap) {
        FilledUpIsFull(start, s, cap, eps);
      }
      RoundKeepsLevel(start, s, cap, eps, lambda);
      next := Times(lambda, 1.0 + RoundRate(s, cap, eps));
    }
  }

  /** The body of the loop: cap the full entries in place and spread what they lose. */
  method SpreadExcess(weights: array<real>, maximum: real, eps: real) returns (feasible: bool)
    requires maximum > 0.0 && eps >= 0.0
    requires NonNegative(weights[..]) && Over(weights[..], maximum + eps)
    modifies weights
    ensures feasible ==> OpenCount(old(weights[..]), maximum) > 0
    ensures feasible ==> weights[..] == Round(old(weights[..]), maximum, eps)
    ensures !feasible ==> Times(weights.Length as real, maximum) < Sum(old(weights[..]))
  {
    hide Times, Proportional;
    ghost var before := weights[..];
    var excess := Excess(weights[..], maximum);
    var open := OpenCount(weights[..], maximum);
    RoomMinusExcess(before, maximum);
    OpenCountZero(before, maximum);
    if open == 0 {
      AllCapped(before, maximum, eps);
      return false;
    }
    if Room(weights[..], maximum) + eps < excess {
      return false;
    }
    var base := Base(weights[..], maximum);
    if base <= eps {
      forall i | 0 <= i < weights.Length {
        weights[i] := if weights[i] >= maximum then maximum else weights[i] + excess / open as real;
      }
    } else {
      forall i | 0 <= i < weights.Length {
        weights[i] := if weights[i] >= maximum then maximum else weights[i] + Proportional(excess, weights[i], base);
      }
    }
    BaseNonNegative(before, maximum);
    ghost var after := Round(before, maximum, eps);
    forall i | 0 <= i < weights.Length
      ensures weights[i] == after[i]
    {
      TimesOne(before[i]);
      if base > eps {
        ProportionalIsAddition(excess, before[i], base);
      }
    }
    return true;
  }

  lemma {:induction false} SumAtMost(s: seq<real>, bound: real)
    requires forall i :: 0 <= i < |s| ==> s[i] <= bound
    ensures Sum(s) <= Times(|s| as real, bound)
  {
    hide Times;
    TimesOne(bound);
    if s != [] {
      SumAtMost(s[..|s| - 1], bound);
      TimesAdd(bound, (|s| - 1) as real, 1.0);
    }
  }

  /** The loop: rounds until no entry exceeds the cap. */
  method WaterFill(start: seq<real>, total: real, maximum: real, eps: real) returns (r: Option<seq<real>>)
    requires maximum > 0.0 && eps >= 0.0 && NonNegative(start) && Sum(start) == total
    ensures r.Some? ==> Allocation(start, r.value, total, maximum, eps)
    ensures r.None? ==> Times(|start| as real, maximum) < total
  {
    hide Times, Round, FilledUp, Levelled;
    var weights := new real[|start|](i requires 0 <= i < |start| => start[i]);
    assert weights[..] == start;
    ghost var lambda := 1.0;
    StartIsLevelled(start, maximum);
    while Over(weights[..], maximum + eps)
      invariant Progress(start, weights[..], total, maximum, eps, lambda)
      decreases OpenCount(weights[..], maximum), Over(weights[..], maximum + eps)
    {
      ghost var before := weights[..];
      var feasible := SpreadExcess(weights, maximum, eps);
      if !feasible {
        return None;
      }
      RoundCloses(before, maximum, eps);
      lambda := RoundKeepsProgress(start, before, total, maximum, eps, lambda);
    }
    r := Some(weights[..]);
  }

  method NormalizedWeights(raw: seq<real>, total: real, maximum: real, eps: real)
    returns (r: Result<seq<real>, OptimizerError>)
    requires total > 0.0 && maximum > 0.0 && eps >= 0.0
    ensures InvalidInput(raw) <==> r == Err(InvalidWeights)
    ensures !InvalidInput(raw) && Sum(Clip(raw)) <= 0.0 <==> r == Err(ZeroWeights)
    ensures Times(|raw| as real, maximum) >= total ==> r != Err(CapInfeasible)
    ensures r.Err? ==> r.error == InvalidWeights || r.error == ZeroWeights || r.error == CapInfeasible
    ensures r.Ok? ==> Sum(Clip(raw)) > 0.0 && Allocation(Scaled(raw, total), r.value, total, maximum, eps)
    ensures r.Ok? ==> total <= Times(|raw| as real, maximum + eps)
  {
    hide Times, Round, Scaled;
    if exists i | 0 <= i < |raw| :: raw[i] < -NEGATIVE_TOLERANCE {
      return Err(InvalidWeights);
    }
    if Sum(Clip(raw)) <= 0.0 {
      return Err(ZeroWeights);
    }
    ScaledSums(raw, total);
    var weights := WaterFill(Scaled(raw, total), total, maximum, eps);
    if weights.None? {
      return Err(CapInfeasible);
    }
    SumAtMost(weights.value, maximum + eps);
    r := Ok(weights.value);
  }
}
