/** Largest-remainder rounding of an allocation to basis points, and its composition with the
    water-filling loop (quant-worker/backtest/optimizer.py). */
module Rounding {
  import opened Prelude
  import opened Sorting
  import opened Optimizer

  // ---------------------------------------------------------------- the processing order

  /** Larger fraction first, ties by symbol: the sort key of the source. */
  predicate Before(frac: seq<real>, symbols: seq<string>, i: nat, j: nat)
    requires |frac| == |symbols| && i < |frac| && j < |frac|
  {
    frac[i] > frac[j] || (frac[i] == frac[j] && StringLeq(symbols[i], symbols[j]))
  }

  lemma BeforeTotal(frac: seq<real>, symbols: seq<string>, i: nat, j: nat)
    requires |frac| == |symbols| && i < |frac| && j < |frac|
    ensures Before(frac, symbols, i, j) || Before(frac, symbols, j, i)
  {
    StringLeqTotal(symbols[i], symbols[j]);
  }

  lemma BeforeTransitive(frac: seq<real>, symbols: seq<string>, i: nat, j: nat, k: nat)
    requires |frac| == |symbols| && i < |frac| && j < |frac| && k < |frac|
    requires Before(frac, symbols, i, j) && Before(frac, symbols, j, k)
    ensures Before(frac, symbols, i, k)
  {
    if frac[i] == frac[j] == frac[k] {
      StringLeqTransitive(symbols[i], symbols[j], symbols[k]);
    }
  }

  ghost predicate InRange(order: seq<nat>, n: nat) {
    forall p :: 0 <= p < |order| ==> order[p] < n
  }

  ghost predicate Distinct(order: seq<nat>) {
    forall p, q :: 0 <= p < q < |order| ==> order[p] != order[q]
  }

  ghost predicate Ordered(frac: seq<real>, symbols: seq<string>, order: seq<nat>)
    requires |frac| == |symbols| && InRange(order, |frac|)
  {
    forall p, q :: 0 <= p < q < |order| ==> Before(frac, symbols, order[p], order[q])
  }

  /** Insert index x behind the entries that come before it. */
  function Insert(frac: seq<real>, symbols: seq<string>, order: seq<nat>, x: nat): (r: seq<nat>)
    requires |frac| == |symbols| && x < |frac|
    requires InRange(order, |frac|) && Ordered(frac, symbols, order)
    requires Distinct(order) && x !in order
    ensures |r| == |order| + 1 && InRange(r, |frac|)
    ensures forall i :: i in r <==> i == x || i in order
    ensures Distinct(r) && Ordered(frac, symbols, r)
  {
    if order == [] then [x]
    else
      var last := order[|order| - 1];
      if Before(frac, symbols, last, x) then
        assert forall p :: 0 <= p < |order| ==> Before(frac, symbols, order[p], x) by {
          forall p | 0 <= p < |order|
            ensures Before(frac, symbols, order[p], x)
          {
            if p < |order| - 1 {
              BeforeTransitive(frac, symbols, order[p], last, x);
            }
          }
        }
        order + [x]
      else
        BeforeTotal(frac, symbols, last, x);
        var rest := Insert(frac, symbols, order[..|order| - 1], x);
        assert forall i :: i in order <==> i == last || i in order[..|order| - 1];
        assert forall p :: 0 <= p < |rest| ==> rest[p] != last && Before(frac, symbols, rest[p], last) by {
          forall p | 0 <= p < |rest|
            ensures rest[p] != last && Before(frac, symbols, rest[p], last)
          {
            assert rest[p] in rest;
            if rest[p] != x {
              var q :| 0 <= q < |order| - 1 && order[q] == rest[p];
            }
          }
        }
        rest + [last]
  }

  /** The indices below n, sorted. */
  function SortedIndices(frac: seq<real>, symbols: seq<string>, n: nat): (r: seq<nat>)
    requires |frac| == |symbols| && n <= |frac|
    ensures |r| == n && InRange(r, |frac|)
    ensures forall i :: i in r <==> 0 <= i < n
    ensures Distinct(r) && Ordered(frac, symbols, r)
  {
    if n == 0 then [] else Insert(frac, symbols, SortedIndices(frac, symbols, n - 1), n - 1)
  }

  // ---------------------------------------------------------------- largest remainder

  function ExactShares(weights: seq<real>, totalBps: nat): (r: seq<real>)
    requires Sum(weights) > 0.0
    ensures |r| == |weights|
    ensures forall i :: 0 <= i < |r| ==> r[i] == Share(weights[i], Sum(weights), totalBps as real)
  {
    seq(|weights|, i requires 0 <= i < |weights| => Share(weights[i], Sum(weights), totalBps as real))
  }

  function Floor(x: real): (n: int)
    ensures n as real <= x < n as real + 1.0
  {
    x.Floor
  }

  function Floors(raw: seq<real>): (r: seq<int>)
    ensures |r| == |raw|
    ensures forall i :: 0 <= i < |r| ==> r[i] == Floor(raw[i])
  {
    seq(|raw|, i requires 0 <= i < |raw| => Floor(raw[i]))
  }

  function Fractions(raw: seq<real>): (r: seq<real>)
    ensures |r| == |raw|
    ensures forall i :: 0 <= i < |r| ==> r[i] == raw[i] - Floor(raw[i]) as real
  {
    seq(|raw|, i requires 0 <= i < |raw| => raw[i] - Floor(raw[i]) as real)
  }

  /** The most each entry may hold: the floor is never taken back, even above the cap. */
  function Ceilings(floors: seq<int>, maxBps: int): (r: seq<int>)
    ensures |r| == |floors|
    ensures forall i :: 0 <= i < |r| ==> r[i] == if floors[i] > maxBps then floors[i] else maxBps
  {
    seq(|floors|, i requires 0 <= i < |floors| => if floors[i] > maxBps then floors[i] else maxBps)
  }

  lemma {:induction false} SumAboveInts(raw: seq<real>, result: seq<int>)
    requires |raw| == |result|
    requires forall i :: 0 <= i < |raw| ==> raw[i] >= result[i] as real
    ensures Sum(raw) >= SumInt(result) as real
  {
    if raw != [] {
      SumAboveInts(raw[..|raw| - 1], result[..|raw| - 1]);
    }
  }

  lemma ExactSharesSum(weights: seq<real>, totalBps: nat)
    requires Sum(weights) > 0.0
    ensures Sum(ExactShares(weights, totalBps)) == totalBps as real
  {
    hide Times, Share;
    var whole := Sum(weights);
    var raw := ExactShares(weights, totalBps);
    forall i | 0 <= i < |raw|
      ensures raw[i] == Times(weights[i], totalBps as real / whole)
    {
      ShareIsTimes(weights[i], whole, totalBps as real);
    }
    ShareIsTimes(0.0, whole, totalBps as real);
    SumScaled(weights, raw, totalBps as real / whole);
  }

  /** By how much the shares pass the cap, all together. */
  function Overshoot(raw: seq<real>, maxBps: int): real {
    if raw == [] then 0.0 else Overshoot(raw[..|raw| - 1], maxBps) + Max(0.0, raw[|raw| - 1] - maxBps as real)
  }

  /** The shares pass the cap by less than one unit, which the optimizer's tolerance keeps them to. */
  predicate SharesFit(raw: seq<real>, maxBps: int) {
    Overshoot(raw, maxBps) < 1.0
  }

  lemma {:induction false} OvershootBounded(raw: seq<real>, maxBps: int, slack: real)
    requires slack >= 0.0 && forall i :: 0 <= i < |raw| ==> raw[i] <= maxBps as real + slack
    ensures Overshoot(raw, maxBps) <= Times(|raw| as real, slack)
  {
    hide Times;
    TimesOne(slack);
    if raw != [] {
      OvershootBounded(raw[..|raw| - 1], maxBps, slack);
      TimesAdd(slack, (|raw| - 1) as real, 1.0);
    }
  }

  lemma {:induction false} SumWithOvershoot(raw: seq<real>, result: seq<int>, maxBps: int)
    requires |raw| == |result|
    requires forall i :: 0 <= i < |raw| ==> raw[i] <= result[i] as real + Max(0.0, raw[i] - maxBps as real)
    ensures Sum(raw) <= SumInt(result) as real + Overshoot(raw, maxBps)
  {
    if raw != [] {
      SumWithOvershoot(raw[..|raw| - 1], result[..|raw| - 1], maxBps);
    }
  }

  /** `order` lists every index below n once. */
  ghost predicate Permutation(order: seq<nat>, n: nat) {
    && |order| == n && InRange(order, n) && Distinct(order)
    && forall i :: 0 <= i < n ==> i in order
  }

  /** How many of the first k entries of the order are below the cap. */
  ghost function OpenAmong(floors: seq<int>, order: seq<nat>, maxBps: int, k: nat): (n: nat)
    requires Permutation(order, |floors|) && k <= |order|
    ensures n <= k
  {
    if k == 0 then 0 else OpenAmong(floors, order, maxBps, k - 1) + (if floors[order[k - 1]] < maxBps then 1 else 0)
  }

  /** Those of the first k entries of the order that are below the cap, raised by one unit. */
  ghost function RaiseOpen(floors: seq<int>, order: seq<nat>, maxBps: int, k: nat): (r: seq<int>)
    requires Permutation(order, |floors|) && k <= |order|
    ensures |r| == |floors| && SumInt(r) == SumInt(floors) + OpenAmong(floors, order, maxBps, k)
    ensures forall p :: 0 <= p < |order| ==>
        r[order[p]] == floors[order[p]] + (if p < k && floors[order[p]] < maxBps then 1 else 0)
  {
    if k == 0 then floors
    else
      var r := RaiseOpen(floors, order, maxBps, k - 1);
      SumIntUpdate(r, order[k - 1], r[order[k - 1]] + 1);
      if floors[order[k - 1]] < maxBps then r[order[k - 1] := r[order[k - 1]] + 1] else r
  }

  lemma RaiseNone(floors: seq<int>, order: seq<nat>, maxBps: int)
    requires Permutation(order, |floors|)
    ensures RaiseOpen(floors, order, maxBps, 0) == floors && OpenAmong(floors, order, maxBps, 0) == 0
  {
  }

  lemma RaiseNext(floors: seq<int>, order: seq<nat>, maxBps: int, k: nat)
    requires Permutation(order, |floors|) && k < |order|
    ensures RaiseOpen(floors, order, maxBps, k)[order[k]] == floors[order[k]]
    ensures RaiseOpen(floors, order, maxBps, k + 1) ==
        if floors[order[k]] < maxBps then RaiseOpen(floors, order, maxBps, k)[order[k] := floors[order[k]] + 1]
        else RaiseOpen(floors, order, maxBps, k)
    ensures OpenAmong(floors, order, maxBps, k + 1) ==
        OpenAmong(floors, order, maxBps, k) + (if floors[order[k]] < maxBps then 1 else 0)
  {
  }

  lemma {:induction false} OpenGrows(floors: seq<int>, order: seq<nat>, maxBps: int, j: nat, k: nat)
    requires Permutation(order, |floors|) && j <= k <= |order|
    ensures OpenAmong(floors, order, maxBps, j) <= OpenAmong(floors, order, maxBps, k)
  {
    if j < k {
      OpenGrows(floors, order, maxBps, j, k - 1);
    }
  }

  /** Where index i stands in the order. */
  lemma Position(order: seq<nat>, n: nat, i: nat) returns (p: nat)
    requires Permutation(order, n) && i < n
    ensures p < n && order[p] == i
  {
    assert i in order;
    p :| p < |order| && order[p] == i;
  }

  /** If the entry at position p has no fraction, raising the open ones before it covers every
      share but for its overshoot. */
  lemma RaisedCovers(raw: seq<real>, symbols: seq<string>, order: seq<nat>, maxBps: int, p: nat, i: nat)
    requires |raw| == |symbols| && Permutation(order, |raw|) && p <= |raw| && i < |raw|
    requires Ordered(Fractions(raw), symbols, order)
    requires p < |raw| ==> Fractions(raw)[order[p]] <= 0.0
    ensures raw[i] <= RaiseOpen(Floors(raw), order, maxBps, p)[i] as real + Max(0.0, raw[i] - maxBps as real)
  {
    hide RaiseOpen, Floor, StringLeq, Distinct;
    var frac := Fractions(raw);
    var q := Position(order, |raw|, i);
    if p < q {
      assert Before(frac, symbols, order[p], order[q]);
    }
    assert p <= q ==> frac[i] <= 0.0;
    assert frac[i] == raw[i] - Floor(raw[i]) as real;
  }

  /** While units are left over, the next entry of the order exists and has a fraction. */
  lemma LeftoverGoesToFractions(raw: seq<real>, symbols: seq<string>, order: seq<nat>, maxBps: int, p: nat)
    requires |raw| == |symbols| && Permutation(order, |raw|) && p <= |raw|
    requires Ordered(Fractions(raw), symbols, order) && SharesFit(raw, maxBps)
    requires Sum(raw) >= (SumInt(Floors(raw)) + OpenAmong(Floors(raw), order, maxBps, p) + 1) as real
    ensures p < |raw| && Fractions(raw)[order[p]] > 0.0
  {
    hide RaiseOpen, OpenAmong, Sum, SumInt, Overshoot, Floor, Distinct, Ordered;
    if p == |raw| || Fractions(raw)[order[p]] <= 0.0 {
      forall i | 0 <= i < |raw| {
        RaisedCovers(raw, symbols, order, maxBps, p, i);
      }
      SumWithOvershoot(raw, RaiseOpen(Floors(raw), order, maxBps, p), maxBps);
    }
  }

  /** Each entry is its floor or, with a fraction, one unit more; and nobody gets a unit while an
      entry below the cap and before it in the order goes without. */
  ghost predicate FairlyRaised(result: seq<int>, raw: seq<real>, symbols: seq<string>, maxBps: int)
    requires |result| == |raw| == |symbols|
  {
    && (forall i :: 0 <= i < |raw| ==> result[i] == Floor(raw[i]) || (result[i] == Floor(raw[i]) + 1 && Fractions(raw)[i] > 0.0))
    && (forall i, j :: 0 <= i < |raw| && 0 <= j < |raw| && result[i] == Floor(raw[i]) < maxBps && result[j] > Floor(raw[j]) ==>
          Before(Fractions(raw), symbols, j, i))
  }

  lemma FirstRaisedIsFair(raw: seq<real>, symbols: seq<string>, order: seq<nat>, maxBps: int, k: nat)
    requires |raw| == |symbols| && Permutation(order, |raw|) && k <= |raw|
    requires Ordered(Fractions(raw), symbols, order)
    requires forall p :: 0 <= p < k && Floors(raw)[order[p]] < maxBps ==> Fractions(raw)[order[p]] > 0.0
    ensures FairlyRaised(RaiseOpen(Floors(raw), order, maxBps, k), raw, symbols, maxBps)
  {
    hide RaiseOpen, Floor, StringLeq;
    var result := RaiseOpen(Floors(raw), order, maxBps, k);
    forall i | 0 <= i < |raw|
      ensures result[i] == Floor(raw[i]) || (result[i] == Floor(raw[i]) + 1 && Fractions(raw)[i] > 0.0)
    {
      var _ := Position(order, |raw|, i);
    }
    forall i, j | 0 <= i < |raw| && 0 <= j < |raw| && result[i] == Floor(raw[i]) < maxBps && result[j] > Floor(raw[j])
      ensures Before(Fractions(raw), symbols, j, i)
    {
      var p := Position(order, |raw|, i);
      var q := Position(order, |raw|, j);
      assert q < k <= p;
    }
  }

  ghost predicate Between(low: seq<int>, s: seq<int>, maxBps: int)
    requires |low| == |s|
  {
    forall i :: 0 <= i < |s| ==> low[i] <= s[i] && (s[i] <= maxBps || s[i] == low[i])
  }

  /** One pass over the order: each entry below the cap takes a unit until none remain. `cut` is
      where the pass ended. */
  method Pass(result: array<int>, order: seq<nat>, maxBps: int, remainder: nat) returns (left: nat, ghost cut: nat)
    requires remainder > 0 && Permutation(order, result.Length)
    modifies result
    ensures SumInt(result[..]) + left == SumInt(old(result[..])) + remainder
    ensures Between(old(result[..]), result[..], maxBps)
    ensures left < remainder || (left == remainder && forall i :: 0 <= i < result.Length ==> result[i] >= maxBps)
    ensures cut <= |order| && (left > 0 ==> cut == |order|)
    ensures result[..] == RaiseOpen(old(result[..]), order, maxBps, cut)
  {
    hide RaiseOpen, OpenAmong, SumInt;
    ghost var start := result[..];
    left, cut := remainder, |order|;
    RaiseNone(start, order, maxBps);
    for k := 0 to |order|
      invariant 0 < left <= remainder && cut == |order|
      invariant SumInt(result[..]) + left == SumInt(start) + remainder
      invariant Between(start, result[..], maxBps)
      invariant left == remainder ==> forall p :: 0 <= p < k ==> result[order[p]] >= maxBps
      invariant result[..] == RaiseOpen(start, order, maxBps, k)
    {
      var index := order[k];
      RaiseNext(start, order, maxBps, k);
      if result[index] < maxBps {
        ghost var before := result[..];
        SumIntUpdate(before, index, before[index] + 1);
        result[index] := result[index] + 1;
        assert result[..] == before[index := before[index] + 1];
        left := left - 1;
        if left == 0 {
          cut := k + 1;
          return;
        }
      }
    }
    forall i | 0 <= i < result.Length
      ensures left == remainder ==> result[i] >= maxBps
    {
      var _ := Position(order, result.Length, i);
    }
  }

  /** The outer loop: passes until every unit is placed or a pass places none. */
  method Distribute(result: array<int>, order: seq<nat>, maxBps: int, units: nat) returns (placed: bool, ghost cut: nat)
    requires Permutation(order, result.Length)
    modifies result
    ensures placed <==> SumInt(old(result[..])) + units <= SumInt(Ceilings(old(result[..]), maxBps))
    ensures placed ==> SumInt(result[..]) == SumInt(old(result[..])) + units
    ensures placed ==> Between(old(result[..]), result[..], maxBps)
    ensures units <= OpenAmong(old(result[..]), order, maxBps, |order|) ==>
        && placed && cut <= |order| && OpenAmong(old(result[..]), order, maxBps, cut) == units
        && result[..] == RaiseOpen(old(result[..]), order, maxBps, cut)
  {
    hide RaiseOpen, OpenAmong, SumInt, Permutation;
    ghost var start := result[..];
    ghost var ceilings := Ceilings(start, maxBps);
    var remainder := units;
    cut := 0;
    RaiseNone(start, order, maxBps);
    while remainder != 0
      invariant 0 <= remainder <= units && SumInt(result[..]) + remainder == SumInt(start) + units
      invariant Between(start, result[..], maxBps)
      invariant units <= OpenAmong(start, order, maxBps, |order|) ==>
          (remainder == units && result[..] == start && cut == 0)
          || (remainder == 0 && cut <= |order| && result[..] == RaiseOpen(start, order, maxBps, cut))
      decreases remainder
    {
      var left, ended := Pass(result, order, maxBps, remainder);
      cut := ended;
      if left == remainder {
        assert result[..] == ceilings;
        return false, 0;
      }
      remainder := left;
    }
    SumIntMonotone(result[..], ceilings);
    return true, cut;
  }

  lemma LeftoverFits(raw: seq<real>, symbols: seq<string>, order: seq<nat>, leftover: nat, maxBps: int)
    requires |raw| == |symbols| && Permutation(order, |raw|)
    requires Ordered(Fractions(raw), symbols, order)
    requires Sum(raw) == (SumInt(Floors(raw)) + leftover) as real && SharesFit(raw, maxBps)
    ensures leftover <= OpenAmong(Floors(raw), order, maxBps, |raw|)
    ensures forall cut :: 0 <= cut <= |raw| && OpenAmong(Floors(raw), order, maxBps, cut) == leftover ==>
        FairlyRaised(RaiseOpen(Floors(raw), order, maxBps, cut), raw, symbols, maxBps)
  {
    hide RaiseOpen, OpenAmong, Sum, SumInt, SharesFit, Floor, StringLeq, Distinct, Before, FairlyRaised, Ordered;
    var floors := Floors(raw);
    if leftover > OpenAmong(floors, order, maxBps, |raw|) {
      LeftoverGoesToFractions(raw, symbols, order, maxBps, |raw|);
    }
    forall cut | 0 <= cut <= |raw| && OpenAmong(floors, order, maxBps, cut) == leftover
      ensures FairlyRaised(RaiseOpen(floors, order, maxBps, cut), raw, symbols, maxBps)
    {
      forall p | 0 <= p < cut && floors[order[p]] < maxBps
        ensures Fractions(raw)[order[p]] > 0.0
      {
        RaiseNext(floors, order, maxBps, p);
        OpenGrows(floors, order, maxBps, p + 1, cut);
        LeftoverGoesToFractions(raw, symbols, order, maxBps, p);
      }
      FirstRaisedIsFair(raw, symbols, order, maxBps, cut);
    }
  }

  /** What the rounding promises about integers for `weights`: they sum to the total, each is its
      floor or raised up to the cap, it fails exactly when floors and cap leave too little room,
      and when the shares fit the units go to the largest fractions. */
  ghost predicate LargestRemainder(
      symbols: seq<string>, weights: seq<real>, totalBps: nat, maxBps: int, r: Result<seq<int>, OptimizerError>)
    requires |symbols| == |weights| && Sum(weights) > 0.0
  {
    var shares := ExactShares(weights, totalBps);
    && (r.Err? <==> totalBps > SumInt(Ceilings(Floors(shares), maxBps)))
    && (r.Err? ==> r.error == RoundingInfeasible)
    && (r.Ok? ==> |r.value| == |weights| && SumInt(r.value) == totalBps && Between(Floors(shares), r.value, maxBps))
    && (SharesFit(shares, maxBps) ==> r.Ok? && FairlyRaised(r.value, shares, symbols, maxBps))
  }

  method BasisPoints(symbols: seq<string>, weights: seq<real>, totalBps: nat, maxBps: int)
    returns (r: Result<seq<int>, OptimizerError>)
    requires |symbols| == |weights| && Sum(weights) > 0.0
    ensures LargestRemainder(symbols, weights, totalBps, maxBps, r)
  {
    hide Share, Floor, RaiseOpen, OpenAmong, Sum, SumInt, SharesFit, FairlyRaised, Ordered, Distinct;
    var raw := ExactShares(weights, totalBps);
    ExactSharesSum(weights, totalBps);
    var floors := Floors(raw);
    SumAboveInts(raw, floors);
    var order := SortedIndices(Fractions(raw), symbols, |raw|);
    var result := new int[|raw|](i requires 0 <= i < |raw| => floors[i]);
    assert result[..] == floors;
    var remainder := totalBps - SumInt(floors);
    if SharesFit(raw, maxBps) {
      LeftoverFits(raw, symbols, order, remainder, maxBps);
    }
    var placed, cut := Distribute(result, order, maxBps, remainder);
    r := if placed then Ok(result[..]) else Err(RoundingInfeasible);
  }

  // ---------------------------------------------------------------- the optimizer's two stages

  const BPS := 10000.0

  /** A share that passes the cap by less than half a basis point is not above the rounded cap
      by a whole unit: its floor stays within the cap. */
  lemma FloorBelowRoundedCap(share: real, capBps: real, slack: real)
    requires share <= capBps + slack && 0.0 <= slack < 0.5
    ensures Floor(share) <= RoundHalfEven(capBps)
  {
  }

  lemma {:induction false} SumIntConstant(s: seq<int>, c: int)
    requires forall i :: 0 <= i < |s| ==> s[i] == c
    ensures SumInt(s) == |s| * c
  {
    if s != [] {
      SumIntConstant(s[..|s| - 1], c);
      assert |s| * c == (|s| - 1) * c + c;
    }
  }

  /** When the total is a whole number of basis points every share is its weight in basis
      points, so all floors sit within the rounded cap. */
  lemma AllocationCeilings(weights: seq<real>, start: seq<real>, total: real, totalBps: nat, cap: real, eps: real)
    requires Allocation(start, weights, total, cap, eps)
    requires total > 0.0 && Times(total, BPS) == totalBps as real
    requires 0.0 <= eps && Times(eps, BPS) < 0.5
    ensures SumInt(Ceilings(Floors(ExactShares(weights, totalBps)), RoundHalfEven(Times(cap, BPS))))
         == |weights| * RoundHalfEven(Times(cap, BPS))
    ensures forall i :: 0 <= i < |weights| ==>
        Floor(ExactShares(weights, totalBps)[i]) <= RoundHalfEven(Times(cap, BPS))
  {
    hide Times, Share, RoundHalfEven, Floor;
    var raw, maxBps := ExactShares(weights, totalBps), RoundHalfEven(Times(cap, BPS));
    forall i | 0 <= i < |weights|
      ensures Floor(raw[i]) <= maxBps
    {
      ShareIsTimes(weights[i], total, totalBps as real);
      assert totalBps as real / total == BPS by {
        DivideProduct(total, BPS, totalBps as real);
      }
      TimesMonotone(BPS, weights[i], cap + eps);
      TimesCommutative(BPS, weights[i]);
      TimesCommutative(BPS, cap + eps);
      TimesAdd(BPS, cap, eps);
      TimesNonNegative(eps, BPS);
      FloorBelowRoundedCap(raw[i], Times(cap, BPS), Times(eps, BPS));
    }
    SumIntConstant(Ceilings(Floors(raw), maxBps), maxBps);
  }

  lemma DivideProduct(a: real, b: real, c: real)
    requires a > 0.0 && Times(a, b) == c
    ensures c / a == b
  {
  }

  predicate ValidConstraints(totalWeight: real, maxWeight: real) {
    0.0 < totalWeight <= 1.0 && 0.0 < maxWeight <= 1.0
  }

  function Bps(weight: real): (n: int)
    ensures weight >= 0.0 ==> n >= 0
  {
    TimesSign(weight);
    RoundHalfEven(Times(weight, BPS))
  }

  lemma TimesSign(weight: real)
    ensures weight >= 0.0 ==> Times(weight, BPS) >= 0.0
  {
  }

  predicate WholeBps(weight: real) {
    Times(weight, BPS) == Bps(weight) as real
  }

  /** Estimator output the optimizer accepts. */
  ghost predicate Usable(raw: seq<real>) {
    !InvalidInput(raw) && Sum(Clip(raw)) > 0.0
  }

  predicate GuardFires(n: nat, totalWeight: real, maxWeight: real) {
    Times(n as real, maxWeight) + GUARD_TOLERANCE < totalWeight
  }

  /** The result rounds a water-filled allocation of the estimator output. */
  ghost predicate RoundsAllocation(
      symbols: seq<string>, raw: seq<real>, totalWeight: real, maxWeight: real, eps: real, r: Result<seq<int>, OptimizerError>)
    requires |symbols| == |raw| && Usable(raw) && totalWeight > 0.0
  {
    exists weights ::
      && Allocation(Scaled(raw, totalWeight), weights, totalWeight, maxWeight, eps)
      && LargestRemainder(symbols, weights, Bps(totalWeight), Bps(maxWeight), r)
  }

  /** The weight stage of `optimize`: guard, water-filling, rounding. */
  method OptimizeWeights(symbols: seq<string>, raw: seq<real>, totalWeight: real, maxWeight: real, eps: real)
    returns (r: Result<seq<int>, OptimizerError>)
    requires |symbols| == |raw| && ValidConstraints(totalWeight, maxWeight)
    requires 0.0 <= eps && Times(eps, BPS) < 0.5
    ensures r == Err(GuardInfeasible) <==> GuardFires(|raw|, totalWeight, maxWeight)
    ensures r == Err(InvalidWeights) <==> !GuardFires(|raw|, totalWeight, maxWeight) && InvalidInput(raw)
    ensures r == Err(ZeroWeights) <==>
        !GuardFires(|raw|, totalWeight, maxWeight) && !InvalidInput(raw) && Sum(Clip(raw)) <= 0.0
    ensures r == Err(CapInfeasible) ==> Times(|raw| as real, maxWeight) < totalWeight
    ensures !GuardFires(|raw|, totalWeight, maxWeight) && Usable(raw) && r != Err(CapInfeasible) ==>
        RoundsAllocation(symbols, raw, totalWeight, maxWeight, eps, r)
    ensures WholeBps(totalWeight) && r.Ok? ==> |r.value| == |raw| && SumInt(r.value) == Bps(totalWeight)
    ensures WholeBps(totalWeight) && r.Ok? ==> forall i :: 0 <= i < |r.value| ==> 0 <= r.value[i] <= Bps(maxWeight)
    ensures WholeBps(totalWeight) && Usable(raw) && Times(|raw| as real, maxWeight) >= totalWeight ==>
        (r.Ok? <==> Bps(totalWeight) <= |raw| * Bps(maxWeight))
  {
    hide Times, RoundHalfEven, Share, LargestRemainder, Allocation, Bps;
    if Times(|raw| as real, maxWeight) + GUARD_TOLERANCE < totalWeight {
      GuardTolerates(|raw|, totalWeight, maxWeight);
      return Err(GuardInfeasible);
    }
    var weights := NormalizedWeights(raw, totalWeight, maxWeight, eps);
    if weights.Err? {
      return Err(weights.error);
    }
    assert Allocation(Scaled(raw, totalWeight), weights.value, totalWeight, maxWeight, eps);
    AllocationSums(Scaled(raw, totalWeight), weights.value, totalWeight, maxWeight, eps);
    r := BasisPoints(symbols, weights.value, Bps(totalWeight), Bps(maxWeight));
    RoundingError(symbols, weights.value, Bps(totalWeight), Bps(maxWeight), r);
    if WholeBps(totalWeight) {
      WholeTotals(symbols, raw, weights.value, totalWeight, maxWeight, eps, r);
    }
  }

  lemma GuardTolerates(n: nat, totalWeight: real, maxWeight: real)
    requires GuardFires(n, totalWeight, maxWeight)
    ensures Times(n as real, maxWeight) < totalWeight
  {
  }

  lemma AllocationSums(start: seq<real>, weights: seq<real>, total: real, cap: real, eps: real)
    requires Allocation(start, weights, total, cap, eps)
    ensures |weights| == |start| && Sum(weights) == total && NonNegative(weights)
  {
  }

  lemma RoundingError(
      symbols: seq<string>, weights: seq<real>, totalBps: nat, maxBps: int, r: Result<seq<int>, OptimizerError>)
    requires |symbols| == |weights| && Sum(weights) > 0.0 && LargestRemainder(symbols, weights, totalBps, maxBps, r)
    ensures r.Err? ==> r.error == RoundingInfeasible
  {
  }

  /** Rounding a water-filled allocation of a whole-basis-point total. */
  lemma WholeTotals(
      symbols: seq<string>, raw: seq<real>, weights: seq<real>, totalWeight: real, maxWeight: real, eps: real,
      r: Result<seq<int>, OptimizerError>)
    requires |symbols| == |raw| && Usable(raw) && 0.0 < totalWeight && WholeBps(totalWeight)
    requires 0.0 <= eps && Times(eps, BPS) < 0.5
    requires Allocation(Scaled(raw, totalWeight), weights, totalWeight, maxWeight, eps)
    requires LargestRemainder(symbols, weights, Bps(totalWeight), Bps(maxWeight), r)
    ensures r.Ok? <==> Bps(totalWeight) <= |raw| * Bps(maxWeight)
    ensures r.Ok? ==> |r.value| == |raw| && SumInt(r.value) == Bps(totalWeight)
    ensures r.Ok? ==> forall i :: 0 <= i < |r.value| ==> 0 <= r.value[i] <= Bps(maxWeight)
  {
    AllocationCeilings(weights, Scaled(raw, totalWeight), totalWeight, Bps(totalWeight), maxWeight, eps);
    SharesNonNegative(weights, Bps(totalWeight));
    hide Times, RoundHalfEven, Share, Floor, FairlyRaised;
  }

  lemma SharesNonNegative(weights: seq<real>, totalBps: nat)
    requires NonNegative(weights) && Sum(weights) > 0.0
    ensures forall i :: 0 <= i < |weights| ==> Floor(ExactShares(weights, totalBps)[i]) >= 0
  {
    hide Share;
    forall i | 0 <= i < |weights|
      ensures Floor(ExactShares(weights, totalBps)[i]) >= 0
    {
      ShareNonNegative(weights[i], Sum(weights), totalBps as real);
    }
  }

  // ---------------------------------------------------------------- ties

  /** Of two entries with the same share, the one whose symbol comes first at the first difference
      never gets fewer units, and at most one more. */
  lemma TiesGoToTheFirstSymbol(result: seq<int>, raw: seq<real>, symbols: seq<string>, maxBps: int, i: nat, j: nat, k: nat)
    requires |result| == |raw| == |symbols| && i < |raw| && j < |raw| && FairlyRaised(result, raw, symbols, maxBps)
    requires result[j] <= maxBps && raw[i] == raw[j] && FirstDifference(symbols[i], symbols[j], k) && symbols[i] != symbols[j]
    ensures result[j] <= result[i] <= result[j] + 1
  {
    StringLeqIsLexicographic(symbols[i], symbols[j], k);
    hide StringLeq, Floor;
  }

  /** Equal estimates get equal weights, and left-over units go to the symbol that comes first. */
  ghost predicate TiesByName(symbols: seq<string>, raw: seq<real>, result: seq<int>)
    requires |symbols| == |raw| == |result|
  {
    forall i, j, k: nat ::
      0 <= i < |raw| && 0 <= j < |raw| && raw[i] == raw[j] && symbols[i] != symbols[j] && FirstDifference(symbols[i], symbols[j], k) ==>
      result[j] <= result[i] <= result[j] + 1
  }

  // ---------------------------------------------------------------- what the service sends

  /** A whole number of basis points as a weight. */
  function Weight(bps: nat): real {
    bps as real / BPS
  }

  lemma WeightIsWhole(bps: nat)
    ensures WholeBps(Weight(bps)) && Bps(Weight(bps)) == bps
  {
    hide RoundHalfEven;
    TimesQuotient(bps as real, BPS);
    RoundInteger(bps);
  }

  /** Between whole basis points the guard's tolerance decides nothing. */
  lemma GuardIsExact(n: nat, totalBps: nat, maxBps: nat)
    ensures GuardFires(n, Weight(totalBps), Weight(maxBps)) <==> n * maxBps < totalBps
    ensures Times(n as real, Weight(maxBps)) >= Weight(totalBps) <==> totalBps <= n * maxBps
  {
    assert n as real * maxBps as real == (n * maxBps) as real;
    assert Times(n as real, Weight(maxBps)) == (n * maxBps) as real / BPS;
  }

  /** The water-filled weights and their fair rounding: what a successful request returns. */
  ghost predicate FairRounding(symbols: seq<string>, raw: seq<real>, totalBps: nat, maxBps: nat, eps: real, result: seq<int>)
    requires |symbols| == |raw| && Usable(raw) && totalBps > 0
  {
    |result| == |raw| && exists weights ::
      && Allocation(Scaled(raw, Weight(totalBps)), weights, Weight(totalBps), Weight(maxBps), eps)
      && FairlyRaised(result, ExactShares(weights, totalBps), symbols, maxBps)
  }

  /** The tolerance, added up over all assets, is less than a basis point. */
  predicate Fine(n: nat, eps: real) {
    0.0 <= eps && Times(n as real, Times(eps, BPS)) < 1.0
  }

  /** The shares of a whole-basis-point request fit under its cap but for the tolerance. */
  lemma SharesFitWholeCaps(start: seq<real>, weights: seq<real>, totalBps: nat, maxBps: nat, eps: real)
    requires totalBps > 0 && Allocation(start, weights, Weight(totalBps), Weight(maxBps), eps) && Fine(|weights|, eps)
    ensures SharesFit(ExactShares(weights, totalBps), maxBps)
  {
    var total, cap := Weight(totalBps), Weight(maxBps);
    var shares := ExactShares(weights, totalBps);
    TimesNonNegative(eps, BPS);
    hide Times, Share, Overshoot;
    TimesQuotient(totalBps as real, BPS);
    TimesQuotient(maxBps as real, BPS);
    DivideProduct(total, BPS, totalBps as real);
    forall i | 0 <= i < |weights|
      ensures shares[i] <= maxBps as real + Times(eps, BPS)
    {
      ShareIsTimes(weights[i], total, totalBps as real);
      TimesMonotone(BPS, weights[i], cap + eps);
      TimesAdd(BPS, cap, eps);
      TimesCommutative(BPS, weights[i]);
      TimesCommutative(BPS, cap + eps);
    }
    OvershootBounded(shares, maxBps, Times(eps, BPS));
  }

  lemma FairWhenWhole(
      symbols: seq<string>, raw: seq<real>, totalBps: nat, maxBps: nat, eps: real, r: Result<seq<int>, OptimizerError>)
    requires |symbols| == |raw| && Usable(raw) && totalBps > 0 && Fine(|raw|, eps)
    requires RoundsAllocation(symbols, raw, Weight(totalBps), Weight(maxBps), eps, r)
    ensures r.Ok? && FairRounding(symbols, raw, totalBps, maxBps, eps, r.value)
  {
    hide Times, Share, RoundHalfEven, FairlyRaised, SharesFit, Fine, NoneCutBelowCap, OrderKept, Levelled;
    WeightIsWhole(totalBps);
    WeightIsWhole(maxBps);
    var total, cap := Weight(totalBps), Weight(maxBps);
    var weights :| Allocation(Scaled(raw, total), weights, total, cap, eps)
                && LargestRemainder(symbols, weights, Bps(total), Bps(cap), r);
    SharesFitWholeCaps(Scaled(raw, total), weights, totalBps, maxBps, eps);
  }

  /** The optimize endpoint, which takes its total and its cap in whole basis points: it fails
      exactly when the caps cannot hold the total or the estimator gave no usable weights, and
      otherwise returns the fairly rounded water-filled allocation. */
  method OptimizeRequest(symbols: seq<string>, raw: seq<real>, totalBps: nat, maxBps: nat, eps: real)
    returns (r: Result<seq<int>, OptimizerError>)
    requires |symbols| == |raw| && 1 <= totalBps <= 10000 && 1 <= maxBps <= 10000
    requires Fine(|raw|, eps) && Times(eps, BPS) < 0.5
    ensures r == Err(GuardInfeasible) <==> |raw| * maxBps < totalBps
    ensures r == Err(InvalidWeights) <==> totalBps <= |raw| * maxBps && InvalidInput(raw)
    ensures r == Err(ZeroWeights) <==> totalBps <= |raw| * maxBps && !InvalidInput(raw) && Sum(Clip(raw)) <= 0.0
    ensures r.Ok? <==> totalBps <= |raw| * maxBps && Usable(raw)
    ensures r.Ok? ==> |r.value| == |raw| && SumInt(r.value) == totalBps
    ensures r.Ok? ==> forall i :: 0 <= i < |r.value| ==> 0 <= r.value[i] <= maxBps
    ensures r.Ok? ==> FairRounding(symbols, raw, totalBps, maxBps, eps, r.value)
    ensures r.Ok? ==> TiesByName(symbols, raw, r.value)
  {
    WeightIsWhole(totalBps);
    WeightIsWhole(maxBps);
    GuardIsExact(|raw|, totalBps, maxBps);
    hide Times, RoundHalfEven, GuardFires, RoundsAllocation, FairRounding, WholeBps, Bps;
    r := OptimizeWeights(symbols, raw, Weight(totalBps), Weight(maxBps), eps);
    if r.Ok? {
      FairWhenWhole(symbols, raw, totalBps, maxBps, eps, r);
      FairIsByName(symbols, raw, totalBps, maxBps, eps, r.value);
    }
  }

  lemma FairIsByName(symbols: seq<string>, raw: seq<real>, totalBps: nat, maxBps: nat, eps: real, result: seq<int>)
    requires |symbols| == |raw| && Usable(raw) && totalBps > 0 && FairRounding(symbols, raw, totalBps, maxBps, eps, result)
    requires forall i :: 0 <= i < |result| ==> result[i] <= maxBps
    ensures TiesByName(symbols, raw, result)
  {
    hide FairlyRaised, StringLeq, Share, NoneCutBelowCap, Levelled, FilledUp;
    var start := Scaled(raw, Weight(totalBps));
    var weights :| Allocation(start, weights, Weight(totalBps), Weight(maxBps), eps)
                && FairlyRaised(result, ExactShares(weights, totalBps), symbols, maxBps);
    forall i, j, k: nat | 0 <= i < |raw| && 0 <= j < |raw| && raw[i] == raw[j] && symbols[i] != symbols[j]
      && FirstDifference(symbols[i], symbols[j], k)
      ensures result[j] <= result[i] <= result[j] + 1
    {
      assert start[i] == start[j];
      assert weights[i] == weights[j];
      TiesGoToTheFirstSymbol(result, ExactShares(weights, totalBps), symbols, maxBps, i, j, k);
    }
  }
}
