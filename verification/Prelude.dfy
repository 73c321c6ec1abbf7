/** Datatypes and sums shared by the models. */
module Prelude {

  datatype Option<+T> = None | Some(value: T)

  datatype Result<+T, +E> = Ok(value: T) | Err(error: E)

  function Min(a: real, b: real): real {
    if a <= b then a else b
  }

  function Max(a: real, b: real): real {
    if a >= b then a else b
  }

  function Abs(a: real): real {
    if a >= 0.0 then a else -a
  }

  /** The loss below a peak, as a percentage of it. */
  function Drawdown(equity: real, peak: real): real {
    if peak == 0.0 then 0.0 else (equity / peak - 1.0) * 100.0
  }

  /** Products are named so that a proof can `hide` them and use only the laws below. */
  function Times(a: real, b: real): real {
    a * b
  }

  lemma TimesNonNegative(a: real, b: real)
    requires a >= 0.0 && b >= 0.0
    ensures Times(a, b) >= 0.0
  {
  }

  lemma TimesAdd(a: real, b: real, c: real)
    ensures Times(a, b + c) == Times(a, b) + Times(a, c)
    ensures Times(b + c, a) == Times(b, a) + Times(c, a)
  {
  }

  lemma TimesOne(a: real)
    ensures Times(a, 1.0) == Times(1.0, a) == a
    ensures Times(a, 0.0) == Times(0.0, a) == 0.0
  {
  }

  lemma TimesAssociative(a: real, b: real, c: real)
    ensures Times(Times(a, b), c) == Times(a, Times(b, c))
  {
  }

  lemma TimesCommutative(a: real, b: real)
    ensures Times(a, b) == Times(b, a)
  {
  }

  lemma TimesMonotone(k: real, x: real, y: real)
    requires k >= 0.0 && x <= y
    ensures Times(k, x) <= Times(k, y)
  {
    TimesNonNegative(k, y - x);
    TimesAdd(k, x, y - x);
  }

  lemma TimesQuotient(a: real, b: real)
    requires b != 0.0
    ensures Times(a / b, b) == Times(b, a / b) == a
  {
  }

  /** The sum of a sequence, accumulated from the left as the loops do. */
  function Sum(s: seq<real>): real {
    if s == [] then 0.0 else Sum(s[..|s| - 1]) + s[|s| - 1]
  }

  function SumInt(s: seq<int>): int {
    if s == [] then 0 else SumInt(s[..|s| - 1]) + s[|s| - 1]
  }

  lemma SumSnoc(s: seq<real>, x: real)
    ensures Sum(s + [x]) == Sum(s) + x
  {
    assert (s + [x])[..|s|] == s;
  }

  lemma SumTake(s: seq<real>, i: nat)
    requires i < |s|
    ensures Sum(s[..i + 1]) == Sum(s[..i]) + s[i]
  {
    assert s[..i + 1] == s[..i] + [s[i]];
    SumSnoc(s[..i], s[i]);
  }

  lemma {:induction false} SumMonotone(s: seq<real>, t: seq<real>)
    requires |s| == |t|
    requires forall i :: 0 <= i < |s| ==> s[i] <= t[i]
    ensures Sum(s) <= Sum(t)
  {
    if s != [] {
      SumMonotone(s[..|s| - 1], t[..|t| - 1]);
    }
  }

  /** Pointwise ordered sequences with the same sum are equal. */
  lemma {:induction false} SumSqueeze(s: seq<real>, t: seq<real>)
    requires |s| == |t|
    requires forall i :: 0 <= i < |s| ==> s[i] <= t[i]
    requires Sum(s) == Sum(t)
    ensures s == t
  {
    if s != [] {
      SumMonotone(s[..|s| - 1], t[..|t| - 1]);
      SumSqueeze(s[..|s| - 1], t[..|t| - 1]);
      assert s == s[..|s| - 1] + [s[|s| - 1]];
      assert t == t[..|t| - 1] + [t[|t| - 1]];
    }
  }

  lemma {:induction false} SumIntUpdate(s: seq<int>, i: nat, x: int)
    requires i < |s|
    ensures SumInt(s[i := x]) == SumInt(s) - s[i] + x
  {
    var n := |s| - 1;
    if i == n {
      assert s[i := x][..n] == s[..n];
    } else {
      assert s[i := x][..n] == s[..n][i := x];
      SumIntUpdate(s[..n], i, x);
    }
  }

  lemma {:induction false} SumIntMonotone(s: seq<int>, t: seq<int>)
    requires |s| == |t|
    requires forall i :: 0 <= i < |s| ==> s[i] <= t[i]
    ensures SumInt(s) <= SumInt(t)
  {
    if s != [] {
      SumIntMonotone(s[..|s| - 1], t[..|t| - 1]);
    }
  }

  predicate Ascending(s: seq<int>) {
    forall i, j | 0 <= i < j < |s| :: s[i] < s[j]
  }

  /** Inserts a number into an ascending list unless it is there. */
  function InsertAscending(s: seq<int>, x: int): (r: seq<int>)
    ensures forall y :: y in r <==> y in s || y == x
  {
    if s == [] || s[|s| - 1] < x then s + [x]
    else if s[|s| - 1] == x then s
    else
      assert s == s[..|s| - 1] + [s[|s| - 1]];
      InsertAscending(s[..|s| - 1], x) + [s[|s| - 1]]
  }

  lemma {:induction false} InsertAscendingKeeps(s: seq<int>, x: int)
    requires Ascending(s)
    ensures Ascending(InsertAscending(s, x))
  {
    if s != [] && s[|s| - 1] > x {
      var (init, last) := (s[..|s| - 1], s[|s| - 1]);
      InsertAscendingKeeps(init, x);
      var r := InsertAscending(init, x);
      forall i | 0 <= i < |r|
        ensures r[i] < last
      {
        assert r[i] in r;
      }
    }
  }

  /** Python's `round`: to the nearest integer, halves to the even one. */
  function RoundHalfEven(x: real): (n: int)
    ensures n as real - 0.5 <= x <= n as real + 0.5
  {
    var f := x.Floor;
    if x - f as real < 0.5 then f
    else if x - f as real > 0.5 then f + 1
    else if f % 2 == 0 then f else f + 1
  }

  /** The multiple of 1/scale nearest to `x`, ties to the even one. */
  function Nearest(x: real, scale: real): real
    requires scale > 0.0
  {
    RoundHalfEven(Times(x, scale)) as real / scale
  }

  /** `x` is n units of 1/scale. */
  predicate Units(x: real, n: int, scale: real)
    requires scale > 0.0
  {
    x == n as real / scale
  }

  lemma RoundInteger(n: int)
    ensures RoundHalfEven(n as real) == n
  {
  }

  /** Rounding keeps exactly the multiples of its unit. */
  lemma NearestIsExact(x: real, scale: real)
    requires scale > 0.0
    ensures Nearest(x, scale) == x <==> exists n: int :: Units(x, n, scale)
  {
    hide RoundHalfEven, Times;
    if Nearest(x, scale) == x {
      assert Units(x, RoundHalfEven(Times(x, scale)), scale);
    }
    if n: int :| Units(x, n, scale) {
      TimesQuotient(n as real, scale);
      RoundInteger(n);
    }
  }

  /** Rounding moves a number by at most half a unit. */
  lemma NearestError(x: real, scale: real)
    requires scale > 0.0
    ensures Abs(Nearest(x, scale) - x) <= 0.5 / scale
  {
    var (n, y) := (RoundHalfEven(Times(x, scale)) as real, Times(x, scale));
    assert -0.5 <= n - y <= 0.5;
    hide RoundHalfEven;
    assert y / scale == x;
    QuotientSubtract(n, y, scale);
    QuotientMonotone(n - y, 0.5, scale);
    QuotientMonotone(-0.5, n - y, scale);
    QuotientSubtract(0.0, 0.5, scale);
  }

  lemma QuotientSubtract(a: real, b: real, c: real)
    requires c > 0.0
    ensures (a - b) / c == a / c - b / c && 0.0 / c == 0.0
  {
  }

  lemma RoundMonotone(x: real, n: int)
    ensures x <= n as real ==> RoundHalfEven(x) <= n
    ensures x >= n as real ==> RoundHalfEven(x) >= n
  {
  }

  /** Rounding never crosses a multiple of its unit. */
  lemma NearestBetween(x: real, low: real, high: real, scale: real)
    requires scale > 0.0 && low <= x <= high && Nearest(low, scale) == low && Nearest(high, scale) == high
    ensures low <= Nearest(x, scale) <= high
  {
    hide RoundHalfEven, Times;
    var (l, h) := (RoundHalfEven(Times(low, scale)), RoundHalfEven(Times(high, scale)));
    TimesQuotient(l as real, scale);
    TimesQuotient(h as real, scale);
    TimesMonotone(scale, low, x);
    TimesMonotone(scale, x, high);
    TimesCommutative(scale, low);
    TimesCommutative(scale, x);
    TimesCommutative(scale, high);
    RoundMonotone(Times(x, scale), l);
    RoundMonotone(Times(x, scale), h);
    QuotientMonotone(l as real, RoundHalfEven(Times(x, scale)) as real, scale);
    QuotientMonotone(RoundHalfEven(Times(x, scale)) as real, h as real, scale);
  }

  lemma QuotientMonotone(a: real, b: real, c: real)
    requires a <= b && c > 0.0
    ensures a / c <= b / c
  {
  }

  // ---------------------------------------------------------------- storage rounding

  /** Rounds half away from zero to an integer. */
  function HalfUp(x: real): (n: int)
    ensures n as real - 0.5 <= x <= n as real + 0.5
  {
    if x >= 0.0 then (x + 0.5).Floor else -((0.5 - x).Floor)
  }

  /** The multiple of 1/scale nearest to `x`, ties away from zero. */
  function Quantize(x: real, scale: real): real
    requires scale > 0.0
  {
    HalfUp(Times(x, scale)) as real / scale
  }

  lemma HalfUpInteger(k: int)
    ensures HalfUp(k as real) == k
  {
  }

  lemma QuantizeTwice(x: real, scale: real)
    requires scale > 0.0
    ensures Quantize(Quantize(x, scale), scale) == Quantize(x, scale)
  {
    hide Times, HalfUp;
    var k := HalfUp(Times(x, scale));
    TimesQuotient(k as real, scale);
    HalfUpInteger(k);
  }

  /** Storing moves a number by at most half a unit. */
  lemma QuantizeError(x: real, scale: real)
    requires scale > 0.0
    ensures Abs(Quantize(x, scale) - x) <= 0.5 / scale
  {
    var (n, y) := (HalfUp(Times(x, scale)) as real, Times(x, scale));
    assert -0.5 <= n - y <= 0.5;
    hide HalfUp;
    assert y / scale == x;
    QuotientSubtract(n, y, scale);
    QuotientMonotone(n - y, 0.5, scale);
    QuotientMonotone(-0.5, n - y, scale);
    QuotientSubtract(0.0, 0.5, scale);
  }

  /** Ties: Python's `round` goes to the even number, storage away from zero. */
  lemma TiesRound(k: int)
    ensures RoundHalfEven(k as real + 0.5) == if k % 2 == 0 then k else k + 1
    ensures k >= 0 ==> HalfUp(k as real + 0.5) == k + 1 && HalfUp(-(k as real) - 0.5) == -(k + 1)
  {
    assert (k as real + 0.5).Floor == k;
  }

  /** A drawdown is the percentage of the peak that is missing. */
  lemma DrawdownIsLoss(equity: real, peak: real)
    requires peak > 0.0
    ensures equity - peak == Times(peak, Drawdown(equity, peak) / 100.0)
    ensures equity <= peak <==> Drawdown(equity, peak) <= 0.0
    ensures Drawdown(equity, 0.0) == 0.0
  {
    var ratio := equity / peak;
    assert ratio * peak == equity;
    assert Drawdown(equity, peak) / 100.0 == ratio - 1.0;
    assert peak * (ratio - 1.0) == equity - peak;
    if ratio <= 1.0 {
      TimesNonNegative(peak, 1.0 - ratio);
    } else {
      TimesNonNegative(peak, ratio - 1.0);
    }
  }
}
