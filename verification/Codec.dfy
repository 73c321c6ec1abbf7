/** The dataset package codec (quant-worker/dataset_sync/codec.py) on uncompressed text: field
    printers and parsers, the encoder and the decoder. Compression and digests are not modelled; a
    digest stands for what it summarises. Timestamps carry milliseconds in UTC. */
module Codec {
  import opened Prelude
  import opened Csv

  // ---------------------------------------------------------------- digits

  function Digit(n: nat): char
    requires n < 10
  {
    (48 + n) as char
  }

  predicate IsDigit(c: char) {
    '0' <= c <= '9'
  }

  predicate AllDigits(s: string) {
    forall i | 0 <= i < |s| :: IsDigit(s[i])
  }

  function Pow10(k: nat): (p: nat)
    ensures p >= 1
  {
    if k == 0 then 1 else 10 * Pow10(k - 1)
  }

  /** The number a digit string denotes. */
  function Value(s: string): nat
    requires AllDigits(s)
  {
    if s == "" then 0 else Value(s[..|s| - 1]) * 10 + (s[|s| - 1] as int - 48)
  }

  /** The last `k` decimal digits of `n`. */
  function Fixed(n: nat, k: nat): (s: string)
    ensures |s| == k && AllDigits(s)
  {
    if k == 0 then "" else Fixed(n / 10, k - 1) + [Digit(n % 10)]
  }

  /** The decimal digits of `n` without padding. */
  function Plain(n: nat): (s: string)
    ensures s != "" && AllDigits(s)
  {
    if n < 10 then [Digit(n)] else Plain(n / 10) + [Digit(n % 10)]
  }

  lemma ValueSnoc(s: string, c: char)
    requires AllDigits(s) && IsDigit(c)
    ensures AllDigits(s + [c]) && Value(s + [c]) == Value(s) * 10 + (c as int - 48)
  {
    assert (s + [c])[..|s|] == s;
  }

  lemma {:induction false} ValueFixed(n: nat, k: nat)
    requires n < Pow10(k)
    ensures Value(Fixed(n, k)) == n
  {
    if k > 0 {
      ValueFixed(n / 10, k - 1);
      ValueSnoc(Fixed(n / 10, k - 1), Digit(n % 10));
    }
  }

  lemma {:induction false} ValuePlain(n: nat)
    ensures Value(Plain(n)) == n
  {
    if n < 10 {
      ValueSnoc("", Digit(n));
      assert "" + [Digit(n)] == [Digit(n)];
    } else {
      ValuePlain(n / 10);
      ValueSnoc(Plain(n / 10), Digit(n % 10));
    }
  }

  lemma Shift(x: nat, p: nat, y: nat, d: nat)
    ensures (x * p + y) * 10 + d == x * (10 * p) + (y * 10 + d)
  {
  }

  lemma Pow10Step(k: nat)
    ensures Pow10(k + 1) == 10 * Pow10(k)
  {
  }

  lemma {:induction false} ValueConcat(a: string, b: string)
    requires AllDigits(a) && AllDigits(b)
    ensures AllDigits(a + b) && Value(a + b) == Value(a) * Pow10(|b|) + Value(b)
  {
    if b == "" {
      assert a + b == a;
    } else {
      var (init, c) := (b[..|b| - 1], b[|b| - 1]);
      assert a + b == a + init + [c] && b == init + [c];
      hide Value, Pow10;
      ValueConcat(a, init);
      ValueSnoc(a + init, c);
      ValueSnoc(init, c);
      Pow10Step(|init|);
      Shift(Value(a), Pow10(|init|), Value(init), c as int - 48);
    }
  }

  // ---------------------------------------------------------------- decimals

  /** What printing with k decimals keeps. */
  function Rounded(x: real, k: nat): real {
    Nearest(x, Pow10(k) as real)
  }

  function Magnitude(x: real, k: nat): nat {
    var n := RoundHalfEven(Times(x, Pow10(k) as real));
    if n >= 0 then n else -n
  }

  function Quotient(n: nat, p: nat): (q: nat)
    requires p > 0
    ensures q * p <= n < q * p + p
  {
    n / p
  }

  function Remainder(n: nat, p: nat): (r: nat)
    requires p > 0
    ensures r < p && Quotient(n, p) * p + r == n
  {
    n % p
  }

  /** `n` units of 10^-k with all k decimals. */
  function PrintUnits(n: nat, k: nat): string {
    Plain(Quotient(n, Pow10(k))) + "." + Fixed(Remainder(n, Pow10(k)), k)
  }

  function PrintDecimal(x: real, k: nat): string {
    if x < 0.0 then "-" + PrintUnits(Magnitude(x, k), k) else PrintUnits(Magnitude(x, k), k)
  }

  /** The position of the decimal point, or the length. */
  function Point(s: string): (i: nat)
    ensures i <= |s| && (i < |s| ==> s[i] == '.') && forall j :: 0 <= j < i ==> s[j] != '.'
  {
    if s == "" || s[0] == '.' then 0 else 1 + Point(s[1..])
  }

  function ParseUnsigned(s: string): Option<real> {
    var i := Point(s);
    var (whole, fraction) := (s[..i], if i == |s| then "" else s[i + 1..]);
    if whole + fraction == "" || !AllDigits(whole + fraction) then None
    else Some(Value(whole + fraction) as real / Pow10(|fraction|) as real)
  }

  /** An optional sign, digits, an optional point and more digits. */
  function ParseDecimal(s: string): Option<real> {
    if s != "" && s[0] == '-' then
      var x := ParseUnsigned(s[1..]);
      if x.None? then None else Some(-x.value)
    else if s != "" && s[0] == '+' then ParseUnsigned(s[1..])
    else ParseUnsigned(s)
  }

  lemma PointOfParts(whole: string, fraction: string)
    requires AllDigits(whole)
    ensures Point(whole + "." + fraction) == |whole|
  {
    var s := whole + "." + fraction;
    assert s[|whole|] == '.';
    assert forall j :: 0 <= j < |whole| ==> s[j] == whole[j];
  }

  lemma ParseUnits(n: nat, k: nat)
    ensures ParseUnsigned(PrintUnits(n, k)) == Some(n as real / Pow10(k) as real)
    ensures PrintUnits(n, k) != "" && IsDigit(PrintUnits(n, k)[0])
  {
    hide Value, Pow10, Plain, Fixed, Point, Quotient, Remainder;
    var p := Pow10(k);
    var (whole, fraction) := (Plain(Quotient(n, p)), Fixed(Remainder(n, p), k));
    var s := whole + "." + fraction;
    PointOfParts(whole, fraction);
    assert s[..|whole|] == whole && s[|whole| + 1..] == fraction;
    assert s[0] == whole[0];
    ValueConcat(whole, fraction);
    ValuePlain(Quotient(n, p));
    ValueFixed(Remainder(n, p), k);
  }

  lemma SignOfRounding(x: real)
    ensures x < 0.0 ==> RoundHalfEven(x) <= 0
    ensures x >= 0.0 ==> RoundHalfEven(x) >= 0
  {
  }

  lemma ScaledSign(x: real, p: real)
    requires p > 0.0
    ensures x < 0.0 <==> Times(x, p) < 0.0
  {
  }

  /** Parsing a printed decimal gives the decimal rounded to the printed scale. */
  lemma DecimalRoundTrip(x: real, k: nat)
    ensures ParseDecimal(PrintDecimal(x, k)) == Some(Rounded(x, k))
  {
    hide ParseUnsigned, RoundHalfEven, Times, PrintUnits, Pow10;
    var p := Pow10(k) as real;
    var n := RoundHalfEven(Times(x, p));
    ScaledSign(x, p);
    SignOfRounding(Times(x, p));
    var m := Magnitude(x, k);
    var body := PrintUnits(m, k);
    ParseUnits(m, k);
    if x < 0.0 {
      assert ("-" + body)[1..] == body;
      Negate(m, n, p);
    }
  }

  lemma Negate(m: int, n: int, p: real)
    requires m == -n && p > 0.0
    ensures -(m as real / p) == n as real / p
  {
    assert m as real == -(n as real);
  }

  // ---------------------------------------------------------------- timestamps

  /** A civil date and time in UTC with milliseconds. */
  datatype DateTime = DateTime(year: nat, month: nat, day: nat, hour: nat, minute: nat, second: nat, milli: nat) {
    predicate Valid() {
      && 1 <= year <= 9999 && 1 <= month <= 12 && 1 <= day <= DaysIn(year, month)
      && hour < 24 && minute < 60 && second < 60 && milli < 1000
    }

    /** Chronological position. */
    function Ordinal(): nat {
      (((((year * 13 + month) * 32 + day) * 24 + hour) * 60 + minute) * 60 + second) * 1000 + milli
    }
  }

  type Moment = d: DateTime | d.Valid() witness DateTime(1, 1, 1, 0, 0, 0, 0)

  function DaysIn(year: nat, month: nat): nat {
    if month == 2 then (if year % 4 == 0 && (year % 100 != 0 || year % 400 == 0) then 29 else 28)
    else if month == 4 || month == 6 || month == 9 || month == 11 then 30
    else 31
  }

  function PrintTimestamp(d: Moment): (s: string)
    ensures |s| == 24
  {
    Fixed(d.year, 4) + "-" + Fixed(d.month, 2) + "-" + Fixed(d.day, 2) + "T" + Fixed(d.hour, 2) + ":"
      + Fixed(d.minute, 2) + ":" + Fixed(d.second, 2) + "." + Fixed(d.milli, 3) + "Z"
  }

  /** Reads `s[from..to]` as a number. */
  function Part(s: string, from: nat, to: nat): Option<nat>
    requires from <= to <= |s|
  {
    if AllDigits(s[from..to]) then Some(Value(s[from..to])) else None
  }

  function ParseTimestamp(s: string): Option<Moment> {
    if |s| != 24 || s[4] != '-' || s[7] != '-' || s[10] != 'T' || s[13] != ':' || s[16] != ':' || s[19] != '.' || s[23] != 'Z' then None
    else
      var (year, month, day) := (Part(s, 0, 4), Part(s, 5, 7), Part(s, 8, 10));
      var (hour, minute, second, milli) := (Part(s, 11, 13), Part(s, 14, 16), Part(s, 17, 19), Part(s, 20, 23));
      if year.None? || month.None? || day.None? || hour.None? || minute.None? || second.None? || milli.None? then None
      else
        var d := DateTime(year.value, month.value, day.value, hour.value, minute.value, second.value, milli.value);
        if d.Valid() then Some(d) else None
  }

  lemma PrintedParts(d: Moment)
    ensures var s := PrintTimestamp(d);
      && s[0..4] == Fixed(d.year, 4) && s[5..7] == Fixed(d.month, 2) && s[8..10] == Fixed(d.day, 2)
      && s[11..13] == Fixed(d.hour, 2) && s[14..16] == Fixed(d.minute, 2) && s[17..19] == Fixed(d.second, 2)
      && s[20..23] == Fixed(d.milli, 3)
      && s[4] == '-' && s[7] == '-' && s[10] == 'T' && s[13] == ':' && s[16] == ':' && s[19] == '.' && s[23] == 'Z'
  {
    hide Fixed;
  }

  lemma SmallPowers()
    ensures Pow10(2) == 100 && Pow10(3) == 1000 && Pow10(4) == 10000
  {
    assert Pow10(1) == 10;
  }

  lemma TimestampRoundTrip(d: Moment)
    ensures ParseTimestamp(PrintTimestamp(d)) == Some(d)
  {
    SmallPowers();
    PrintedParts(d);
    hide Fixed, Value, PrintTimestamp, AllDigits, Pow10;
    ValueFixed(d.year, 4);
    ValueFixed(d.month, 2);
    ValueFixed(d.day, 2);
    ValueFixed(d.hour, 2);
    ValueFixed(d.minute, 2);
    ValueFixed(d.second, 2);
    ValueFixed(d.milli, 3);
  }

  // ---------------------------------------------------------------- the printed forms

  /** A printed timestamp reads year, month, day, "T", hour, minute, second and thousandths, with the
      separators of section 5.6 of RFC 3339. */
  lemma TimestampsAreIso(d: Moment)
    ensures var s := PrintTimestamp(d);
      && Value(s[0..4]) == d.year && Value(s[5..7]) == d.month && Value(s[8..10]) == d.day
      && Value(s[11..13]) == d.hour && Value(s[14..16]) == d.minute && Value(s[17..19]) == d.second
      && Value(s[20..23]) == d.milli
      && s[4] == s[7] == '-' && s[10] == 'T' && s[13] == s[16] == ':' && s[19] == '.' && s[23] == 'Z'
  {
    SmallPowers();
    PrintedParts(d);
    hide Fixed, Value, PrintTimestamp, AllDigits, Pow10;
    ValueFixed(d.year, 4);
    ValueFixed(d.month, 2);
    ValueFixed(d.day, 2);
    ValueFixed(d.hour, 2);
    ValueFixed(d.minute, 2);
    ValueFixed(d.second, 2);
    ValueFixed(d.milli, 3);
  }

  function Parts(d: Moment): seq<nat> {
    [d.year, d.month, d.day, d.hour, d.minute, d.second, d.milli]
  }

  /** The ordinal orders moments by the first part, from the year down, in which they differ. */
  lemma OrdinalIsChronological(a: Moment, b: Moment, k: nat)
    requires k < 7 && Parts(a)[..k] == Parts(b)[..k] && Parts(a)[k] < Parts(b)[k]
    ensures a.Ordinal() < b.Ordinal()
  {
    assert forall i :: 0 <= i < k ==> Parts(a)[i] == Parts(a)[..k][i] == Parts(b)[..k][i] == Parts(b)[i];
    assert k > 0 ==> Parts(a)[0] == Parts(b)[0];
    assert k > 1 ==> Parts(a)[1] == Parts(b)[1];
    assert k > 2 ==> Parts(a)[2] == Parts(b)[2];
    assert k > 3 ==> Parts(a)[3] == Parts(b)[3];
    assert k > 4 ==> Parts(a)[4] == Parts(b)[4];
    assert k > 5 ==> Parts(a)[5] == Parts(b)[5];
  }

  /** Digits, a point and exactly `k` digits, which together are `n`. */
  ghost predicate InDecimals(s: string, n: nat, k: nat) {
    && |s| > k + 1 && s[|s| - k - 1] == '.' && s[0] != '-'
    && AllDigits(s[..|s| - k - 1]) && AllDigits(s[|s| - k..])
    && Value(s[..|s| - k - 1]) * Pow10(k) + Value(s[|s| - k..]) == n
  }

  lemma UnitsInDecimals(n: nat, k: nat)
    ensures InDecimals(PrintUnits(n, k), n, k)
  {
    var (whole, fraction) := (Plain(Quotient(n, Pow10(k))), Fixed(Remainder(n, Pow10(k)), k));
    ValuePlain(Quotient(n, Pow10(k)));
    ValueFixed(Remainder(n, Pow10(k)), k);
    DigitsOnly(whole);
    hide Plain, Fixed, Value, AllDigits, Pow10, Quotient, Remainder;
    var s := whole + "." + fraction;
    assert s[..|s| - k - 1] == whole && s[|s| - k..] == fraction;
  }

  /** A printed decimal is its rounded size in units of the last decimal, behind a minus sign exactly for
      numbers below zero. */
  lemma DecimalForm(x: real, k: nat)
    ensures var s := PrintDecimal(x, k);
      && (x < 0.0 ==> s != "" && s[0] == '-' && InDecimals(s[1..], Magnitude(x, k), k))
      && (x >= 0.0 ==> InDecimals(s, Magnitude(x, k), k))
  {
    UnitsInDecimals(Magnitude(x, k), k);
    hide InDecimals, PrintUnits, Magnitude;
    assert ("-" + PrintUnits(Magnitude(x, k), k))[1..] == PrintUnits(Magnitude(x, k), k);
  }

  lemma DigitsOnly(s: string)
    requires s != "" && AllDigits(s)
    ensures s[0] != '-'
  {
  }
}
