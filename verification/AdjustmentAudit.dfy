/** The independent audit of adjusted bars (quant-worker/backtest/adjustment_audit.py and the factor
    selection of audit_vn_adjustments.py). */
module AdjustmentAudit {
  import opened Prelude
  import opened Market
  import opened Adjustments

  /** What the audit refuses in an action; the adjuster reads a missing term as zero. */
  function Fault(a: CorporateAction): Option<AdjustmentError> {
    if !a.verified then Some(Unverified)
    else match a.kind
      case CashDividend => if a.cash.None? then Some(TermsIncomplete) else None
      case StockDividend => if a.distribution.None? then Some(TermsIncomplete) else None
      case Split => if a.distribution.None? then Some(TermsIncomplete) else None
      case RightsIssue => if a.subscriptionRatio.None? || a.subscriptionPrice.None? then Some(TermsIncomplete) else None
      case SymbolChange => None
  }

  /** The audit accepts exactly verified actions with all the terms of their kind. */
  lemma FaultlessHasTerms(a: CorporateAction)
    ensures Fault(a).None? <==>
        && a.verified
        && (a.kind.CashDividend? ==> a.cash.Some?)
        && (a.kind.StockDividend? || a.kind.Split? ==> a.distribution.Some?)
        && (a.kind.RightsIssue? ==> a.subscriptionRatio.Some? && a.subscriptionPrice.Some?)
    ensures Fault(a).Some? ==> Fault(a).value == if a.verified then TermsIncomplete else Unverified
  {
  }

  function FirstFault(actions: seq<CorporateAction>): Option<AdjustmentError> {
    if actions == [] then None
    else
      var earlier := FirstFault(actions[..|actions| - 1]);
      if earlier.Some? then earlier else Fault(actions[|actions| - 1])
  }

  lemma {:induction false} FaultPersists(actions: seq<CorporateAction>, n: nat)
    requires n <= |actions| && FirstFault(actions[..n]).Some?
    ensures FirstFault(actions) == FirstFault(actions[..n])
  {
    if n == |actions| {
      assert actions[..n] == actions;
    } else {
      assert actions[..|actions| - 1][..n] == actions[..n];
      FaultPersists(actions[..|actions| - 1], n);
    }
  }

  /** The audit's verdict on one ex-date in terms of the adjuster's formula. */
  function AuditedFactors(exDate: int, previousClose: real, actions: seq<CorporateAction>, scale: real): Result<Factor, AdjustmentError> {
    if previousClose <= 0.0 || scale <= 0.0 then Err(NotPositive)
    else if FirstFault(actions).Some? then Err(FirstFault(actions).value)
    else EventFactors(exDate, previousClose, actions, scale)
  }

  lemma QuotientAdd(x: real, y: real, s: real)
    requires s > 0.0
    ensures (x + y) / s == x / s + y / s && 0.0 / s == 0.0
  {
  }

  /** The second implementation: one pass that adds up scaled cash, new shares and subscription
      money agrees with the adjuster's separate sums whenever the terms are complete. */
  method IndependentEventFactors(exDate: int, previousClose: real, actions: seq<CorporateAction>, scale: real)
    returns (r: Result<Factor, AdjustmentError>)
    ensures r == AuditedFactors(exDate, previousClose, actions, scale)
  {
    if previousClose <= 0.0 || scale <= 0.0 {
      return Err(NotPositive);
    }
    hide Times;
    var cash, newShares, subscriptionValue := 0.0, 0.0, 0.0;
    QuotientAdd(0.0, 0.0, scale);
    for i := 0 to |actions|
      invariant FirstFault(actions[..i]).None?
      invariant cash == Cash(actions[..i]) / scale
      invariant newShares == Distribution(actions[..i]) + Subscription(actions[..i])
      invariant subscriptionValue == SubscriptionValue(actions[..i], scale)
    {
      TakeAction(actions, i);
      var action := actions[i];
      if Fault(action).Some? {
        FaultPersists(actions, i + 1);
        return Err(Fault(action).value);
      }
      QuotientAdd(Cash(actions[..i]), CashTerm(action), scale);
      match action.kind {
        case CashDividend => cash := cash + action.cash.value / scale;
        case StockDividend => newShares := newShares + action.distribution.value;
        case Split => newShares := newShares + action.distribution.value;
        case RightsIssue =>
          newShares := newShares + action.subscriptionRatio.value;
          subscriptionValue := subscriptionValue + Times(action.subscriptionRatio.value, action.subscriptionPrice.value) / scale;
        case SymbolChange =>
      }
    }
    assert actions[..|actions|] == actions;
    var quantity := 1.0 + newShares;
    if quantity == 0.0 {
      return Err(DivisionByZero);
    }
    var price := (previousClose - cash + subscriptionValue) / quantity / previousClose;
    if price <= 0.0 || quantity <= 0.0 {
      return Err(InvalidFactor);
    }
    r := Ok(Factor(exDate, price, quantity));
  }

  // ---------------------------------------------------------------- one audited bar

  function AllPrices(factors: seq<Factor>): real {
    if factors == [] then 1.0 else Times(AllPrices(factors[..|factors| - 1]), factors[|factors| - 1].price)
  }

  function AllQuantities(factors: seq<Factor>): real {
    if factors == [] then 1.0 else Times(AllQuantities(factors[..|factors| - 1]), factors[|factors| - 1].quantity)
  }

  const TOLERANCE := 0.00000001

  method AuditAdjustedFactors(rawClose: real, adjustedClose: real, rawVolume: Option<real>, adjustedVolume: Option<real>, factors: seq<Factor>)
    returns (passed: bool, priceDelta: real, quantityDelta: real)
    ensures priceDelta == adjustedClose - Times(rawClose, AllPrices(factors))
    ensures quantityDelta == if rawVolume.Some? && adjustedVolume.Some?
        then adjustedVolume.value - Times(rawVolume.value, AllQuantities(factors)) else 0.0
    ensures passed <==> Abs(priceDelta) <= TOLERANCE && Abs(quantityDelta) <= TOLERANCE
  {
    hide Times;
    var price, quantity := 1.0, 1.0;
    for i := 0 to |factors|
      invariant price == AllPrices(factors[..i]) && quantity == AllQuantities(factors[..i])
    {
      assert factors[..i + 1][..i] == factors[..i];
      price := Times(price, factors[i].price);
      quantity := Times(quantity, factors[i].quantity);
    }
    assert factors[..|factors|] == factors;
    priceDelta := adjustedClose - Times(rawClose, price);
    quantityDelta := 0.0;
    if rawVolume.Some? && adjustedVolume.Some? {
      quantityDelta := adjustedVolume.value - Times(rawVolume.value, quantity);
    }
    passed := Abs(priceDelta) <= TOLERANCE && Abs(quantityDelta) <= TOLERANCE;
  }

  // ---------------------------------------------------------------- the audited factors of a history

  /** The factors the audit could compute, one per ex-date with a bar before it. */
  function AuditFactors(bars: seq<Bar>, actions: seq<CorporateAction>, dates: seq<int>, scale: real): seq<Factor> {
    if dates == [] then []
    else
      var earlier := AuditFactors(bars, actions, dates[..|dates| - 1], scale);
      var date := dates[|dates| - 1];
      var previous := LastBefore(bars, date);
      if previous.None? then earlier
      else
        var factor := AuditedFactors(date, previous.value.close, ActionsOn(actions, date), scale);
        if factor.Err? then earlier else earlier + [factor.value]
  }

  predicate CompleteTerms(actions: seq<CorporateAction>, dates: seq<int>) {
    forall d | d in dates :: FirstFault(ActionsOn(actions, d)).None?
  }

  lemma {:induction false} LastBeforePriced(bars: seq<Bar>, date: int)
    requires PricedCloses(bars) && LastBefore(bars, date).Some?
    ensures LastBefore(bars, date).value.close > 0.0 && VnDate(LastBefore(bars, date).value.ts) < date
  {
    if VnDate(bars[|bars| - 1].ts) >= date {
      LastBeforePriced(bars[..|bars| - 1], date);
    }
  }

  /** With complete terms both implementations find the same factors. */
  lemma {:induction false} AuditFactorsAgree(bars: seq<Bar>, actions: seq<CorporateAction>, dates: seq<int>, scale: real)
    requires scale > 0.0 && PricedCloses(bars) && CompleteTerms(actions, dates)
    requires Factors(bars, actions, dates, scale).Ok?
    ensures AuditFactors(bars, actions, dates, scale) == Factors(bars, actions, dates, scale).value
  {
    if dates != [] {
      hide EventFactors, LastBefore, ActionsOn, FirstFault, PricedCloses;
      var date := dates[|dates| - 1];
      AuditFactorsAgree(bars, actions, dates[..|dates| - 1], scale);
      assert date in dates;
      if LastBefore(bars, date).Some? {
        LastBeforePriced(bars, date);
      }
    }
  }

  /** The factors from an ex-date on, in the order they are listed. */
  function Suffix(factors: seq<Factor>, exDate: int): seq<Factor> {
    if factors == [] then []
    else if factors[|factors| - 1].exDate >= exDate then Suffix(factors[..|factors| - 1], exDate) + [factors[|factors| - 1]]
    else Suffix(factors[..|factors| - 1], exDate)
  }

  lemma {:induction false} SuffixProducts(factors: seq<Factor>, exDate: int)
    ensures AllPrices(Suffix(factors, exDate)) == PriceProduct(factors, exDate - 1)
    ensures AllQuantities(Suffix(factors, exDate)) == QuantityProduct(factors, exDate - 1)
  {
    hide Times;
    if factors != [] {
      var init := factors[..|factors| - 1];
      SuffixProducts(init, exDate);
      if factors[|factors| - 1].exDate >= exDate {
        assert Suffix(factors, exDate)[..|Suffix(init, exDate)|] == Suffix(init, exDate);
      }
    }
  }

  lemma Reassociate(x: real, s: real, m: real)
    ensures Times(x, Times(s, m)) == Times(Times(x, s), m)
  {
  }

  /** What the audit expects of the bar before an ex-date, before storage: the adjusted value
      divided by the factors of the ex-dates strictly between that bar and the audited one. */
  lemma ExpectedValues(bar: Bar, factors: seq<Factor>, exDate: int)
    requires VnDate(bar.ts) < exDate
    ensures AdjustedBar(bar, factors).close ==
        Times(Times(bar.close, AllPrices(Suffix(factors, exDate))), PriceBetween(factors, VnDate(bar.ts), exDate - 1))
    ensures AdjustedBar(bar, factors).volume.Some? == bar.volume.Some?
    ensures bar.volume.Some? ==>
        AdjustedBar(bar, factors).volume.value
        == Times(Times(bar.volume.value, AllQuantities(Suffix(factors, exDate))), QuantityBetween(factors, VnDate(bar.ts), exDate - 1))
  {
    hide Times, PriceProduct, QuantityProduct, PriceBetween, QuantityBetween, VnDate, Suffix, AllPrices, AllQuantities;
    ProductsSplit(factors, VnDate(bar.ts), exDate - 1);
    SuffixProducts(factors, exDate);
    Reassociate(bar.close, PriceProduct(factors, exDate - 1), PriceBetween(factors, VnDate(bar.ts), exDate - 1));
    if bar.volume.Some? {
      Reassociate(bar.volume.value, QuantityProduct(factors, exDate - 1), QuantityBetween(factors, VnDate(bar.ts), exDate - 1));
    }
  }

  /** A multiple of a positive number stays the same only when multiplied by one. */
  lemma UnitFactor(raw: real, suffix: real, middle: real)
    requires suffix > 0.0
    ensures Times(raw, Times(suffix, middle)) - Times(raw, suffix) == 0.0 <==> raw == 0.0 || middle == 1.0
  {
    var k := Times(raw, suffix);
    assert Times(raw, Times(suffix, middle)) - k == Times(k, middle - 1.0) by {
      assert raw * (suffix * middle) - raw * suffix == raw * suffix * (middle - 1.0);
    }
    NonZero(raw, suffix);
    NonZero(k, middle - 1.0);
  }

  lemma NonZero(a: real, b: real)
    ensures Times(a, b) == 0.0 <==> a == 0.0 || b == 0.0
  {
  }

  /** Before storage, the deltas of the bar before an ex-date are zero exactly when the ex-dates strictly between
      that bar and the audited one multiply to one. */
  lemma AuditDeltas(bar: Bar, factors: seq<Factor>, exDate: int)
    requires Positive(factors) && bar.close > 0.0 && VnDate(bar.ts) < exDate
    ensures AdjustedBar(bar, factors).close - Times(bar.close, AllPrices(Suffix(factors, exDate))) == 0.0 <==>
        PriceBetween(factors, VnDate(bar.ts), exDate - 1) == 1.0
    ensures bar.volume.Some? && bar.volume.value != 0.0 ==>
        (AdjustedBar(bar, factors).volume.value - Times(bar.volume.value, AllQuantities(Suffix(factors, exDate))) == 0.0 <==>
          QuantityBetween(factors, VnDate(bar.ts), exDate - 1) == 1.0)
  {
    hide Times, PriceProduct, QuantityProduct, PriceBetween, QuantityBetween, VnDate, Suffix, AllPrices, AllQuantities;
    ProductsSplit(factors, VnDate(bar.ts), exDate - 1);
    ProductsPositive(factors, exDate - 1);
    SuffixProducts(factors, exDate);
    UnitFactor(bar.close, PriceProduct(factors, exDate - 1), PriceBetween(factors, VnDate(bar.ts), exDate - 1));
    if bar.volume.Some? {
      UnitFactor(bar.volume.value, QuantityProduct(factors, exDate - 1), QuantityBetween(factors, VnDate(bar.ts), exDate - 1));
    }
  }

  // ---------------------------------------------------------------- the audit against the adjuster

  /** The deltas the audit computes for an ex-date from the raw and the adjusted bar before it. */
  function PriceDelta(raw: Bar, adjusted: Bar, factors: seq<Factor>, exDate: int): real {
    adjusted.close - Times(raw.close, AllPrices(Suffix(factors, exDate)))
  }

  function QuantityDelta(raw: Bar, adjusted: Bar, factors: seq<Factor>, exDate: int): real {
    if raw.volume.Some? && adjusted.volume.Some?
    then adjusted.volume.value - Times(raw.volume.value, AllQuantities(Suffix(factors, exDate))) else 0.0
  }

  predicate Passes(raw: Bar, adjusted: Bar, factors: seq<Factor>, exDate: int) {
    Abs(PriceDelta(raw, adjusted, factors, exDate)) <= TOLERANCE && Abs(QuantityDelta(raw, adjusted, factors, exDate)) <= TOLERANCE
  }

  /** The published rows of an adjusted dataset. */
  function StoredBars(bars: seq<Bar>): (r: seq<Bar>)
    ensures |r| == |bars| && forall i :: 0 <= i < |r| ==> r[i] == StoredBar(bars[i])
  {
    seq(|bars|, i requires 0 <= i < |bars| => StoredBar(bars[i]))
  }

  /** How far the stored multiple of an expected value lies from the value. */
  function Gap(expected: real, multiple: real, scale: real): real
    requires scale > 0.0
  {
    Abs(Quantize(Times(expected, multiple), scale) - expected)
  }

  /** Storing changes a gap by at most half a unit. */
  lemma GapBounds(expected: real, multiple: real, scale: real)
    requires scale > 0.0
    ensures Abs(Gap(expected, multiple, scale) - Abs(Times(expected, multiple) - expected)) <= 0.5 / scale
  {
    hide Times, Quantize;
    QuantizeError(Times(expected, multiple), scale);
  }

  /** The expected close and volume of the bar before an ex-date. */
  function ExpectedClose(raw: Bar, factors: seq<Factor>, exDate: int): real {
    Times(raw.close, AllPrices(Suffix(factors, exDate)))
  }

  function ExpectedVolume(raw: Bar, factors: seq<Factor>, exDate: int): Option<real> {
    if raw.volume.None? then None else Some(Times(raw.volume.value, AllQuantities(Suffix(factors, exDate))))
  }

  /** The verdict on a stored adjusted bar, by the two gaps. */
  lemma PassesByGaps(raw: Bar, factors: seq<Factor>, exDate: int)
    requires VnDate(raw.ts) < exDate
    ensures var volume := ExpectedVolume(raw, factors, exDate);
      Passes(raw, StoredBar(AdjustedBar(raw, factors)), factors, exDate) <==>
        && Gap(ExpectedClose(raw, factors, exDate), PriceBetween(factors, VnDate(raw.ts), exDate - 1), PRICE_SCALE) <= TOLERANCE
        && (volume.Some? ==> Gap(volume.value, QuantityBetween(factors, VnDate(raw.ts), exDate - 1), VOLUME_SCALE) <= TOLERANCE)
  {
    ExpectedValues(raw, factors, exDate);
    hide Times, Quantize, AdjustedBar, AllPrices, AllQuantities, Suffix, PriceBetween, QuantityBetween, VnDate;
  }

  /** For a published adjustment with complete terms, the audit of an ex-date passes exactly when
      rounding brings the adjusted values back to what is expected. The multiples are those of the
      earlier ex-dates that share the last prior bar. */
  lemma AuditPassesExactly(asset: string, rows: seq<Bar>, actions: seq<CorporateAction>, scale: real, exDate: int)
    requires AdjustmentOf(asset, rows, actions, true, scale).Ok? && PricedCloses(Normalize(rows))
    requires CompleteTerms(actions, ExDates(actions)) && LastBefore(Normalize(rows), exDate).Some?
    ensures scale > 0.0
    ensures var raw := LastBefore(Normalize(rows), exDate).value;
      var factors := AuditFactors(Normalize(rows), actions, ExDates(actions), scale);
      var (adjusted, volume) := (StoredBar(AdjustedBar(raw, factors)), ExpectedVolume(raw, factors, exDate));
      && adjusted in StoredBars(AdjustmentOf(asset, rows, actions, true, scale).value.bars)
      && (Passes(raw, adjusted, factors, exDate) <==>
            && Gap(ExpectedClose(raw, factors, exDate), PriceBetween(factors, VnDate(raw.ts), exDate - 1), PRICE_SCALE) <= TOLERANCE
            && (volume.Some? ==> Gap(volume.value, QuantityBetween(factors, VnDate(raw.ts), exDate - 1), VOLUME_SCALE) <= TOLERANCE))
  {
    AdjustmentParts(asset, rows, actions, scale);
    var bars := Normalize(rows);
    var factors := Factors(bars, actions, ExDates(actions), scale).value;
    var raw := LastBefore(bars, exDate).value;
    var i := LastBeforeIndex(bars, exDate);
    assert AdjustedBars(bars, factors)[i] == AdjustedBar(raw, factors);
    assert StoredBars(AdjustedBars(bars, factors))[i] == StoredBar(AdjustedBar(raw, factors));
    hide *;
    AuditFactorsAgree(bars, actions, ExDates(actions), scale);
    LastBeforePriced(bars, exDate);
    PassesByGaps(raw, factors, exDate);
  }

  lemma {:induction false} LastBeforeIndex(bars: seq<Bar>, date: int) returns (i: nat)
    requires LastBefore(bars, date).Some?
    ensures i < |bars| && bars[i] == LastBefore(bars, date).value
    ensures forall k :: i < k < |bars| ==> VnDate(bars[k].ts) >= date
  {
    if VnDate(bars[|bars| - 1].ts) < date {
      i := |bars| - 1;
    } else {
      i := LastBeforeIndex(bars[..|bars| - 1], date);
    }
  }

  /** An earlier date has the same last prior bar as soon as that bar precedes it. */
  lemma {:induction false} SamePriorBar(bars: seq<Bar>, earlier: int, date: int)
    requires LastBefore(bars, date).Some? && VnDate(LastBefore(bars, date).value.ts) < earlier <= date
    ensures LastBefore(bars, earlier) == LastBefore(bars, date)
  {
    if VnDate(bars[|bars| - 1].ts) >= date {
      SamePriorBar(bars[..|bars| - 1], earlier, date);
    }
  }

  /** No factor of an ex-date lies strictly between the bar before an ex-date and that ex-date when
      the earlier ex-dates have other last prior bars. */
  lemma NoSharedFactor(asset: string, rows: seq<Bar>, actions: seq<CorporateAction>, scale: real, exDate: int)
    requires AdjustmentOf(asset, rows, actions, true, scale).Ok? && PricedCloses(Normalize(rows))
    requires CompleteTerms(actions, ExDates(actions)) && LastBefore(Normalize(rows), exDate).Some?
    requires forall d :: d in ExDates(actions) && d < exDate ==> LastBefore(Normalize(rows), d) != LastBefore(Normalize(rows), exDate)
    ensures scale > 0.0
    ensures var raw := LastBefore(Normalize(rows), exDate).value;
      var factors := AuditFactors(Normalize(rows), actions, ExDates(actions), scale);
      && VnDate(raw.ts) < exDate
      && PriceBetween(factors, VnDate(raw.ts), exDate - 1) == QuantityBetween(factors, VnDate(raw.ts), exDate - 1) == 1.0
  {
    hide *;
    AdjustmentParts(asset, rows, actions, scale);
    var bars := Normalize(rows);
    var factors := Factors(bars, actions, ExDates(actions), scale).value;
    PositiveFactors(factors, bars, actions, ExDates(actions), scale);
    var raw := LastBefore(bars, exDate).value;
    AuditFactorsAgree(bars, actions, ExDates(actions), scale);
    LastBeforePriced(bars, exDate);
    forall k | 0 <= k < |factors|
      ensures !(VnDate(raw.ts) < factors[k].exDate <= exDate - 1)
    {
      if VnDate(raw.ts) < factors[k].exDate <= exDate - 1 {
        SamePriorBar(bars, factors[k].exDate, exDate);
      }
    }
    NothingBetween(factors, VnDate(raw.ts), exDate - 1);
  }

  /** By how much storing the adjusted volume changes it. */
  function VolumeRounding(adjusted: Bar): real {
    if adjusted.volume.None? then 0.0 else Abs(Quantize(adjusted.volume.value, VOLUME_SCALE) - adjusted.volume.value)
  }

  lemma DistinctVerdict(raw: Bar, factors: seq<Factor>, exDate: int)
    requires VnDate(raw.ts) < exDate
    requires PriceBetween(factors, VnDate(raw.ts), exDate - 1) == QuantityBetween(factors, VnDate(raw.ts), exDate - 1) == 1.0
    ensures var stored := StoredBar(AdjustedBar(raw, factors));
      && Abs(PriceDelta(raw, stored, factors, exDate)) <= 0.000000005
      && Abs(QuantityDelta(raw, stored, factors, exDate)) == VolumeRounding(AdjustedBar(raw, factors))
      && (Passes(raw, stored, factors, exDate) <==> VolumeRounding(AdjustedBar(raw, factors)) <= TOLERANCE)
  {
    ExpectedValues(raw, factors, exDate);
    QuantizeError(AdjustedBar(raw, factors).close, PRICE_SCALE);
    TimesOne(ExpectedClose(raw, factors, exDate));
    if raw.volume.Some? {
      TimesOne(ExpectedVolume(raw, factors, exDate).value);
    }
    hide Times, Quantize, AdjustedBar, AllPrices, AllQuantities, Suffix, PriceBetween, QuantityBetween, VnDate;
  }

  /** When distinct ex-dates have distinct last prior bars, the price always passes its test, the
      quantity delta is what storage rounded off, and the audit passes exactly when that is within
      the tolerance. */
  lemma DistinctPriorBarsPass(asset: string, rows: seq<Bar>, actions: seq<CorporateAction>, scale: real, exDate: int)
    requires AdjustmentOf(asset, rows, actions, true, scale).Ok? && PricedCloses(Normalize(rows))
    requires CompleteTerms(actions, ExDates(actions)) && LastBefore(Normalize(rows), exDate).Some?
    requires forall d :: d in ExDates(actions) && d < exDate ==> LastBefore(Normalize(rows), d) != LastBefore(Normalize(rows), exDate)
    ensures scale > 0.0
    ensures var raw := LastBefore(Normalize(rows), exDate).value;
      var factors := AuditFactors(Normalize(rows), actions, ExDates(actions), scale);
      var (adjusted, stored) := (AdjustedBar(raw, factors), StoredBar(AdjustedBar(raw, factors)));
      && stored in StoredBars(AdjustmentOf(asset, rows, actions, true, scale).value.bars)
      && Abs(PriceDelta(raw, stored, factors, exDate)) <= 0.000000005
      && Abs(QuantityDelta(raw, stored, factors, exDate)) == VolumeRounding(adjusted)
      && (Passes(raw, stored, factors, exDate) <==> VolumeRounding(adjusted) <= TOLERANCE)
  {
    hide *;
    AuditPassesExactly(asset, rows, actions, scale, exDate);
    NoSharedFactor(asset, rows, actions, scale, exDate);
    DistinctVerdict(LastBefore(Normalize(rows), exDate).value, AuditFactors(Normalize(rows), actions, ExDates(actions), scale), exDate);
  }

  // ---------------------------------------------------------------- the whole report

  datatype CaseStatus = Passed | Failed | Blocked

  /** The row of a dataset at a timestamp. */
  function BarAt(bars: seq<Bar>, ts: int): Option<Bar> {
    if bars == [] then None
    else if bars[|bars| - 1].ts == ts then Some(bars[|bars| - 1])
    else BarAt(bars[..|bars| - 1], ts)
  }

  lemma {:induction false} BarAtIndex(bars: seq<Bar>, i: nat)
    requires Increasing(bars) && i < |bars|
    ensures BarAt(bars, bars[i].ts) == Some(bars[i])
  {
    if i < |bars| - 1 {
      BarAtIndex(bars[..|bars| - 1], i);
    }
  }

  /** One case of the report. */
  function CaseOf(raw: seq<Bar>, adjusted: seq<Bar>, factors: seq<Factor>, lineage: bool, exDate: int): CaseStatus {
    var before := LastBefore(raw, exDate);
    if !lineage || before.None? then Blocked
    else
      var after := BarAt(adjusted, before.value.ts);
      if after.None? then Blocked
      else if Passes(before.value, after.value, factors, exDate) then Passed else Failed
  }

  function CasesOf(raw: seq<Bar>, adjusted: seq<Bar>, factors: seq<Factor>, lineage: bool, dates: seq<int>): (r: seq<CaseStatus>)
    ensures |r| == |dates| && forall i :: 0 <= i < |r| ==> r[i] == CaseOf(raw, adjusted, factors, lineage, dates[i])
  {
    seq(|dates|, i requires 0 <= i < |dates| => CaseOf(raw, adjusted, factors, lineage, dates[i]))
  }

  /** The report on one symbol: a case per ex-date, from the stored raw and adjusted rows. */
  method AuditHistory(raw: seq<Bar>, adjusted: seq<Bar>, actions: seq<CorporateAction>, scale: real, lineage: bool)
    returns (cases: seq<CaseStatus>)
    ensures cases == CasesOf(raw, adjusted, AuditFactors(raw, actions, ExDates(actions), scale), lineage, ExDates(actions))
  {
    hide Times, AllPrices, AllQuantities, LastBefore, BarAt, ExDates, Suffix;
    var dates := ExDates(actions);
    var factors := AuditFactors(raw, actions, dates, scale);
    cases := [];
    for i := 0 to |dates|
      invariant |cases| == i && forall k :: 0 <= k < i ==> cases[k] == CaseOf(raw, adjusted, factors, lineage, dates[k])
    {
      var before := LastBefore(raw, dates[i]);
      var after := if before.None? then None else BarAt(adjusted, before.value.ts);
      if !lineage || after.None? {
        cases := cases + [Blocked];
      } else {
        var passed, _, _ := AuditAdjustedFactors(before.value.close, after.value.close, before.value.volume, after.value.volume,
                                                 Suffix(factors, dates[i]));
        cases := cases + [if passed then Passed else Failed];
      }
    }
  }

  /** The report on an honestly published adjustment: a case is blocked exactly without a prior
      bar, and with distinct prior bars it passes exactly when its volume was stored within the
      tolerance. */
  lemma HonestReport(asset: string, rows: seq<Bar>, actions: seq<CorporateAction>, scale: real, i: nat)
    requires AdjustmentOf(asset, rows, actions, true, scale).Ok? && PricedCloses(Normalize(rows)) && Increasing(Normalize(rows))
    requires CompleteTerms(actions, ExDates(actions)) && i < |ExDates(actions)|
    ensures var (bars, dates) := (Normalize(rows), ExDates(actions));
      var adjusted := StoredBars(AdjustmentOf(asset, rows, actions, true, scale).value.bars);
      var factors := AuditFactors(bars, actions, dates, scale);
      var (case0, before) := (CasesOf(bars, adjusted, factors, true, dates)[i], LastBefore(bars, dates[i]));
      && (case0.Blocked? <==> before.None?)
      && (before.Some? && (forall d :: d in dates && d < dates[i] ==> LastBefore(bars, d) != before) ==>
            (case0.Passed? <==> VolumeRounding(AdjustedBar(before.value, factors)) <= TOLERANCE))
  {
    var (bars, dates) := (Normalize(rows), ExDates(actions));
    var adjusted := StoredBars(AdjustmentOf(asset, rows, actions, true, scale).value.bars);
    var factors := AuditFactors(bars, actions, dates, scale);
    assert CasesOf(bars, adjusted, factors, true, dates)[i] == CaseOf(bars, adjusted, factors, true, dates[i]);
    if LastBefore(bars, dates[i]).Some? {
      StoredBefore(asset, rows, actions, scale, dates[i]);
      hide Times, AllPrices, AllQuantities, Suffix, LastBefore, BarAt, AdjustmentOf, AuditFactors, ExDates, Normalize, CompleteTerms,
        PricedCloses, Passes, AdjustedBar, VolumeRounding, CasesOf;
      if forall d :: d in dates && d < dates[i] ==> LastBefore(bars, d) != LastBefore(bars, dates[i]) {
        DistinctPriorBarsPass(asset, rows, actions, scale, dates[i]);
      }
    }
  }

  /** The adjusted version holds the stored adjustment of the bar before an ex-date. */
  lemma StoredBefore(asset: string, rows: seq<Bar>, actions: seq<CorporateAction>, scale: real, exDate: int)
    requires AdjustmentOf(asset, rows, actions, true, scale).Ok? && PricedCloses(Normalize(rows)) && Increasing(Normalize(rows))
    requires CompleteTerms(actions, ExDates(actions)) && LastBefore(Normalize(rows), exDate).Some?
    ensures var (bars, raw) := (Normalize(rows), LastBefore(Normalize(rows), exDate).value);
      BarAt(StoredBars(AdjustmentOf(asset, rows, actions, true, scale).value.bars), raw.ts) ==
        Some(StoredBar(AdjustedBar(raw, AuditFactors(bars, actions, ExDates(actions), scale))))
  {
    AdjustmentParts(asset, rows, actions, scale);
    var bars := Normalize(rows);
    var factors := Factors(bars, actions, ExDates(actions), scale).value;
    var i := LastBeforeIndex(bars, exDate);
    var stored := StoredBars(AdjustedBars(bars, factors));
    assert forall k :: 0 <= k < |bars| ==> stored[k] == StoredBar(AdjustedBar(bars[k], factors)) && stored[k].ts == bars[k].ts;
    assert Increasing(stored);
    hide *;
    AuditFactorsAgree(bars, actions, ExDates(actions), scale);
    BarAtIndex(stored, i);
  }

  // ---------------------------------------------------------------- inputs that fail

  function Dividend(date: int): CorporateAction {
    CorporateAction("A", CashDividend, true, Some(date), Some(1.0), None, None, None)
  }

  function FlatBar(): Bar {
    Bar(0, 10.0, 10.0, 10.0, 10.0, None, "feed")
  }

  lemma TwoDividendDates()
    ensures var actions := [Dividend(1), Dividend(2)];
      ExDates(actions) == [1, 2] && ActionsOn(actions, 1) == [Dividend(1)] && ActionsOn(actions, 2) == [Dividend(2)]
  {
    var actions, first := [Dividend(1), Dividend(2)], [Dividend(1)];
    assert actions[..1] == first && first[..0] == [];
    assert ExDates(first) == [1] && ActionsOn(first, 1) == first && ActionsOn(first, 2) == [];
    assert InsertAscending([1], 2) == [1, 2];
  }

  lemma OneDividend(date: int)
    ensures EventFactors(date, 10.0, [Dividend(date)], 1.0) == Ok(Factor(date, 0.9, 1.0))
  {
    NoActions(1.0);
    EachActionAdds([], Dividend(date), 1.0);
    assert [] + [Dividend(date)] == [Dividend(date)];
    TimesOne(SubscriptionValue([Dividend(date)], 1.0));
    hide Cash, SharesAfter, SubscriptionValue, Times;
  }

  lemma FactorsStep(bars: seq<Bar>, actions: seq<CorporateAction>, dates: seq<int>, date: int, scale: real, f: Factor)
    requires scale > 0.0 && Factors(bars, actions, dates, scale).Ok? && LastBefore(bars, date).Some?
    requires EventFactors(date, LastBefore(bars, date).value.close, ActionsOn(actions, date), scale) == Ok(f)
    ensures Factors(bars, actions, dates + [date], scale) == Ok(Factors(bars, actions, dates, scale).value + [f])
  {
    hide EventFactors, ActionsOn, LastBefore;
    assert (dates + [date])[..|dates|] == dates;
  }

  lemma SharedDelta(f: Factor, g: Factor)
    requires f == Factor(1, 0.9, 1.0) && g == Factor(2, 0.9, 1.0)
    ensures PriceDelta(FlatBar(), StoredBar(AdjustedBar(FlatBar(), [f, g])), [f, g], 2) == -0.9
  {
    assert Times(10.0, 0.81) == 8.1 && Times(8.1, PRICE_SCALE) == 810000000.0;
    assert HalfUp(810000000.0) == 810000000 && Quantize(8.1, PRICE_SCALE) == 8.1;
    var factors := [f, g];
    assert factors[..1] == [f] && [f][..0] == [] && [g][..0] == [];
    assert PriceProduct([f], 0) == 0.9;
    assert PriceProduct(factors, 0) == 0.81;
    assert Suffix([f], 2) == [];
    assert Suffix(factors, 2) == [g];
    assert AllPrices([g]) == 0.9;
  }

  /** Two dividends of one unit whose ex-dates follow the same bar at ten: the audit of the second
      one misses the first, reports a difference of nine tenths and fails. */
  lemma SharedPriorBarFails()
    ensures var (bars, actions) := ([FlatBar()], [Dividend(1), Dividend(2)]);
      var factors := Factors(bars, actions, ExDates(actions), 1.0);
      && factors.Ok?
      && LastBefore(bars, 1) == LastBefore(bars, 2) == Some(bars[0])
      && PriceDelta(bars[0], StoredBar(AdjustedBar(bars[0], factors.value)), factors.value, 2) == -0.9
      && !Passes(bars[0], StoredBar(AdjustedBar(bars[0], factors.value)), factors.value, 2)
  {
    var bars, actions := [FlatBar()], [Dividend(1), Dividend(2)];
    var f, g := Factor(1, 0.9, 1.0), Factor(2, 0.9, 1.0);
    assert LastBefore(bars, 1) == LastBefore(bars, 2) == Some(bars[0]) && bars[0].close == 10.0;
    assert Factors(bars, actions, [], 1.0) == Ok([]);
    hide *;
    TwoDividendDates();
    OneDividend(1);
    OneDividend(2);
    FactorsStep(bars, actions, [], 1, 1.0, f);
    assert [] + [1] == [1] && [] + [f] == [f];
    FactorsStep(bars, actions, [1], 2, 1.0, g);
    assert [1] + [2] == [1, 2] && [f] + [g] == [f, g];
    SharedDelta(f, g);
    PassesNeedsPrice(bars[0], StoredBar(AdjustedBar(bars[0], [f, g])), [f, g], 2);
  }

  lemma PassesNeedsPrice(raw: Bar, adjusted: Bar, factors: seq<Factor>, exDate: int)
    ensures Passes(raw, adjusted, factors, exDate) ==> -TOLERANCE <= PriceDelta(raw, adjusted, factors, exDate) <= TOLERANCE
    ensures TOLERANCE < 0.9
  {
  }

  // ---------------------------------------------------------------- a volume that is rounded

  function Bonus(date: int, ratio: real): CorporateAction {
    CorporateAction("A", StockDividend, true, Some(date), None, Some(ratio), None, None)
  }

  function TradedBar(day: nat): Bar {
    Bar(day * 86400, 10.0, 10.0, 10.0, 10.0, Some(12301.0), "feed")
  }

  function BonusFactor(date: int, ratio: real): Factor
    requires ratio > -1.0
  {
    Factor(date, 1.0 / (1.0 + ratio), 1.0 + ratio)
  }

  lemma OneBonus(date: int, ratio: real)
    requires ratio >= 0.0
    ensures EventFactors(date, 10.0, [Bonus(date, ratio)], 1.0) == Ok(BonusFactor(date, ratio))
  {
    NoActions(1.0);
    EachActionAdds([], Bonus(date, ratio), 1.0);
    assert [] + [Bonus(date, ratio)] == [Bonus(date, ratio)];
    TimesOne(SubscriptionValue([Bonus(date, ratio)], 1.0));
    assert 10.0 / (1.0 + ratio) / 10.0 == 1.0 / (1.0 + ratio);
    hide Cash, SharesAfter, SubscriptionValue, Times;
  }

  /** A later bonus adds its date and its day. */
  lemma BonusAfter(actions: seq<CorporateAction>, dates: seq<int>, date: int, ratio: real)
    requires ExDates(actions) == dates && (dates == [] || dates[|dates| - 1] < date)
    ensures ExDates(actions + [Bonus(date, ratio)]) == dates + [date]
    ensures forall d :: ActionsOn(actions + [Bonus(date, ratio)], d) == ActionsOn(actions, d) + (if d == date then [Bonus(date, ratio)] else [])
  {
    var all := actions + [Bonus(date, ratio)];
    assert all[..|all| - 1] == actions && all[|all| - 1] == Bonus(date, ratio);
  }

  lemma ThreeBonusDates(a: real, b: real, c: real)
    ensures var actions := [Bonus(1, a), Bonus(2, b), Bonus(3, c)];
      && ExDates(actions) == [1, 2, 3]
      && ActionsOn(actions, 1) == [Bonus(1, a)] && ActionsOn(actions, 2) == [Bonus(2, b)] && ActionsOn(actions, 3) == [Bonus(3, c)]
  {
    hide Bonus, InsertAscending, Applies;
    NoDates();
    BonusAfter([], [], 1, a);
    BonusAfter([] + [Bonus(1, a)], [] + [1], 2, b);
    BonusAfter([] + [Bonus(1, a)] + [Bonus(2, b)], [] + [1] + [2], 3, c);
    assert [] + [Bonus(1, a)] + [Bonus(2, b)] + [Bonus(3, c)] == [Bonus(1, a), Bonus(2, b), Bonus(3, c)];
  }

  lemma NoDates()
    ensures ExDates([]) == [] && forall d :: ActionsOn([], d) == []
  {
  }

  lemma NoFactors(bars: seq<Bar>, actions: seq<CorporateAction>)
    ensures Factors(bars, actions, [], 1.0) == Ok([])
  {
  }

  lemma TradedBars()
    ensures var bars := [TradedBar(0), TradedBar(1), TradedBar(2)];
      && LastBefore(bars, 1) == Some(bars[0]) && LastBefore(bars, 2) == Some(bars[1]) && LastBefore(bars, 3) == Some(bars[2])
      && bars[0].close == bars[1].close == bars[2].close == 10.0
  {
    var bars := [TradedBar(0), TradedBar(1), TradedBar(2)];
    assert bars[..2] == [TradedBar(0), TradedBar(1)] && bars[..2][..1] == [TradedBar(0)];
    assert VnDate(TradedBar(0).ts) == 0 && VnDate(TradedBar(1).ts) == 1 && VnDate(TradedBar(2).ts) == 2;
  }

  lemma BonusProduct()
    ensures var factors := [BonusFactor(1, 0.15), BonusFactor(2, 0.07), BonusFactor(3, 0.13)];
      && QuantityProduct(factors, 0) == 1.390465
      && Suffix(factors, 1) == factors && AllQuantities(factors) == 1.390465
  {
    var (f, g, h) := (BonusFactor(1, 0.15), BonusFactor(2, 0.07), BonusFactor(3, 0.13));
    var factors := [f, g, h];
    assert factors[..2] == [f, g] && [f, g][..1] == [f] && [f][..0] == [];
    assert Times(1.0, 1.15) == 1.15 && Times(1.15, 1.07) == 1.2305 && Times(1.2305, 1.13) == 1.390465;
    assert QuantityProduct([], 0) == 1.0;
    assert QuantityProduct([f], 0) == 1.15;
    assert QuantityProduct([f, g], 0) == Times(QuantityProduct([f], 0), 1.07);
    assert QuantityProduct(factors, 0) == Times(QuantityProduct([f, g], 0), 1.13);
    assert AllQuantities([]) == 1.0;
    assert AllQuantities([f]) == 1.15;
    assert AllQuantities([f, g]) == Times(AllQuantities([f]), 1.07);
    assert Suffix([f], 1) == [f] && Suffix([f, g], 1) == [f, g];
  }

  lemma StoredVolume()
    ensures Times(12301.0, 1.390465) == 17104.109965
    ensures Quantize(17104.109965, VOLUME_SCALE) == 17104.11
  {
    assert Times(17104.109965, VOLUME_SCALE) == 171041099.65;
    assert HalfUp(171041099.65) == 171041100;
  }

  /** Stock dividends of 0.15, 0.07 and 0.13 on three days with a bar of volume 12301 before each:
      the stored volume of the first bar is 0.000035 too large, and the audit of a correct
      adjustment fails. */
  lemma RoundedVolumeFails()
    ensures var bars := [TradedBar(0), TradedBar(1), TradedBar(2)];
      var actions := [Bonus(1, 0.15), Bonus(2, 0.07), Bonus(3, 0.13)];
      var factors := Factors(bars, actions, ExDates(actions), 1.0);
      && factors.Ok? && LastBefore(bars, 1) == Some(bars[0])
      && QuantityDelta(bars[0], StoredBar(AdjustedBar(bars[0], factors.value)), factors.value, 1) == 0.000035
      && !Passes(bars[0], StoredBar(AdjustedBar(bars[0], factors.value)), factors.value, 1)
  {
    var bars := [TradedBar(0), TradedBar(1), TradedBar(2)];
    var actions := [Bonus(1, 0.15), Bonus(2, 0.07), Bonus(3, 0.13)];
    var (f, g, h) := (BonusFactor(1, 0.15), BonusFactor(2, 0.07), BonusFactor(3, 0.13));
    hide *;
    NoFactors(bars, actions);
    TradedBars();
    ThreeBonusDates(0.15, 0.07, 0.13);
    OneBonus(1, 0.15);
    OneBonus(2, 0.07);
    OneBonus(3, 0.13);
    FactorsStep(bars, actions, [], 1, 1.0, f);
    assert [] + [1] == [1] && [] + [f] == [f];
    FactorsStep(bars, actions, [1], 2, 1.0, g);
    assert [1] + [2] == [1, 2] && [f] + [g] == [f, g];
    FactorsStep(bars, actions, [1, 2], 3, 1.0, h);
    assert [1, 2] + [3] == [1, 2, 3] && [f, g] + [h] == [f, g, h];
    RoundedDelta();
  }

  lemma RoundedDelta()
    ensures var factors := [BonusFactor(1, 0.15), BonusFactor(2, 0.07), BonusFactor(3, 0.13)];
      var stored := StoredBar(AdjustedBar(TradedBar(0), factors));
      && QuantityDelta(TradedBar(0), stored, factors, 1) == 0.000035
      && !Passes(TradedBar(0), stored, factors, 1)
  {
    BonusProduct();
    StoredVolume();
    assert VnDate(TradedBar(0).ts) == 0;
    hide Times, Quantize, QuantityProduct, PriceProduct, AllQuantities, AllPrices, Suffix, BonusFactor;
  }
}
