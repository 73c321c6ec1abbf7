/** Incremental forward evaluation of a strategy assignment
    (quant-worker/backtest/forward_evaluator.py): state is saved between runs and each run
    processes only the bars after the last one evaluated. The float and JSON storage of the
    saved numbers is taken as exact. */
module Forward {
  import opened Prelude
  import opened Market
  import opened Strategies

  /** Calendar month and day of a timestamp. */
  datatype Calendar = Calendar(month: int -> int, day: int -> int)

  datatype Evaluator =
    | PriceRule(crossesAbove: bool, threshold: real, action: Action, sizePct: real)
    | DcaRule(contribution: real, dayOfMonth: int, calendar: Calendar)
    | CatalogRule(strategy: Strategy)
  {
    predicate Valid() {
      match this
      case PriceRule(_, threshold, _, sizePct) => threshold > 0.0 && 0.0 < sizePct <= 100.0
      case DcaRule(contribution, day, _) => contribution > 0.0 && 1 <= day <= 28
      case CatalogRule(strategy) => strategy.Valid()
    }
  }

  datatype Pending = Pending(action: Action, sizePct: Option<real>)

  /** The persisted state of an assignment. */
  datatype Book = Book(cash: real, quantity: real, fees: real, contributions: real,
                       pending: Option<Pending>, paidMonths: set<int>)

  datatype ForwardSignal = ForwardSignal(action: Action, at: int, price: real)

  datatype Work = Work(bars: seq<Bar>, lastAt: Option<int>, book: Book, benchmarkQuantity: real, costs: Costs) {
    predicate Valid() {
      bars != [] && Increasing(bars) && Priced(bars) && costs.Valid()
    }
  }

  datatype Outcome = Outcome(book: Book, signals: seq<ForwardSignal>, snapshotAt: int,
                             equity: real, marketValue: real, benchmarkEquity: real)

  // ---------------------------------------------------------------- specification of one bar

  /** The pending order is removed whether or not it can be filled. */
  function FillPending(book: Book, open: real, costs: Costs, defaultPct: real): Book
    requires open > 0.0 && costs.Valid()
  {
    var cleared := book.(pending := None);
    match book.pending
    case None => cleared
    case Some(order) =>
      FillPricesPositive(open, costs);
      var size := (if order.sizePct.Some? then order.sizePct.value else defaultPct) / 100.0;
      if order.action.Buy? && book.cash > 0.0 then
        Bought(cleared, Times(book.cash, size), open, costs)
      else if order.action.Sell? && book.quantity > 0.0 then
        Sold(cleared, Times(book.quantity, size), open, costs)
      else cleared
  }

  function Bought(book: Book, budget: real, open: real, costs: Costs): Book
    requires open > 0.0 && costs.Valid()
  {
    FillPricesPositive(open, costs);
    var fill := BuyPrice(open, costs);
    var quantity := BuyQuantity(budget, fill, costs.FeeRate());
    var commission := Commission(quantity, fill, costs.FeeRate());
    book.(cash := book.cash - Times(quantity, fill) - commission, quantity := book.quantity + quantity,
          fees := book.fees + commission)
  }

  function Sold(book: Book, quantity: real, open: real, costs: Costs): Book {
    var fill := SellPrice(open, costs);
    var commission := Commission(quantity, fill, costs.FeeRate() + costs.TaxRate());
    book.(cash := book.cash + Times(quantity, fill) - commission, quantity := book.quantity - quantity,
          fees := book.fees + commission)
  }

  predicate Crossed(e: Evaluator, previous: Bar, current: Bar)
    requires e.PriceRule?
  {
    if e.crossesAbove then previous.close <= e.threshold < current.close
    else previous.close >= e.threshold > current.close
  }

  predicate DcaDue(e: Evaluator, bar: Bar, paidMonths: set<int>)
    requires e.DcaRule?
  {
    e.calendar.month(bar.ts) !in paidMonths && e.calendar.day(bar.ts) >= e.dayOfMonth
  }

  /** The book and the signal after bar i. */
  function StepAt(e: Evaluator, costs: Costs, bars: seq<Bar>, i: nat, book: Book): (Book, Option<ForwardSignal>)
    requires e.Valid() && costs.Valid() && i < |bars| && Priced(bars)
  {
    var bar := bars[i];
    match e
    case PriceRule(_, _, action, sizePct) =>
      if i == 0 then (book, None)
      else
        var filled := FillPending(book, bar.open, costs, sizePct);
        if Crossed(e, bars[i - 1], bar)
        then (filled.(pending := Some(Pending(action, Some(sizePct)))), Some(ForwardSignal(action, bar.ts, bar.close)))
        else (filled, None)
    case DcaRule(contribution, _, calendar) =>
      if DcaDue(e, bar, book.paidMonths) then
        var funded := book.(cash := book.cash + contribution, contributions := book.contributions + contribution,
                            paidMonths := book.paidMonths + {calendar.month(bar.ts)});
        (Bought(funded, contribution, bar.open, costs), Some(ForwardSignal(Buy, bar.ts, bar.open)))
      else (book, None)
    case CatalogRule(strategy) =>
      var filled := FillPending(book, bar.open, costs, 100.0);
      match strategy.Signal(bars, i, filled.quantity > 0.0)
      case None => (filled, None)
      case Some(action) =>
        (filled.(pending := Some(Pending(action, Some(100.0)))), Some(ForwardSignal(action, bar.ts, bar.close)))
  }

  predicate IsNew(bar: Bar, lastAt: Option<int>) {
    lastAt.None? || bar.ts > lastAt.value
  }

  /** The book and the signals after the first n bars, bars up to `lastAt` being skipped. */
  function Run(e: Evaluator, costs: Costs, bars: seq<Bar>, lastAt: Option<int>, book: Book, n: nat): (Book, seq<ForwardSignal>)
    requires e.Valid() && costs.Valid() && n <= |bars| && Priced(bars)
  {
    if n == 0 then (book, [])
    else
      var (before, signals) := Run(e, costs, bars, lastAt, book, n - 1);
      if !IsNew(bars[n - 1], lastAt) then (before, signals)
      else
        var (after, signal) := StepAt(e, costs, bars, n - 1, before);
        (after, if signal.Some? then signals + [signal.value] else signals)
  }

  function OutcomeOf(e: Evaluator, item: Work): Outcome
    requires e.Valid() && item.Valid()
  {
    var (book, signals) := Run(e, item.costs, item.bars, item.lastAt, item.book, |item.bars|);
    var latest := item.bars[|item.bars| - 1];
    var marketValue := Times(book.quantity, latest.close);
    Outcome(book, signals, latest.ts, book.cash + marketValue, marketValue,
            Times(item.benchmarkQuantity, latest.close))
  }

  // ---------------------------------------------------------------- the three evaluation loops

  function NewBars(bars: seq<Bar>, lastAt: Option<int>): seq<Bar> {
    if bars == [] then []
    else NewBars(bars[..|bars| - 1], lastAt) + (if IsNew(bars[|bars| - 1], lastAt) then [bars[|bars| - 1]] else [])
  }

  /** On increasing bars the latest new bar is the latest bar. */
  lemma {:induction false} LatestNewBar(bars: seq<Bar>, lastAt: Option<int>)
    requires Increasing(bars)
    ensures NewBars(bars, lastAt) != [] ==> NewBars(bars, lastAt)[|NewBars(bars, lastAt)| - 1] == bars[|bars| - 1]
    ensures NewBars(bars, lastAt) != [] ==> IsNew(bars[|bars| - 1], lastAt)
  {
    if bars != [] {
      LatestNewBar(bars[..|bars| - 1], lastAt);
    }
  }

  method PriceOutcome(e: Evaluator, item: Work) returns (outcome: Outcome)
    requires e.PriceRule? && e.Valid() && item.Valid()
    ensures outcome == OutcomeOf(e, item)
  {
    hide Times, Bought, Sold;
    var bars := item.bars;
    var state := item.book;
    var cash, quantity, fees := state.cash, state.quantity, state.fees;
    var pending := state.pending;
    var signals: seq<ForwardSignal> := [];
    for i := 1 to |bars|
      invariant (state.(cash := cash, quantity := quantity, fees := fees, pending := pending), signals)
             == Run(e, item.costs, bars, item.lastAt, item.book, i)
    {
      var current := bars[i];
      if IsNew(current, item.lastAt) {
        cash, quantity, fees, pending := Settle(cash, quantity, fees, pending, current.open, item.costs, e.sizePct, state);
        if Crossed(e, bars[i - 1], current) {
          signals := signals + [ForwardSignal(e.action, current.ts, current.close)];
          pending := Some(Pending(e.action, Some(e.sizePct)));
        }
      }
    }
    var rows := NewBars(bars, item.lastAt);
    LatestNewBar(bars, item.lastAt);
    var latest := if rows != [] then rows[|rows| - 1] else bars[|bars| - 1];
    var marketValue := Times(quantity, latest.close);
    state := state.(cash := cash, quantity := quantity, fees := fees, pending := pending);
    outcome := Outcome(state, signals, latest.ts, cash + marketValue, marketValue,
                       Times(item.benchmarkQuantity, latest.close));
  }

  /** `_fill_pending`: the pending entry is popped, then filled if cash or position allow. */
  method Settle(cash: real, quantity: real, fees: real, pending: Option<Pending>, open: real, costs: Costs,
                defaultPct: real, ghost frame: Book)
    returns (cash': real, quantity': real, fees': real, pending': Option<Pending>)
    requires open > 0.0 && costs.Valid()
    ensures frame.(cash := cash', quantity := quantity', fees := fees', pending := pending')
         == FillPending(frame.(cash := cash, quantity := quantity, fees := fees, pending := pending), open, costs, defaultPct)
  {
    hide Times, BuyQuantity;
    cash', quantity', fees', pending' := cash, quantity, fees, None;
    if pending.Some? {
      var size := (if pending.value.sizePct.Some? then pending.value.sizePct.value else defaultPct) / 100.0;
      FillPricesPositive(open, costs);
      if pending.value.action.Buy? && cash > 0.0 {
        var fill, budget := BuyPrice(open, costs), Times(cash, size);
        var bought := BuyQuantity(budget, fill, costs.FeeRate());
        var commission := Commission(bought, fill, costs.FeeRate());
        cash', quantity', fees' := cash - Times(bought, fill) - commission, quantity + bought, fees + commission;
      } else if pending.value.action.Sell? && quantity > 0.0 {
        var fill, sold := SellPrice(open, costs), Times(quantity, size);
        var commission := Commission(sold, fill, costs.FeeRate() + costs.TaxRate());
        cash', quantity', fees' := cash + Times(sold, fill) - commission, quantity - sold, fees + commission;
      }
    }
  }

  method CatalogOutcome(e: Evaluator, item: Work) returns (outcome: Outcome)
    requires e.CatalogRule? && e.Valid() && item.Valid()
    ensures outcome == OutcomeOf(e, item)
  {
    hide Times, Bought, Sold, Strategy.Signal;
    var bars := item.bars;
    var state := item.book;
    var cash, quantity, fees := state.cash, state.quantity, state.fees;
    var pending := state.pending;
    var signals: seq<ForwardSignal> := [];
    for i := 0 to |bars|
      invariant (state.(cash := cash, quantity := quantity, fees := fees, pending := pending), signals)
             == Run(e, item.costs, bars, item.lastAt, item.book, i)
    {
      var current := bars[i];
      if IsNew(current, item.lastAt) {
        cash, quantity, fees, pending := Settle(cash, quantity, fees, pending, current.open, item.costs, 100.0, state);
        var signal := e.strategy.Signal(bars, i, quantity > 0.0);
        if signal.Some? {
          signals := signals + [ForwardSignal(signal.value, current.ts, current.close)];
          pending := Some(Pending(signal.value, Some(100.0)));
        }
      }
    }
    var latest := bars[|bars| - 1];
    var marketValue := Times(quantity, latest.close);
    state := state.(cash := cash, quantity := quantity, fees := fees, pending := pending);
    outcome := Outcome(state, signals, latest.ts, cash + marketValue, marketValue,
                       Times(item.benchmarkQuantity, latest.close));
  }

  method DcaOutcome(e: Evaluator, item: Work) returns (outcome: Outcome)
    requires e.DcaRule? && e.Valid() && item.Valid()
    ensures outcome == OutcomeOf(e, item)
  {
    hide Times, BuyQuantity;
    var bars, costs := item.bars, item.costs;
    var state := item.book;
    var cash, quantity, fees, contributions := state.cash, state.quantity, state.fees, state.contributions;
    var paid := state.paidMonths;
    var signals: seq<ForwardSignal> := [];
    for i := 0 to |bars|
      invariant (state.(cash := cash, quantity := quantity, fees := fees, contributions := contributions,
                        paidMonths := paid), signals)
             == Run(e, costs, bars, item.lastAt, item.book, i)
    {
      var current := bars[i];
      if IsNew(current, item.lastAt) {
        var month := e.calendar.month(current.ts);
        if month !in paid && e.calendar.day(current.ts) >= e.dayOfMonth {
          cash, contributions := cash + e.contribution, contributions + e.contribution;
          FillPricesPositive(current.open, costs);
          var fill := BuyPrice(current.open, costs);
          var bought := BuyQuantity(e.contribution, fill, costs.FeeRate());
          var commission := Commission(bought, fill, costs.FeeRate());
          cash, quantity, fees := cash - Times(bought, fill) - commission, quantity + bought, fees + commission;
          paid := paid + {month};
          signals := signals + [ForwardSignal(Buy, current.ts, current.open)];
        }
      }
    }
    var rows := NewBars(bars, item.lastAt);
    LatestNewBar(bars, item.lastAt);
    var latest := if rows != [] then rows[|rows| - 1] else bars[|bars| - 1];
    var marketValue := Times(quantity, latest.close);
    state := state.(cash := cash, quantity := quantity, fees := fees, contributions := contributions, paidMonths := paid);
    outcome := Outcome(state, signals, latest.ts, cash + marketValue, marketValue,
                       Times(item.benchmarkQuantity, latest.close));
  }

  // ---------------------------------------------------------------- the assignment row

  /** What an evaluation leaves behind: the book, the last evaluated bar, the signals so far. */
  datatype Saved = Saved(book: Book, lastAt: Option<int>, signals: seq<ForwardSignal>)

  function Persist(e: Evaluator, costs: Costs, bars: seq<Bar>, saved: Saved): Saved
    requires e.Valid() && costs.Valid() && bars != [] && Priced(bars)
  {
    var (book, signals) := Run(e, costs, bars, saved.lastAt, saved.book, |bars|);
    Saved(book, Some(bars[|bars| - 1].ts), saved.signals + signals)
  }

  datatype EvaluationError = DatasetInvalid | HashMismatch

  /** A stored signal with the dataset version it was found in. */
  datatype StoredSignal = StoredSignal(version: string, signal: ForwardSignal)

  /** One signal per dataset version and bar. */
  predicate Known(stored: seq<StoredSignal>, version: string, at: int) {
    exists i | 0 <= i < |stored| :: stored[i].version == version && stored[i].signal.at == at
  }

  /** The signals not yet known are appended. */
  function Store(stored: seq<StoredSignal>, version: string, signals: seq<ForwardSignal>): seq<StoredSignal> {
    if signals == [] then stored
    else
      var (before, last) := (Store(stored, version, signals[..|signals| - 1]), signals[|signals| - 1]);
      if Known(before, version, last.at) then before else before + [StoredSignal(version, last)]
  }

  function SignalsOf(stored: seq<StoredSignal>): (r: seq<ForwardSignal>)
    ensures |r| == |stored| && forall i :: 0 <= i < |r| ==> r[i] == stored[i].signal
  {
    seq(|stored|, i requires 0 <= i < |stored| => stored[i].signal)
  }

  /** No stored signal is later than the last evaluated bar. */
  ghost predicate UpTo(stored: seq<StoredSignal>, lastAt: Option<int>) {
    forall i :: 0 <= i < |stored| ==> lastAt.Some? && stored[i].signal.at <= lastAt.value
  }

  ghost predicate Rising(signals: seq<ForwardSignal>) {
    forall i, j :: 0 <= i < j < |signals| ==> signals[i].at < signals[j].at
  }

  /** Later signals are all stored. */
  lemma {:induction false} StoreAppends(stored: seq<StoredSignal>, version: string, signals: seq<ForwardSignal>, lastAt: Option<int>)
    requires UpTo(stored, lastAt) && Rising(signals)
    requires forall i :: 0 <= i < |signals| ==> lastAt.None? || lastAt.value < signals[i].at
    ensures SignalsOf(Store(stored, version, signals)) == SignalsOf(stored) + signals
  {
    if signals == [] {
      assert SignalsOf(stored) + [] == SignalsOf(stored);
    } else {
      var (init, last) := (signals[..|signals| - 1], signals[|signals| - 1]);
      StoreAppends(stored, version, init, lastAt);
      var before := Store(stored, version, init);
      forall i | 0 <= i < |before|
        ensures before[i].signal.at < last.at
      {
        assert SignalsOf(before)[i] == (SignalsOf(stored) + init)[i];
      }
      assert SignalsOf(before + [StoredSignal(version, last)]) == SignalsOf(before) + [last];
      assert signals == init + [last];
    }
  }

  lemma {:induction false} StoreKeeps(stored: seq<StoredSignal>, version: string, signals: seq<ForwardSignal>)
    ensures stored <= Store(stored, version, signals)
    ensures forall i :: 0 <= i < |signals| ==> Known(Store(stored, version, signals), version, signals[i].at)
  {
    if signals != [] {
      var (init, last) := (signals[..|signals| - 1], signals[|signals| - 1]);
      StoreKeeps(stored, version, init);
      var (before, after) := (Store(stored, version, init), Store(stored, version, signals));
      forall i | 0 <= i < |signals|
        ensures Known(after, version, signals[i].at)
      {
        if i < |init| {
          var k :| 0 <= k < |before| && before[k].version == version && before[k].signal.at == init[i].at;
          assert after[k] == before[k];
        } else if !Known(before, version, last.at) {
          assert after[|before|] == StoredSignal(version, last);
        }
      }
    }
  }

  /** Storing the signals of an evaluation again, as a second completion does, changes nothing. */
  lemma {:induction false} StoredOnce(stored: seq<StoredSignal>, version: string, signals: seq<ForwardSignal>, n: nat)
    requires n <= |signals|
    ensures Store(Store(stored, version, signals), version, signals[..n]) == Store(stored, version, signals)
  {
    if n > 0 {
      StoredOnce(stored, version, signals, n - 1);
      StoreKeeps(stored, version, signals);
      assert signals[..n][..n - 1] == signals[..n - 1];
    }
  }

  /** The signals of an evaluation are in time order and later than the last evaluated bar. */
  lemma {:induction false} RunSignals(e: Evaluator, costs: Costs, bars: seq<Bar>, lastAt: Option<int>, book: Book, n: nat)
    requires e.Valid() && costs.Valid() && n <= |bars| && Priced(bars) && Increasing(bars)
    ensures var signals := Run(e, costs, bars, lastAt, book, n).1;
      && Rising(signals)
      && forall i :: 0 <= i < |signals| ==>
           (lastAt.None? || lastAt.value < signals[i].at) && exists k :: 0 <= k < n && bars[k].ts == signals[i].at
  {
    hide FillPending, Bought, Strategy.Signal;
    if n > 0 {
      RunSignals(e, costs, bars, lastAt, book, n - 1);
      var before := Run(e, costs, bars, lastAt, book, n - 1).0;
      StepSignal(e, costs, bars, n - 1, before);
      hide StepAt;
    }
  }

  lemma StepSignal(e: Evaluator, costs: Costs, bars: seq<Bar>, i: nat, book: Book)
    requires e.Valid() && costs.Valid() && i < |bars| && Priced(bars)
    ensures StepAt(e, costs, bars, i, book).1.Some? ==> StepAt(e, costs, bars, i, book).1.value.at == bars[i].ts
  {
    hide FillPending, Bought, Strategy.Signal;
  }

  /** The assignment row a job evaluates and updates. `published` is what the dataset's checksum
      stands for, `hashMatches` whether a custom rule is the one that was registered. */
  class Assignment {
    var book: Book
    var lastAt: Option<int>
    var stored: seq<StoredSignal>
    var active: bool

    ghost function Row(): Saved
      reads this
    {
      Saved(book, lastAt, SignalsOf(stored))
    }

    /** A job without usable bars or with an altered rule fails, leaves the saved state alone and
        deactivates the row; any other moves the row on and stores its signals once. */
    method Evaluate(e: Evaluator, costs: Costs, version: string, bars: seq<Bar>, published: seq<Bar>, hashMatches: bool,
                    benchmarkQuantity: real)
      returns (r: Result<Outcome, EvaluationError>)
      requires e.Valid() && costs.Valid() && Increasing(bars) && Priced(bars)
      modifies this
      ensures active <==> r.Ok?
      ensures r == Err(DatasetInvalid) <==> !old(active) || bars == [] || bars != published
      ensures r == Err(HashMismatch) <==> old(active) && bars != [] && bars == published && !e.CatalogRule? && !hashMatches
      ensures r.Ok? ==> bars != []
      ensures r.Ok? ==> r.value == OutcomeOf(e, old(Work(bars, lastAt, book, benchmarkQuantity, costs)))
      ensures r.Ok? ==> stored == Store(old(stored), version, r.value.signals)
      ensures r.Ok? ==> book == Persist(e, costs, bars, old(Row())).book && lastAt == Some(bars[|bars| - 1].ts)
      ensures r.Ok? && UpTo(old(stored), old(lastAt)) ==> Row() == Persist(e, costs, bars, old(Row()))
      ensures r.Ok? && UpTo(old(stored), old(lastAt)) && Extends(bars, old(lastAt)) ==> UpTo(stored, lastAt)
      ensures r.Err? ==> Row() == old(Row()) && stored == old(stored)
    {
      if !active || bars == [] || bars != published {
        active := false;
        return Err(DatasetInvalid);
      }
      if !e.CatalogRule? && !hashMatches {
        active := false;
        return Err(HashMismatch);
      }
      var item := Work(bars, lastAt, book, benchmarkQuantity, costs);
      var outcome: Outcome;
      match e {
        case PriceRule(_, _, _, _) => outcome := PriceOutcome(e, item);
        case DcaRule(_, _, _) => outcome := DcaOutcome(e, item);
        case CatalogRule(_) => outcome := CatalogOutcome(e, item);
      }
      if UpTo(stored, lastAt) {
        StoringMovesOn(e, costs, bars, lastAt, book, stored, version);
      }
      book := outcome.book;
      lastAt := Some(outcome.snapshotAt);
      stored := StoreAll(stored, version, outcome.signals);
      r := Ok(outcome);
    }
  }

  method StoreAll(before: seq<StoredSignal>, version: string, signals: seq<ForwardSignal>) returns (stored: seq<StoredSignal>)
    ensures stored == Store(before, version, signals)
  {
    stored := before;
    for i := 0 to |signals|
      invariant stored == Store(before, version, signals[..i])
    {
      assert signals[..i + 1][..i] == signals[..i];
      if !Known(stored, version, signals[i].at) {
        stored := stored + [StoredSignal(version, signals[i])];
      }
    }
    assert signals[..|signals|] == signals;
  }

  /** Where no signal is later than the last evaluated bar, all new ones are stored; and none is
      later than the new last bar unless the dataset became shorter. */
  lemma StoringMovesOn(e: Evaluator, costs: Costs, bars: seq<Bar>, lastAt: Option<int>, book: Book, stored: seq<StoredSignal>, version: string)
    requires e.Valid() && costs.Valid() && Priced(bars) && Increasing(bars) && bars != [] && UpTo(stored, lastAt)
    ensures var signals := Run(e, costs, bars, lastAt, book, |bars|).1;
      && SignalsOf(Store(stored, version, signals)) == SignalsOf(stored) + signals
      && (Extends(bars, lastAt) ==> UpTo(Store(stored, version, signals), Some(bars[|bars| - 1].ts)))
  {
    var signals := Run(e, costs, bars, lastAt, book, |bars|).1;
    RunSignals(e, costs, bars, lastAt, book, |bars|);
    StoreAppends(stored, version, signals, lastAt);
    var after := Store(stored, version, signals);
    hide Run, Store;
    if Extends(bars, lastAt) {
      forall i | 0 <= i < |after|
        ensures after[i].signal.at <= bars[|bars| - 1].ts
      {
        assert SignalsOf(after)[i] == (SignalsOf(stored) + signals)[i];
      }
    }
  }

  /** The dataset reaches at least to the last evaluated bar. */
  predicate Extends(bars: seq<Bar>, lastAt: Option<int>)
    requires bars != []
  {
    lastAt.None? || lastAt.value <= bars[|bars| - 1].ts
  }

  /** Completing is not guarded by the job's lease: a worker that was too late writes back the state
      of a shorter prefix. The next evaluation makes up for it. */
  lemma LateCompletionHeals(e: Evaluator, costs: Costs, bars: seq<Bar>, late: nat, newer: nat, saved: Saved)
    requires e.Valid() && costs.Valid() && 0 < late <= newer <= |bars| && Priced(bars) && Increasing(bars) && LooksOnlyBack(e)
    requires saved.lastAt.Some? ==> saved.lastAt.value <= bars[late - 1].ts
    ensures Persist(e, costs, bars, Persist(e, costs, bars[..late], saved)) == Persist(e, costs, bars, Persist(e, costs, bars[..newer], saved))
  {
    hide Persist, LooksOnlyBack;
    ChunkInvariance(e, costs, bars, late, saved);
    ChunkInvariance(e, costs, bars, newer, saved);
  }

  // ---------------------------------------------------------------- chunk invariance

  ghost predicate LooksOnlyBack(e: Evaluator) {
    e.CatalogRule? ==> Causal(e.strategy)
  }

  lemma StepIsLocal(e: Evaluator, costs: Costs, bars: seq<Bar>, k: nat, i: nat, book: Book)
    requires e.Valid() && costs.Valid() && i < k <= |bars| && Priced(bars) && LooksOnlyBack(e)
    ensures StepAt(e, costs, bars[..k], i, book) == StepAt(e, costs, bars, i, book)
  {
    hide Strategy.Signal, FillPending, Bought;
    assert bars[..k][..i + 1] == bars[..i + 1];
  }

  lemma {:induction false} RunOnPrefix(e: Evaluator, costs: Costs, bars: seq<Bar>, lastAt: Option<int>, book: Book, k: nat, n: nat)
    requires e.Valid() && costs.Valid() && n <= k <= |bars| && Priced(bars) && LooksOnlyBack(e)
    ensures Run(e, costs, bars[..k], lastAt, book, n) == Run(e, costs, bars, lastAt, book, n)
  {
    hide StepAt, LooksOnlyBack;
    if n > 0 {
      RunOnPrefix(e, costs, bars, lastAt, book, k, n - 1);
      StepIsLocal(e, costs, bars, k, n - 1, Run(e, costs, bars, lastAt, book, n - 1).0);
    }
  }

  /** Resuming after bar k from the state reached there continues the one long run. */
  lemma {:induction false} RunResumes(e: Evaluator, costs: Costs, bars: seq<Bar>, lastAt: Option<int>, book: Book, k: nat, n: nat)
    requires e.Valid() && costs.Valid() && n <= |bars| && 0 < k <= |bars| && Priced(bars) && Increasing(bars)
    requires lastAt.Some? ==> lastAt.value <= bars[k - 1].ts
    ensures var (middle, early) := Run(e, costs, bars, lastAt, book, k);
      var (last, late) := Run(e, costs, bars, Some(bars[k - 1].ts), middle, n);
      if n <= k then last == middle && late == []
      else Run(e, costs, bars, lastAt, book, n) == (last, early + late)
  {
    hide StepAt;
    if n > 0 {
      RunResumes(e, costs, bars, lastAt, book, k, n - 1);
      var (middle, early) := Run(e, costs, bars, lastAt, book, k);
      var (last, late) := Run(e, costs, bars, Some(bars[k - 1].ts), middle, n - 1);
      assert IsNew(bars[n - 1], Some(bars[k - 1].ts)) <==> n > k;
      assert n > k ==> IsNew(bars[n - 1], lastAt) && early + [] == early;
      if n > k && StepAt(e, costs, bars, n - 1, last).1.Some? {
        var signal := StepAt(e, costs, bars, n - 1, last).1.value;
        assert (early + late) + [signal] == early + (late + [signal]);
      }
    }
  }

  /** Evaluating a prefix, saving, and evaluating the extended bars leaves the same row as one
      evaluation over all bars. */
  lemma ChunkInvariance(e: Evaluator, costs: Costs, bars: seq<Bar>, k: nat, saved: Saved)
    requires e.Valid() && costs.Valid() && 0 < k <= |bars| && Priced(bars) && Increasing(bars) && LooksOnlyBack(e)
    requires saved.lastAt.Some? ==> saved.lastAt.value <= bars[k - 1].ts
    ensures Persist(e, costs, bars, Persist(e, costs, bars[..k], saved)) == Persist(e, costs, bars, saved)
  {
    hide Run, LooksOnlyBack;
    RunOnPrefix(e, costs, bars, saved.lastAt, saved.book, k, k);
    RunResumes(e, costs, bars, saved.lastAt, saved.book, k, |bars|);
    if k == |bars| {
      assert bars[..k] == bars;
    }
  }

  /** Evaluations of growing prefixes of one series, one after the other. */
  ghost function PersistAll(e: Evaluator, costs: Costs, bars: seq<Bar>, cuts: seq<nat>, saved: Saved): Saved
    requires e.Valid() && costs.Valid() && Priced(bars)
    requires forall c :: 0 <= c < |cuts| ==> 0 < cuts[c] <= |bars|
  {
    if cuts == [] then saved
    else Persist(e, costs, bars[..cuts[|cuts| - 1]], PersistAll(e, costs, bars, cuts[..|cuts| - 1], saved))
  }

  /** However the bars arrive, the row is that of a single evaluation of the latest prefix. */
  lemma {:induction false} AnyChunking(e: Evaluator, costs: Costs, bars: seq<Bar>, cuts: seq<nat>, book: Book)
    requires e.Valid() && costs.Valid() && Priced(bars) && Increasing(bars) && LooksOnlyBack(e)
    requires cuts != [] && forall c :: 0 <= c < |cuts| ==> 0 < cuts[c] <= |bars|
    requires forall c, d :: 0 <= c < d < |cuts| ==> cuts[c] <= cuts[d]
    ensures PersistAll(e, costs, bars, cuts, Saved(book, None, []))
         == Persist(e, costs, bars[..cuts[|cuts| - 1]], Saved(book, None, []))
  {
    hide Persist, LooksOnlyBack;
    var initial := Saved(book, None, []);
    if |cuts| > 1 {
      var earlier, k, n := cuts[..|cuts| - 1], cuts[|cuts| - 2], cuts[|cuts| - 1];
      AnyChunking(e, costs, bars, earlier, book);
      ChunkInvariance(e, costs, bars[..n], k, initial);
      assert bars[..n][..k] == bars[..k];
    } else {
      assert cuts[..0] == [];
    }
  }

  // ---------------------------------------------------------------- price rules

  /** The close at bar i went through the threshold, upwards or downwards. */
  predicate GoesThrough(bars: seq<Bar>, i: nat, threshold: real, upwards: bool)
    requires i < |bars|
  {
    i > 0 && (if upwards then bars[i].close > threshold && !(bars[i - 1].close > threshold)
              else bars[i].close < threshold && !(bars[i - 1].close < threshold))
  }

  /** A price rule signals exactly on the new bars whose close went through the threshold in its
      direction, with its action at that close. */
  lemma {:induction false} PriceRuleSignals(e: Evaluator, costs: Costs, bars: seq<Bar>, lastAt: Option<int>, book: Book, n: nat, signal: ForwardSignal)
    requires e.PriceRule? && e.Valid() && costs.Valid() && n <= |bars| && Priced(bars)
    ensures signal in Run(e, costs, bars, lastAt, book, n).1 <==>
        exists i: nat :: i < n && (lastAt.None? || bars[i].ts > lastAt.value)
          && GoesThrough(bars, i, e.threshold, e.crossesAbove) && signal == ForwardSignal(e.action, bars[i].ts, bars[i].close)
  {
    hide FillPending;
    if n > 0 {
      PriceRuleSignals(e, costs, bars, lastAt, book, n - 1, signal);
      if n == 1 {
        assert !GoesThrough(bars, 0, e.threshold, e.crossesAbove);
      } else {
        assert Crossed(e, bars[n - 2], bars[n - 1]) <==> GoesThrough(bars, n - 1, e.threshold, e.crossesAbove);
      }
    }
  }

  /** What is left of a pending order's size. */
  function SizeOf(order: Pending, defaultPct: real): real {
    if order.sizePct.Some? then order.sizePct.value else defaultPct
  }

  /** A filled purchase spends its percentage of the cash on the open plus slippage and commission; a
      filled sale gives up its percentage of the quantity for its value at the open less slippage,
      commission and tax. Without cash or position, or without an order, nothing moves. */
  lemma FillMoves(book: Book, open: real, costs: Costs, defaultPct: real)
    requires open > 0.0 && costs.Valid()
    ensures var after := FillPending(book, open, costs, defaultPct);
      && after.pending.None? && after.contributions == book.contributions && after.paidMonths == book.paidMonths
      && (book.pending.Some? && book.pending.value.action.Buy? && book.cash > 0.0 ==>
            var spent := Times(book.cash, SizeOf(book.pending.value, defaultPct) / 100.0);
            && after.cash == book.cash - spent
            && Times(Times(after.quantity - book.quantity, open), PurchaseShare(costs)) == spent
            && after.fees - book.fees == spent - Times(after.quantity - book.quantity, BuyPrice(open, costs)))
      && (book.pending.Some? && book.pending.value.action.Sell? && book.quantity > 0.0 ==>
            var sold := Times(book.quantity, SizeOf(book.pending.value, defaultPct) / 100.0);
            && after.quantity == book.quantity - sold
            && after.cash - book.cash == Times(Times(sold, open), SaleShare(costs))
            && after.fees - book.fees == Times(sold, SellPrice(open, costs)) - (after.cash - book.cash))
      && (book.pending.None? || (book.pending.value.action.Buy? && book.cash <= 0.0)
          || (book.pending.value.action.Sell? && book.quantity <= 0.0) ==>
            after.cash == book.cash && after.quantity == book.quantity && after.fees == book.fees)
  {
    hide Times, BuyQuantity, SaleShare;
    FillPricesPositive(open, costs);
    if book.pending.Some? {
      var size := SizeOf(book.pending.value, defaultPct) / 100.0;
      BuySpendsBudget(Times(book.cash, size), BuyPrice(open, costs), costs.FeeRate());
      PurchaseQuantity(Times(book.cash, size), open, costs);
      SaleProceeds(Times(book.quantity, size), open, costs);
      hide BuyPrice, SellPrice, Commission;
    }
  }

  /** The order of a price rule signal waits for the next new bar and is filled at its open. */
  lemma PriceOrderFillsNext(e: Evaluator, costs: Costs, bars: seq<Bar>, lastAt: Option<int>, book: Book, n: nat)
    requires e.PriceRule? && e.Valid() && costs.Valid() && 0 < n < |bars| && Priced(bars) && IsNew(bars[n], lastAt)
    ensures var (before, after) := (Run(e, costs, bars, lastAt, book, n).0, Run(e, costs, bars, lastAt, book, n + 1).0);
      && after == FillPending(before, bars[n].open, costs, e.sizePct).(pending := after.pending)
      && after.pending == if GoesThrough(bars, n, e.threshold, e.crossesAbove) then Some(Pending(e.action, Some(e.sizePct))) else None
  {
    FillMoves(Run(e, costs, bars, lastAt, book, n).0, bars[n].open, costs, e.sizePct);
    hide FillPending;
  }

  /** An evaluation reports the position at the latest close, and the benchmark moves as that close does. */
  lemma OutcomeValues(e: Evaluator, item: Work, other: Work)
    requires e.Valid() && item.Valid() && other.Valid() && item.benchmarkQuantity == other.benchmarkQuantity
    ensures var (outcome, close) := (OutcomeOf(e, item), item.bars[|item.bars| - 1].close);
      && outcome.marketValue == Times(outcome.book.quantity, close) && outcome.equity - outcome.marketValue == outcome.book.cash
      && outcome.snapshotAt == item.bars[|item.bars| - 1].ts
      && Times(outcome.benchmarkEquity, other.bars[|other.bars| - 1].close) == Times(OutcomeOf(e, other).benchmarkEquity, close)
  {
    hide Run;
    var (q, a, b) := (item.benchmarkQuantity, item.bars[|item.bars| - 1].close, other.bars[|other.bars| - 1].close);
    assert q * a * b == q * b * a;
  }

  // ---------------------------------------------------------------- monthly contributions

  /** Bar i is the first of its month on or after the scheduled day. */
  ghost predicate FirstDue(e: Evaluator, bars: seq<Bar>, i: nat)
    requires e.DcaRule? && i < |bars|
  {
    && e.calendar.day(bars[i].ts) >= e.dayOfMonth
    && forall j :: 0 <= j < i && e.calendar.day(bars[j].ts) >= e.dayOfMonth ==>
        e.calendar.month(bars[j].ts) != e.calendar.month(bars[i].ts)
  }

  ghost function DueSignals(e: Evaluator, bars: seq<Bar>, n: nat): seq<ForwardSignal>
    requires e.DcaRule? && n <= |bars|
  {
    if n == 0 then []
    else
      DueSignals(e, bars, n - 1)
      + (if FirstDue(e, bars, n - 1) then [ForwardSignal(Buy, bars[n - 1].ts, bars[n - 1].open)] else [])
  }

  /** The paid months are those with a due bar among the first n. */
  ghost predicate MonthsPaid(e: Evaluator, bars: seq<Bar>, n: nat, paid: set<int>)
    requires e.DcaRule? && n <= |bars|
  {
    && (forall j :: 0 <= j < n && e.calendar.day(bars[j].ts) >= e.dayOfMonth ==> e.calendar.month(bars[j].ts) in paid)
    && (forall m :: m in paid ==>
          exists j :: 0 <= j < n && e.calendar.day(bars[j].ts) >= e.dayOfMonth && e.calendar.month(bars[j].ts) == m)
  }

  lemma DueIffFirst(e: Evaluator, bars: seq<Bar>, i: nat, paid: set<int>)
    requires e.DcaRule? && i < |bars| && MonthsPaid(e, bars, i, paid)
    ensures DcaDue(e, bars[i], paid) <==> FirstDue(e, bars, i)
  {
    var m := e.calendar.month(bars[i].ts);
    if m in paid {
      var j :| 0 <= j < i && e.calendar.day(bars[j].ts) >= e.dayOfMonth && e.calendar.month(bars[j].ts) == m;
    }
  }

  lemma NothingPaid(e: Evaluator, bars: seq<Bar>)
    requires e.DcaRule?
    ensures MonthsPaid(e, bars, 0, {})
  {
  }

  lemma MonthsPaidNext(e: Evaluator, bars: seq<Bar>, i: nat, paid: set<int>)
    requires e.DcaRule? && i < |bars| && MonthsPaid(e, bars, i, paid)
    ensures MonthsPaid(e, bars, i + 1, if DcaDue(e, bars[i], paid) then paid + {e.calendar.month(bars[i].ts)} else paid)
  {
  }

  /** Buying for a contribution that was just added leaves cash as it was before. */
  lemma PurchaseSpends(e: Evaluator, costs: Costs, book: Book, bar: Bar)
    requires e.DcaRule? && costs.Valid() && bar.open > 0.0
    ensures var funded := book.(cash := book.cash + e.contribution, contributions := book.contributions + e.contribution,
                                paidMonths := book.paidMonths + {e.calendar.month(bar.ts)});
      var after := Bought(funded, e.contribution, bar.open, costs);
      after.cash == book.cash && after.contributions == funded.contributions && after.paidMonths == funded.paidMonths
  {
    hide Times, BuyQuantity, Commission;
    FillPricesPositive(bar.open, costs);
    BuySpendsBudget(e.contribution, BuyPrice(bar.open, costs), costs.FeeRate());
  }

  /** From a fresh state the rule buys exactly on the first due bar of each month, each purchase
      spends exactly its contribution, and cash stays where it was. */
  lemma {:induction false} DcaBuysOncePerMonth(e: Evaluator, costs: Costs, bars: seq<Bar>, book: Book, n: nat)
    requires e.DcaRule? && e.Valid() && costs.Valid() && n <= |bars| && Priced(bars)
    requires book.paidMonths == {}
    ensures var (after, signals) := Run(e, costs, bars, None, book, n);
      && signals == DueSignals(e, bars, n)
      && after.cash == book.cash
      && after.contributions == book.contributions + Times(|signals| as real, e.contribution)
      && MonthsPaid(e, bars, n, after.paidMonths)
  {
    hide Times, BuyQuantity, Commission, Bought, FirstDue, MonthsPaid, DcaDue;
    TimesOne(e.contribution);
    if n == 0 {
      NothingPaid(e, bars);
    } else {
      DcaBuysOncePerMonth(e, costs, bars, book, n - 1);
      var (before, signals) := Run(e, costs, bars, None, book, n - 1);
      DueIffFirst(e, bars, n - 1, before.paidMonths);
      MonthsPaidNext(e, bars, n - 1, before.paidMonths);
      TimesAdd(e.contribution, |signals| as real, 1.0);
      PurchaseSpends(e, costs, before, bars[n - 1]);
    }
  }

  /** Each monthly purchase invests exactly the contribution at the open plus slippage and commission. */
  lemma DcaBuysAtOpen(e: Evaluator, costs: Costs, bars: seq<Bar>, lastAt: Option<int>, book: Book, n: nat)
    requires e.DcaRule? && e.Valid() && costs.Valid() && n < |bars| && Priced(bars)
    ensures var (before, after) := (Run(e, costs, bars, lastAt, book, n).0, Run(e, costs, bars, lastAt, book, n + 1).0);
      var bought := Times(Times(after.quantity - before.quantity, bars[n].open), PurchaseShare(costs));
      && (|Run(e, costs, bars, lastAt, book, n + 1).1| > |Run(e, costs, bars, lastAt, book, n).1| ==> bought == e.contribution)
      && (Run(e, costs, bars, lastAt, book, n + 1).1 == Run(e, costs, bars, lastAt, book, n).1 ==> after == before)
  {
    hide Times, BuyQuantity, Commission;
    PurchaseQuantity(e.contribution, bars[n].open, costs);
    hide BuyPrice;
  }

  /** Every month that has a due bar is bought, on one bar of that month. */
  lemma {:induction false} EveryDueMonthIsBought(e: Evaluator, bars: seq<Bar>, j: nat) returns (i: nat)
    requires e.DcaRule? && j < |bars| && e.calendar.day(bars[j].ts) >= e.dayOfMonth
    ensures i <= j && FirstDue(e, bars, i) && e.calendar.month(bars[i].ts) == e.calendar.month(bars[j].ts)
    ensures forall k :: 0 <= k <= j && FirstDue(e, bars, k) && e.calendar.month(bars[k].ts) == e.calendar.month(bars[j].ts) ==> k == i
  {
    i := j;
    if !FirstDue(e, bars, j) {
      var earlier :| 0 <= earlier < j && e.calendar.day(bars[earlier].ts) >= e.dayOfMonth
                  && e.calendar.month(bars[earlier].ts) == e.calendar.month(bars[j].ts);
      i := EveryDueMonthIsBought(e, bars, earlier);
    }
  }
}
