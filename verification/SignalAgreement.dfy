/** The whole-history engine and the forward evaluator size trades differently but see the same
    position flag at every bar, so they emit the same signals. */
module SignalAgreement {
  import opened Prelude
  import opened Market
  import opened Strategies
  import opened Forward
  import opened CustomBacktest
  import Engine

  /** The signals of a backtest: its strategy asked at each bar with the flag it sees there. */
  ghost function EngineSignals(job: Engine.Job, n: nat): seq<ForwardSignal>
    requires job.Valid() && n <= |job.bars|
  {
    if n == 0 then []
    else
      var bar := job.bars[n - 1];
      match job.strategy.Signal(job.bars, n - 1, Engine.SleeveAt(job, n).quantity > 0.0)
      case Some(action) => EngineSignals(job, n - 1) + [ForwardSignal(action, bar.ts, bar.close)]
      case None => EngineSignals(job, n - 1)
  }

  /** All in or all out: a long book has spent its cash, a flat book has some. */
  ghost predicate AllOrNothing(book: Book) {
    if book.quantity > 0.0 then book.cash == 0.0 else book.quantity == 0.0 && book.cash > 0.0
  }

  ghost predicate SameOrder(pending: Option<Pending>, order: Option<Engine.PendingOrder>) {
    match (pending, order)
    case (None, None) => true
    case (Some(p), Some(o)) => p == Pending(o.action, Some(100.0))
    case _ => false
  }

  ghost predicate InStep(book: Book, st: Engine.Sleeve) {
    && AllOrNothing(book)
    && st.quantity >= 0.0
    && (book.quantity > 0.0 <==> st.quantity > 0.0)
    && SameOrder(book.pending, st.pending)
  }

  /** Buying with all cash empties it; selling everything brings some back. */
  lemma FillStaysAllOrNothing(book: Book, open: real, costs: Costs)
    requires open > 0.0 && costs.Valid() && costs.SalesPay() && AllOrNothing(book)
    requires book.pending.Some? ==> book.pending.value.sizePct == Some(100.0)
    ensures var after := FillPending(book, open, costs, 100.0);
      && AllOrNothing(after) && after.pending.None?
      && (after.quantity > 0.0 <==> match book.pending
          case None => book.quantity > 0.0
          case Some(order) => order.action.Buy?)
  {
    hide Times, BuyQuantity, BuyPrice, SellPrice, Commission;
    if book.pending.Some? {
      FillPricesPositive(open, costs);
      TimesOne(book.cash);
      TimesOne(book.quantity);
      if book.quantity > 0.0 {
        SalePays(book.quantity, SellPrice(open, costs), costs.FeeRate() + costs.TaxRate());
      } else {
        BuySpendsBudget(book.cash, BuyPrice(open, costs), costs.FeeRate());
      }
    }
  }

  lemma EngineFillFlag(job: Engine.Job, st: Engine.Sleeve, i: nat)
    requires job.Valid() && i < |job.bars| && st.quantity >= 0.0
    ensures var after := Engine.Fill(job, Engine.Accrue(job, st, i), i);
      && after.quantity >= 0.0 && after.pending.None?
      && (after.quantity > 0.0 <==> match st.pending
          case None => st.quantity > 0.0
          case Some(order) => order.action.Buy?)
  {
    hide Times, BuyQuantity, Commission, BuyPrice, SellPrice;
    FillPricesPositive(job.bars[i].open, job.costs);
    Engine.PowerPositive(job);
    BuySpendsBudget(job.Power(), BuyPrice(job.bars[i].open, job.costs), job.costs.FeeRate());
  }

  /** Same flag, same pending order and the same signals so far, for any strategy whatever. */
  lemma {:induction false} SignalsAgree(job: Engine.Job, cash: real, n: nat)
    requires job.Valid() && job.costs.SalesPay() && cash > 0.0 && n <= |job.bars|
    ensures var (book, signals) := Run(CatalogRule(job.strategy), job.costs, job.bars, None, FreshBook(cash), n);
      InStep(book, Engine.SleeveAt(job, n)) && signals == EngineSignals(job, n)
  {
    hide Times, FillPending, Strategy.Signal, Engine.Fill, Engine.Accrue;
    if n > 0 {
      SignalsAgree(job, cash, n - 1);
      var book := Run(CatalogRule(job.strategy), job.costs, job.bars, None, FreshBook(cash), n - 1).0;
      FillStaysAllOrNothing(book, job.bars[n - 1].open, job.costs);
      EngineFillFlag(job, Engine.SleeveAt(job, n - 1), n - 1);
    }
  }
}
