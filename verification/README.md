# Verified model of the quant worker

A Dafny model of the Python quant worker under `quant-worker/`: how portfolio weights are computed, how
strategies are simulated three different ways, how workers share queues, how market data is versioned and
adjusted, and how datasets travel between installations. Each module follows one component of the worker.
Loops and updated rows are methods and classes proved against specification functions; what the worker
promises is proved about those functions for all inputs, all runs and all interleavings.

- `Prelude`, `Sorting` hold shared datatypes, sums, named products, fixed-point rounding, stable sorting and string order.
- `Optimizer`, `Rounding`: water-filling under a cap, then largest-remainder rounding to basis points.
- `Market`, `Strategies`, `Engine`, `Backtest`: bars, costs, the catalog rules, the whole-history engine and
  the combined equity curve.
- `Forward`, `CustomBacktest`, `SignalAgreement`: the incremental evaluator with persisted state, the
  whole-history custom rules, and the agreement of the simulators.
- `RunProtocol`, `RunWorker`: the backtest run queue as a state machine of guarded transactions, and the
  worker that drives it while others interfere.
- `RequestProtocol`, `IngestionWorker`: the market ingestion request queue with leases, tickets, retries, requeues and
  retirement, and the worker that publishes for it.
- `Ingestion`: windows, merging, one ingestion run, and incremental ingestion against a full backfill.
- `Adjustments`, `AdjustmentAudit`: total-return adjustment and its independent audit.
- `Portfolio`: the ledger of sleeve values, contributions and rebalances.
- `Publication`: dataset versions under publishing, deactivation and pruning.
- `Csv`, `Codec`, `Package`: CSV quoting, number and timestamp printers and parsers, and the dataset package.
- `Opinion`: the fixed-point scoring ledger of an asset opinion.
- `Storage`, `Exporter`: the manifest-last upload protocol, and the batches and keys that make it safe.

## Conventions

Decimals are exact reals, so `prec = 36` contexts and `float` storage do not round; rounding the worker asks for
by name (`quantize`, `round`, fixed-scale formatting) is modelled. The tolerance of the optimizer's loop is a
parameter `eps`, which may be zero. Timestamps are integers, dates and months functions of them; the package codec alone
carries calendar fields. Each SQL statement or transaction is one atomic event; clocks are arguments. Checksums and
digests stand for the content they summarise.

## What the model shows about the code

- Requests in whole basis points, the only ones the service sends, fail only for the reasons the guard and the
  estimator checks name (`Rounding.OptimizeRequest`). For a cap between two basis points, which only a direct caller of
  `optimize` could pass, `Rounding.OptimizeWeights` states when rounding the cap makes the request fail.
- `complete_run` closes only legs that come with metrics (`RunProtocol.CommitClosesMeasuredLegs`); the worker stores
  them for every leg, so a successful run leaves none open (`RunWorker.SuccessClosesEveryLeg`).
- `src/lib/backend/quant.ts` allows transitions workers never take: a run whose cancellation was requested only ever
  becomes cancelled, never timed out (`RunProtocol.HistoryOfOneRun`).
- A worker reports `failed` even when it no longer holds the run, which is then left as it is
  (`RunWorker.FailureTakesEffectIff`).
- A live version that starts within a week of the start of history is never refetched as a whole, so a hole behind the
  overlap window is permanent (`Ingestion.HoleIsForever`, `Ingestion.StuckVersion`); a window can also reach behind the
  start of history and bring in earlier bars (`Ingestion.EarlyBarComesIn`).
- The audit of adjusted bars leaves out ex-dates before the audited one that share its last prior bar
  (`AdjustmentAudit.SharedPriorBarFails`), and it fails correct adjustments whose volume was rounded when it was stored:
  volumes keep four decimals, the tolerance is 0.00000001 (`AdjustmentAudit.RoundedVolumeFails`).
- Two recent facts of full weight in one pillar make the whole opinion be refused, such as two
  `equity.foreign_flow.*` metrics (`Opinion.TwoForeignFlowsAreRefused`).
- Publishing is not guarded by the lease of an ingestion request: a worker that lost it leaves its version published
  (`IngestionWorker.WorkerLeaves`). Completing an evaluation is not guarded either: a late worker sets the assignment
  back, until the next evaluation (`Forward.LateCompletionHeals`).
- Whether a source containing a carriage return survives the dataset package depends on whether the csv writer quotes
  it; the model covers both kinds of writer (`Csv.Dialect`).
- The look-then-write upload is safe because package keys contain the checksum of their content
  (`Exporter.ExportsAgree`); under a key without that property it is not (`Storage.ConflictBreaksManifest`). Two runs of
  the exporter within one second over the same versions share a manifest key but may differ in their manifests; the
  packages named are then the same, so the manifest that stays is still complete.
- The adjuster compares only the assets of the first and the last bar (`Adjustments.TotalReturn`).

## Model

| member | source | states |
|---|---|---|
| `Optimizer.NormalizedWeights` | quant-worker/backtest/optimizer.py:91-112 | Normalization and water-filling end, and err exactly on a negative weight, on an all-zero input, or with an infeasible cap, which cannot happen when n times the cap covers the total. A result sums to the total, stays within the cap (plus tolerance), never cuts an entry that started below the cap, keeps the input order, leaves the total within n times the cap, and for inputs of zero or above the tolerance is min(cap, lambda times the start) for one common lambda, or has all positive entries at the cap and the zero entries equal |
| `Optimizer.WaterFill` | quant-worker/backtest/optimizer.py:97-112 | The loop ends with a finished allocation of its start, or having found that n times the cap is below the total |
| `Optimizer.SpreadExcess` | quant-worker/backtest/optimizer.py:97-111 | One in-place round of the loop caps the full entries and spreads what they lose; it gives up only when the caps cannot hold the total |
| `Optimizer.RoundConserves` | quant-worker/backtest/optimizer.py:101-111 | A round keeps the total and non-negativity |
| `Optimizer.RoundCloses` | quant-worker/backtest/optimizer.py:97-111 | Every round either ends the overflow or closes one more entry at the cap: the termination argument |
| `Optimizer.RoundKeepsLevel` | quant-worker/backtest/optimizer.py:105-111 | A round multiplies the common level of all open entries by one factor or, once only zero entries are open, fills those up equally |
| `Optimizer.RoundKeepsOrder` | quant-worker/backtest/optimizer.py:97-111 | A round keeps the order of the starting weights and cuts nobody below the cap |
| `Optimizer.LevelUnique` | quant-worker/backtest/optimizer.py:91-112 | Two levelled allocations with the same total are the same allocation |
| `Optimizer.LevelledIsCapped` | quant-worker/backtest/optimizer.py:91-112 | A levelled allocation with level at least one is min(cap, lambda times the start) entry by entry |
| `Optimizer.AllocationDetermined` | quant-worker/backtest/optimizer.py:91-112 | While the caps of the positive entries can hold the total, the result is min(cap, lambda times the start), and any level with that total gives the same result |
| `Optimizer.ZerosShareTheRest` | quant-worker/backtest/optimizer.py:105-111 | When those caps cannot hold the total, all positive entries are at the cap and the zero entries share the rest equally |
| `Rounding.SortedIndices` | quant-worker/backtest/optimizer.py:119-121 | The order of the entries: larger fraction first, ties by symbol in lexicographic order, every index once |
| `Rounding.Pass` | quant-worker/backtest/optimizer.py:122-128 | One pass hands out units in order to entries below the cap, up to the entry where it ends; units are conserved, it runs through the order unless all units are placed, and it stalls only when every entry is at the cap |
| `Rounding.Distribute` | quant-worker/backtest/optimizer.py:121-130 | All left-over units are placed if and only if the entries have room for them; if enough entries are below the cap, one pass places them on the first such entries of the order |
| `Rounding.RaiseOpen` | quant-worker/backtest/optimizer.py:122-127 | Raising the entries below the cap among the first k of the order adds one unit to each of them and nothing to any other |
| `Rounding.LeftoverGoesToFractions` | quant-worker/backtest/optimizer.py:117-127 | While units are left over, the next entry in order exists and has a fraction |
| `Rounding.LeftoverFits` | quant-worker/backtest/optimizer.py:115-131 | When the exact shares pass the cap by less than one unit in all, the left-over units fit into one pass and are given fairly |
| `Rounding.BasisPoints` | quant-worker/backtest/optimizer.py:115-131 | Largest remainder: the integers sum to the requested basis points, each is its floor or raised up to the cap; it errs if and only if floors and cap leave too little room; when the shares pass the cap by less than one unit in all, each is floor or ceiling of its share and nobody is raised before an entry below the cap that is ahead of it |
| `Rounding.AllocationCeilings` | quant-worker/backtest/optimizer.py:161-177 | After water-filling of a whole-basis-point total, all floors stay within the rounded cap, so the room is n times the rounded cap |
| `Rounding.OptimizeWeights` | quant-worker/backtest/optimizer.py:161-177 | Guard, water-filling and rounding composed: each error exactly when it is due, and otherwise the result rounds a water-filled allocation of the estimator output; for a whole-basis-point total it sums to the total within the rounded cap, and usable weights with a feasible cap fail exactly when the total exceeds n times the rounded cap |
| `Rounding.OptimizeRequest` | quant-worker/service.py:76-96 | The optimize endpoint, whose total and cap are whole basis points: it fails exactly when n times the cap is below the total or the estimator output is invalid or all zero, with the matching error; otherwise the integers sum to the total, none exceeds the cap, they are the fair rounding of the water-filled allocation, and of two equal raw weights the lexicographically first symbol gets the same or one more |
| `Rounding.GuardIsExact` | quant-worker/backtest/optimizer.py:163-164 | Between whole basis points the guard compares n times the cap with the total exactly, its tolerance never matters |
| `Rounding.SharesFitWholeCaps` | quant-worker/backtest/optimizer.py:115-118 | The exact shares of a water-filled whole-basis-point request pass its cap by less than one unit in all |
| `Rounding.TiesGoToTheFirstSymbol` | quant-worker/backtest/optimizer.py:119-127 | Of two entries with equal exact shares, the one whose symbol comes first in the lexicographic order gets at least as many units, and at most one more |
| `Sorting.StringLeqIsLexicographic` | quant-worker/backtest/optimizer.py:119-121 | The order of symbols is lexicographic: a string comes before another exactly if at the first place where they differ it has ended or has the smaller character |
| `Market.NormalizeSorts` | quant-worker/backtest/quality.py:14-32 | Normalizing sorts bars by time, keeps all of them and leaves ordered bars as they are |
| `Market.BuySpendsBudget` | quant-worker/backtest/engine.py:116-130 | A purchase spends exactly its budget, commission included, and a positive budget buys something |
| `Market.SalePays` | quant-worker/backtest/engine.py:139-150 | A sale of a positive quantity pays out a positive amount when fee and tax are below one |
| `Market.SlippageCosts` | quant-worker/backtest/engine.py:119-134 | A purchase fills above the open and a sale below it, each by exactly the slippage |
| `Market.SaleProceeds` | quant-worker/backtest/engine.py:134-139 | A sale pays quantity times open times one less slippage times one less commission and tax |
| `Market.PurchaseQuantity` | quant-worker/backtest/engine.py:119-123 | A purchase buys what its budget is worth at the open plus slippage and commission |
| `Market.StoredBarIsNear` | quant-worker/backtest/publication.py:23-38 | Storing keeps a bar's time and source and moves prices by at most half of the eighth decimal, volumes by half of the fourth, each to its own field |
| `Strategies.ConfirmedPivots` | quant-worker/backtest/strategies.py:225-241 | The pivot scan finds exactly the confirmed pivots, in bar order |
| `Strategies.FindLatestPattern` | quant-worker/backtest/strategies.py:243-264 | The pattern scan returns the pattern of the last offset that forms one |
| `Strategies.PivotsGrow` | quant-worker/backtest/strategies.py:225-241 | The pivots confirmed at one bar are a prefix of those at the next, with at most one added |
| `Strategies.LatestPatternIsLast` | quant-worker/backtest/strategies.py:243-264 | No pattern is found exactly when no offset forms one; otherwise none of the later offsets does |
| `Strategies.AbcdEntryOnConfirmation` | quant-worker/backtest/strategies.py:266-301 | An ABCD entry comes on the very bar that confirms its last low pivot |
| `Strategies.CatalogIsCausal` | quant-worker/backtest/strategies.py:59-301 | The moving-average, Turtle, rolling and ABCD rules give the same signal on any two series that agree up to the bar asked |
| `Strategies.CatalogIsDisciplined` | quant-worker/backtest/strategies.py:59-301 | The modelled rules buy only when flat and sell only when long |
| `Strategies.PivotsCausal` | quant-worker/backtest/strategies.py:225-241 | Pivots at a bar depend only on bars up to it |
| `Strategies.MovingAverageCrosses` | quant-worker/backtest/strategies.py:59-84 | A purchase is signalled exactly when, while flat, the fast mean of closes passes above the slow one, a sale when, while long, it passes below; means compared as sums of the closes |
| `Strategies.TurtleBreaksOut` | quant-worker/backtest/strategies.py:102-133 | A purchase is signalled exactly on a close above every high of the entry window before it, a sale on a close below every low of the exit window |
| `Strategies.RollingFollowsRuns` | quant-worker/backtest/strategies.py:150-180 | A purchase is signalled exactly when the last n closes rise throughout while flat, a sale when they fall throughout while long |
| `Strategies.WarmupIsFirstSignal` | quant-worker/backtest/strategies.py:50-148 | The warm-up of the window rules is exact: no signal before it on any bars, and a signal right at it on some |
| `Strategies.PivotsAreExtremes` | quant-worker/backtest/strategies.py:225-241 | The confirmed pivots are exactly the bars with room on both sides whose low is below, or else whose high is above, that of every neighbour |
| `Strategies.PatternIsRetracement` | quant-worker/backtest/strategies.py:246-261 | Three pivots form a pattern exactly when they are a low, a higher high and a low that gives back between the two shares of the rise; the target lies the extension of the rise above it |
| `Strategies.NeighboursFormPatterns` | quant-worker/backtest/strategies.py:243-264 | Any three consecutive pivots that form a pattern count, and the latest pattern is no earlier than theirs |
| `Strategies.AbcdSellsAtTarget` | quant-worker/backtest/strategies.py:275-301 | The rule sells exactly when, after the bar that confirmed the latest pattern, the close reaches its target, and buys exactly on that bar |
| `Engine.SimulateSleeve` | quant-worker/backtest/engine.py:62-188 | The simulation loop over the bars in time order computes the specified run: next-bar fills, fees, slippage, leverage and financing; it errs exactly on too few bars or a leverage below one or above two for Vietnamese equities and one elsewhere |
| `Engine.EngineAccounting` | quant-worker/backtest/engine.py:107-188 | After every bar: cash plus fees, slippage and financing is capital plus the gains of closed quantities less the open quantity at its entry open; cash is capital plus realised profit less financing and the open purchase; each buy costs exactly capital times leverage; trades never overlap and fill one bar after their signal |
| `Engine.PointsRecordStates` | quant-worker/backtest/engine.py:170-182 | The point of each bar shows the cash of the state after that bar, its quantity at the close, and their sum |
| `Engine.NoLookAhead` | quant-worker/backtest/engine.py:107-188 | With a causal rule, two series that agree on the first bars give the same points, fills and orders there |
| `Engine.CatalogBacktestsAreCausal` | quant-worker/backtest/engine.py:107-188 | The same for the catalog rules modelled here, with no assumption on them |
| `Engine.SignalsAreFilled` | quant-worker/backtest/engine.py:116-187 | A buy signal given while flat opens the position at the next bar, a sell signal given while long closes it there as one trade, and nothing else changes the position |
| `Engine.TradesFollowSignals` | quant-worker/backtest/engine.py:116-169 | Every position was bought with exactly capital times leverage at the open after a buy signal given while flat; every trade was sold at the open after a sell signal given while long and realised what slippage, commission and tax left of its value there, less what was spent |
| `Engine.CostsOnlyTakeAway` | quant-worker/backtest/engine.py:109-150 | For slippage up to the whole price, after every bar fees, slippage and financing are not negative, and cash is at most what the same trades leave without costs |
| `Engine.FinancingIsTimeHeld` | quant-worker/backtest/engine.py:109-115 | Financing is the loan (capital times leverage less one) at the annual rate over 365 days for exactly the seconds in which a position was open |
| `Engine.SpotBorrowsNothing` | quant-worker/backtest/engine.py:52-57 | In the markets without leverage nothing is borrowed and no financing is paid |
| `Engine.EquityIsExplained` | quant-worker/backtest/engine.py:107-182 | The equity of every bar is capital plus the gains of closed and open quantities between opens and close, less fees, slippage and financing |
| `Engine.TradeFeesAddUp` | quant-worker/backtest/engine.py:116-160 | The fees shown with closed trades and that of the open position are all fees paid |
| `Backtest.CombineCurves` | quant-worker/backtest/engine.py:228-262 | The carry-forward loop gives, at every timestamp, the sum of the latest points of all sleeves, with the running peak and deepest drawdown |
| `Backtest.TimelineUnion` | quant-worker/backtest/engine.py:228 | The combined timestamps ascend and are exactly those of some bar |
| `Backtest.CarryForward` | quant-worker/backtest/engine.py:243-245 | Overwriting on a matching timestamp and carrying forward otherwise keeps exactly the last point at or before the time |
| `Backtest.LatestIsState` | quant-worker/backtest/engine.py:229-245 | The latest point is the simulation state after the bars reached by then, or the untouched capital |
| `Backtest.CurveIsCausal` | quant-worker/backtest/engine.py:191-262 | Changing any asset's bars after a time leaves the timestamps and points of the combined curve up to that time unchanged, and with them the running peak and the deepest drawdown so far |
| `Backtest.RunStrategy` | quant-worker/backtest/engine.py:191-262 | The whole backtest errs exactly on no capital, no assets, too few bars or a leverage out of range; otherwise every asset is simulated on an equal share, the curve is the combined one with its peak and drawdown, and fees, slippage and financing are the totals of all sleeves |
| `Backtest.CombinedAccounting` | quant-worker/backtest/engine.py:208-260 | At every time, combined cash plus all costs paid so far is all capital plus the gains of all closed quantities less the open ones at entry |
| `Backtest.PeakIsHighest` | quant-worker/backtest/engine.py:235-251 | The peak is the highest of the initial capital and all equities |
| `Backtest.DrawdownIsDeepest` | quant-worker/backtest/engine.py:236-252 | The maximum drawdown is the deepest loss below the peak reached by then, or zero |
| `Backtest.TotalAddsUp` | quant-worker/backtest/engine.py:246-249 | The combined point adds up cash and market value over the sleeves |
| `Backtest.CostTotalsAreSums` | quant-worker/backtest/engine.py:208-226 | The reported fees, slippage and financing are the sums over the sleeves, each of its kind |
| `Forward.Settle` | quant-worker/backtest/forward_evaluator.py:227-251 | The pending order is removed whether or not it fills, and a fill moves cash, quantity and fees as specified |
| `Forward.PriceOutcome` | quant-worker/backtest/forward_evaluator.py:254-274 | The price-rule loop over the bars computes the specified evaluation from the saved state |
| `Forward.CatalogOutcome` | quant-worker/backtest/forward_evaluator.py:277-312 | The catalog-rule loop computes the specified evaluation from the saved state |
| `Forward.DcaOutcome` | quant-worker/backtest/forward_evaluator.py:315-338 | The contribution-rule loop computes the specified evaluation from the saved state |
| `Forward.LatestNewBar` | quant-worker/backtest/forward_evaluator.py:223-224 | On increasing bars the latest new bar is the latest bar |
| `Forward.Assignment.Evaluate` | quant-worker/backtest/forward_evaluator.py:147-364 | An evaluation succeeds exactly for an active assignment with a non-empty intact dataset and an unaltered rule, and then updates the row to the new state and the last evaluated bar and stores its signals, each once per dataset version and bar; otherwise it leaves the saved state alone and deactivates the assignment |
| `Forward.StoringMovesOn` | quant-worker/backtest/forward_evaluator.py:147-182 | While no stored signal is later than the last evaluated bar, an evaluation stores all its signals |
| `Forward.StoredOnce` | quant-worker/backtest/forward_evaluator.py:150-167 | Storing the signals of an evaluation a second time changes nothing |
| `Forward.ChunkInvariance` | quant-worker/backtest/forward_evaluator.py:223-338 | Evaluating a prefix, saving, and evaluating the extended bars leaves the same row as one evaluation over all bars |
| `Forward.AnyChunking` | quant-worker/backtest/forward_evaluator.py:223-338 | However the bars arrive, over any sequence of growing prefixes, the row is that of a single evaluation |
| `Forward.LateCompletionHeals` | quant-worker/backtest/forward_evaluator.py:196-204 | A completion that comes too late writes back the state of a shorter prefix, and the next evaluation then ends as if it had not |
| `Forward.DcaBuysOncePerMonth` | quant-worker/backtest/forward_evaluator.py:315-338 | From a fresh state the rule buys exactly on the first bar of each month on or after its day, leaves cash unchanged and counts one contribution per purchase |
| `Forward.EveryDueMonthIsBought` | quant-worker/backtest/forward_evaluator.py:320-330 | Every month with a due bar is bought, on exactly one bar |
| `Forward.PriceRuleSignals` | quant-worker/backtest/forward_evaluator.py:259-269 | From any saved state a price rule signals exactly on the new bars whose close went from at or below the threshold to above it (or mirrored, for a downward rule), with the rule's action at that close |
| `Forward.PriceOrderFillsNext` | quant-worker/backtest/forward_evaluator.py:259-269 | The order of a signal waits and is removed at the next new bar, filled at its open |
| `Forward.FillMoves` | quant-worker/backtest/forward_evaluator.py:227-251 | A filled purchase spends its percentage of the cash on the open plus slippage and commission, a filled sale gives up its percentage of the quantity for its value less slippage, commission and tax; the difference to the fill price is booked as fees; otherwise nothing moves |
| `Forward.DcaBuysAtOpen` | quant-worker/backtest/forward_evaluator.py:321-332 | Each signalled contribution buys exactly its amount at the open plus slippage and commission; other bars change nothing |
| `Forward.OutcomeValues` | quant-worker/backtest/forward_evaluator.py:270-274 | An outcome is dated and valued at the latest bar, and the benchmark moves as its close does |
| `CustomBacktest.RunPriceThreshold` | quant-worker/backtest/custom_execution.py:83-137 | The whole-history price-rule loop over the bars in time order computes the specified run with its final equity, profit, peak and deepest drawdown, and errs exactly on no capital or fewer than two bars |
| `CustomBacktest.RunScheduledDca` | quant-worker/backtest/custom_execution.py:147-189 | The whole-history contribution loop over the bars in time order computes the specified run with its final equity, its profit without contributions, peak and deepest drawdown, and errs exactly on no capital or no bars |
| `CustomBacktest.PriceRunsAgree` | quant-worker/backtest/custom_execution.py:107-136 | Backtest and forward evaluator hold the same cash, quantity, fees and pending order after every bar |
| `CustomBacktest.PriceOutcomeMatchesBacktest` | quant-worker/backtest/custom_execution.py:107-136 | One forward evaluation from a fresh state ends with the position and equity of the price backtest |
| `CustomBacktest.DcaRunsAgree` | quant-worker/backtest/custom_execution.py:168-186 | Both contribution simulators hold the same position, contributions and paid months after every bar |
| `CustomBacktest.DcaOutcomeMatchesBacktest` | quant-worker/backtest/custom_execution.py:168-186 | One forward evaluation from a fresh state ends with the position, contributions and equity of the contribution backtest |
| `CustomBacktest.FillsFollowCrossings` | quant-worker/backtest/custom_execution.py:107-136 | Every recorded fill was executed at the open of the bar after a crossing with the rule's action, and every crossing leaves an order for the next bar |
| `CustomBacktest.PriceAccounting` | quant-worker/backtest/custom_execution.py:107-131 | After every bar cash plus fees and slippage is the capital plus what the recorded fills moved at the opens; position and fees are those of the fills; the point shows cash and position at the close |
| `CustomBacktest.NoTradeNoProfit` | quant-worker/backtest/custom_execution.py:41-60 | Without a trade there is no profit and no cost |
| `CustomBacktest.DcaProfit` | quant-worker/backtest/custom_execution.py:168-186 | Contributions never touch the capital, each is invested whole, and the profit is what the holding is worth beyond them |
| `CustomBacktest.DcaAccounting` | quant-worker/backtest/custom_execution.py:168-186 | The contributions are what was bought at the opens plus fees and slippage; the fees are those of the records |
| `SignalAgreement.SignalsAgree` | quant-worker/backtest/forward_evaluator.py:286-307 | For any strategy, positive prices and costs that leave something of a sale, engine and forward evaluator see the same position flag at every bar and emit the same signals, although they size trades differently |
| `SignalAgreement.FillStaysAllOrNothing` | quant-worker/backtest/forward_evaluator.py:227-251 | Full-size fills keep a forward book all in or all out |
| `SignalAgreement.EngineFillFlag` | quant-worker/backtest/engine.py:116-160 | An engine fill leaves the position flag set exactly as its order says |
| `RunProtocol.RunRepository.RecoverStaleRuns` | quant-worker/backtest/run_repository.py:62-109 | Recovery ends exactly the stale rows (which, `LifeOfARun` and `RecoveryCompletesCancellation` say), closes legs of ended runs, and counts them |
| `RunProtocol.RunRepository.ClaimNextRun` | quant-worker/backtest/run_repository.py:111-206 | A claim takes the oldest claimable run, or none exactly when there is none |
| `RunProtocol.RunRepository.CheckpointRun` | quant-worker/backtest/run_repository.py:208-285 | A checkpoint has the protocol's effect and verdict: cancelled, timed out, running with a renewed lease, or lease lost |
| `RunProtocol.RunRepository.CompleteRun` | quant-worker/backtest/run_repository.py:336-404 | A commit replaces the artifacts and ends the run exactly when the worker still holds it |
| `RunProtocol.RunRepository.FailRun` | quant-worker/backtest/run_repository.py:406-431 | A failure ends the run exactly when the worker still holds it |
| `RunProtocol.RunRepository.CancelRun` | src/lib/backend/quant-runs.ts:414-453 | Cancelling ends a queued run and its waiting legs, marks a running one and leaves others alone |
| `RunProtocol.EventKeepsRow` | quant-worker/backtest/run_repository.py:62-431 | Every event keeps the row invariant (attempts at most 3, progress 100 exactly in terminal states, artifacts only on success and from one worker, legs waiting, open or closed with the run), moves along a documented transition, never lowers progress or attempts, and leaves terminal runs alone |
| `RunProtocol.ReachableTables` | quant-worker/backtest/run_repository.py:62-431 | The invariant holds after every interleaving of every number of workers |
| `RunProtocol.HistoryOfOneRun` | quant-worker/backtest/run_repository.py:62-431 | Over any history, progress and attempts only grow, terminal runs are frozen, and a run with a requested cancellation is never anything but that or cancelled |
| `RunProtocol.ClaimsAndCommits` | quant-worker/backtest/run_repository.py:111-206 | The attempt counter counts the claims, at most three, and a run is committed at most once, exactly when it ends succeeded |
| `RunProtocol.SupersededWorkerIsSilent` | quant-worker/backtest/run_repository.py:208-431 | A worker whose claim was superseded changes nothing further: the history equals the one without its updates |
| `RunProtocol.ClaimGivesLease` | quant-worker/backtest/run_repository.py:117-150 | A claim hands the run over for the whole lease, counts the attempt and shows a progress of at least five; until the lease ends nobody can claim the run, afterwards only while attempts and deadline allow |
| `RunProtocol.CheckpointVerdicts` | quant-worker/backtest/run_repository.py:208-285 | Each verdict of a checkpoint, exactly when it is given and what it leaves: closed legs on a stop; while running a renewed lease, the reported progress between what it was and 99, and running legs |
| `RunProtocol.RecoveryIsComplete` | quant-worker/backtest/run_repository.py:62-109 | Recovery leaves nothing stale behind, and repeating it changes nothing |
| `RunProtocol.LifeOfARun` | quant-worker/backtest/run_repository.py:62-152 | What becomes of a queued or running run of a supported kind is told by deadline, lease and attempts: recovery times it out exactly past its deadline, or with its lease ended at three attempts; it can be claimed exactly before its deadline while queued, or with its lease ended at fewer attempts; otherwise both leave it as it is |
| `RunProtocol.RecoveryLeavesClaimable` | quant-worker/backtest/run_repository.py:62-109 | Recovery ends a run exactly when its deadline or lease has passed and nobody can claim it any more |
| `RunProtocol.RecoveryCompletesCancellation` | quant-worker/backtest/run_repository.py:62-70 | Recovery cancels a run with a requested cancellation exactly once its worker's lease has ended, and leaves ended runs alone |
| `RunProtocol.UnsupportedIsNeverClaimed` | quant-worker/backtest/run_repository.py:133-139 | A run of an unsupported kind is never claimed |
| `RunProtocol.CancellationReaches` | src/lib/backend/quant-runs.ts:414-453 | A cancellation ends a waiting run with its legs, leaves everything but the status of a running one to its worker, and comes too late for any other |
| `RunProtocol.OtherRunsStay` | quant-worker/backtest/run_repository.py:111-431 | A call that names another run changes nothing |
| `RunProtocol.EndingsAreComplete` | quant-worker/backtest/run_repository.py:336-431 | A failed run has full progress, no lease, its worker, failed legs and no artifacts; a committed one exactly the given artifacts under its worker's name |
| `RunProtocol.LeaseExcludesOthers` | quant-worker/backtest/run_repository.py:111-152 | While a lease runs nobody else can claim the run |
| `RunProtocol.CommitClosesMeasuredLegs` | quant-worker/backtest/run_repository.py:366-378 | A commit closes exactly the legs for which it stores an artifact with metrics |
| `RunWorker.ProcessClaimedRun` | quant-worker/backtest/run_execution.py:506-589 | The worker's call sequence against the shared table, with other workers and cancellations acting between its calls |
| `RunWorker.ReportIsTrue` | quant-worker/backtest/run_execution.py:506-589 | Success is reported exactly when the run ends as this worker's committed success with its own artifacts; a stop reports the run's real state; after lease loss or failure the worker no longer holds the run |
| `RunWorker.ArtifactsCloseAllLegs` | quant-worker/backtest/run_execution.py:397-416 | The artifacts of a finished computation close exactly the legs it worked on: every leg has its manifest with metrics, nothing else closes a leg |
| `RunWorker.SuccessClosesEveryLeg` | quant-worker/backtest/run_execution.py:506-581 | When the worker reports success, the run has succeeded and every leg of it is succeeded with progress 100, whatever others did in between |
| `RunWorker.EndedRunsHaveEndedLegs` | quant-worker/backtest/run_execution.py:540-581 | In every interleaving of workers that commit what they computed, a run that has ended has all its legs ended with its own status |
| `RunWorker.ForeignNeverCommits` | quant-worker/backtest/run_execution.py:506-589 | No event by others makes a run count as the worker's committed success |
| `RunWorker.CheckpointCommitsNothing` | quant-worker/backtest/run_execution.py:39-42 | A checkpoint's verdict describes the row it leaves, and never commits |
| `RunWorker.FailureTakesEffectIff` | quant-worker/backtest/run_execution.py:515-589 | A reported failure changes the run exactly when the worker still held it; otherwise the report is `failed` and the run is left alone |
| `RunWorker.OnlyManifestsMeasure` | quant-worker/backtest/run_execution.py:397-416 | Of the artifacts of a leg only the manifest carries metrics, of those of the whole run none |
| `RunWorker.RobustnessIff` | quant-worker/backtest/run_execution.py:452-492 | The robustness report is stored exactly when the portfolio curve was long enough |
| `RunWorker.LegExtras` | quant-worker/backtest/run_execution.py:397-416 | Contributions and cash flow are stored for exactly the legs whose rules have them |
| `RunWorker.AnalyticsIff` | quant-worker/backtest/run_execution.py:215-235 | The analytics and their report are stored exactly when the curve was long enough |
| `RequestProtocol.RequestRepository.RenewLease` | quant-worker/backtest/ingestion_repository.py:90-105 | A lease is renewed exactly while it is held and unexpired |
| `RequestProtocol.RequestRepository.FailExhaustedRequests` | quant-worker/backtest/ingestion_repository.py:107-119 | Exactly the expired requests with three attempts fail, and they are counted |
| `RequestProtocol.RequestRepository.ClaimNextRequest` | quant-worker/backtest/ingestion_repository.py:121-192 | A claim takes the claimable request that became available first, of those the one created first, counts the attempt and hands out its ticket; none exactly when none is claimable |
| `RequestProtocol.RequestRepository.CompleteRequest` | quant-worker/backtest/ingestion_repository.py:204-217 | Completion succeeds exactly with an unexpired lease |
| `RequestProtocol.RequestRepository.RetryOrFailRequest` | quant-worker/backtest/ingestion_repository.py:219-239 | A failed attempt is queued again with its backoff, or fails for good at the third attempt |
| `RequestProtocol.RequestRepository.FailClaimedRequest` | quant-worker/backtest/ingestion_repository.py:241-251 | A request fails exactly if its worker still holds it |
| `RequestProtocol.RequestRepository.RequeueFailedRequests` | quant-worker/backtest/ingestion_repository.py:253-313 | Requeueing takes the latest failed request of each free key, up to the limit, those that failed longest ago first, and nothing else |
| `RequestProtocol.OldestCandidates` | quant-worker/backtest/ingestion_repository.py:300-306 | The selected candidates are the oldest, all of them when they fit the limit |
| `RequestProtocol.RequestRepository.RetireRequests` | quant-worker/verify_market_ingestion.py:128-153 | Retiring fails exactly the queued and running requests concerned and counts them |
| `RequestProtocol.RetiredIsFailed` | quant-worker/sync_provider_instruments.py:404-418 | A retired request is failed whatever its worker does; only a requeue brings it back |
| `RequestProtocol.EventKeepsRows` | quant-worker/backtest/ingestion_repository.py:90-313 | Each event keeps the row bounds (queued with at most 2 attempts, running with 1 to 3), never touches a succeeded row, and reactivates a row only by requeueing it |
| `RequestProtocol.EventKeepsKeys` | quant-worker/backtest/ingestion_repository.py:274-282 | No event produces two queued or running requests for the same organization, user, instrument and timeframe |
| `RequestProtocol.ReachableStores` | quant-worker/backtest/ingestion_repository.py:90-313 | All invariants hold after every interleaving, including the tickets workers act on |
| `RequestProtocol.EpochsAndCompletions` | quant-worker/backtest/ingestion_repository.py:121-313 | The attempt counter counts the claims since the last requeue, at most three; the worker on a row is its latest claimant; a request completes at most once, exactly when it succeeded |
| `RequestProtocol.ClaimGivesLease` | quant-worker/backtest/ingestion_repository.py:121-156 | Until its lease ends, a claimed request can be neither claimed again nor failed as exhausted |
| `RequestProtocol.RetryWaits` | quant-worker/backtest/ingestion_repository.py:219-239 | A failed attempt becomes claimable exactly after its backoff, one minute after the first and two after the second; after the third it is failed for good |
| `RequestProtocol.RequeueStartsOver` | quant-worker/backtest/ingestion_repository.py:307-311 | A requeued request had failed, is claimable at once, and has all three attempts again |
| `RequestProtocol.OnlyTheLatestClaimantCompletes` | quant-worker/backtest/ingestion_repository.py:204-217 | Whoever completes a request is its latest claimant with an unexpired lease |
| `RequestProtocol.SuccessIsFinal` | quant-worker/backtest/ingestion_repository.py:90-313 | A succeeded request is never changed again |
| `RequestProtocol.LifeOfARequest` | quant-worker/backtest/ingestion_repository.py:107-134 | A queued request can be claimed from the time it is available; a running one is its worker's until its lease ends, then it can be claimed with fewer than three attempts and only be failed as exhausted at three; no other can be claimed or exhausted |
| `RequestProtocol.RequeueTakesTheLatest` | quant-worker/backtest/ingestion_repository.py:263-299 | A request is requeued for its key exactly if it failed with the wanted code, the key is eligible and has no active request, and no other such request of the key failed later (or at the same time with a higher id) |
| `RequestProtocol.EachChangeIsDated` | quant-worker/backtest/ingestion_repository.py:90-313 | No call changes a request's key or creation; results change only on completion, availability only on a requeue or to wait for a retry, and every change is dated with its time |
| `RequestProtocol.UpdatesOfTheHolder` | quant-worker/backtest/ingestion_repository.py:90-251 | What renewing, completing and failing leave on the row of the request a worker holds |
| `RequestProtocol.ExhaustionIsExact` | quant-worker/backtest/ingestion_repository.py:107-119 | Exactly the requests at three attempts whose lease has ended are failed, as lost; all others are left alone |
| `IngestionWorker.Queue.ProcessClaimedRequest` | quant-worker/process_ingestion_requests.py:165-230 | The worker's sequence on a claimed request, with others and its own heartbeat acting in between, and every way it can end |
| `IngestionWorker.SuccessNamesItsPublication` | quant-worker/process_ingestion_requests.py:197-204 | In every history a succeeded request names a version that its own worker published in the very claim that completed it |
| `IngestionWorker.WorkerLeaves` | quant-worker/process_ingestion_requests.py:183-230 | A worker publishes at most once for a claim, and completes the request exactly when it published, no heartbeat reported a loss and it still held its lease, with the version it published: a publication remains without a completion exactly when one of these fails after it. Success is reported exactly for a completed request, unless the last heartbeat raised |
| `IngestionWorker.FinishLeaves` | quant-worker/process_ingestion_requests.py:204-230 | A completion that is refused puts the request back or fails it if nobody took it, and leaves it alone if somebody did |
| `IngestionWorker.LossIsNoticed` | quant-worker/process_ingestion_requests.py:79-95 | A loss is noticed exactly when some heartbeat of the worker itself came while it no longer held an unexpired lease |
| `IngestionWorker.FailuresAreHandled` | quant-worker/process_ingestion_requests.py:177-230 | While the worker holds its request, an unapproved provider and invalid data fail it for good, an unavailable provider or any other exception puts it back for one minute, then two, and fails it at the third attempt; a lost heartbeat changes nothing; each report names the cause |
| `Ingestion.MergeSnapshot` | quant-worker/backtest/snapshots.py:30-54 | Filling a dictionary from active then incoming rows and sorting it gives the specified merge, with both error cases |
| `Ingestion.MergeLookup` | quant-worker/backtest/snapshots.py:50-54 | The merge is in time order and holds at each timestamp the last incoming row from the overlap on, else the last active row |
| `Ingestion.SortedRows` | quant-worker/backtest/quality.py:14-32 | Sorting dictionary values gives ordered rows with the same content |
| `Ingestion.SameLookups` | quant-worker/backtest/snapshots.py:50-54 | Ordered rows are determined by what they hold at each timestamp |
| `Ingestion.StoredTwice` | quant-worker/backtest/publication.py:23-38 | Rounding to storage precision is idempotent, so stored rows survive every later merge unchanged |
| `Ingestion.IngestionStore.RunLiveSelection` | quant-worker/backtest/ingestion.py:265-355 | A run ends in exactly one recorded outcome, gives its lock back, and moves the active version only when it publishes, which `PublishedIsAccepted` ties to the quality rules |
| `Ingestion.PublishedIsAccepted` | quant-worker/backtest/publication.py:83-109 | A run publishes if and only if the lock was free, the provider's bars merged, the quality rules accepted the merged rows and the transaction committed; then exactly those rows are active, unchanged if they were before; otherwise the active version stays |
| `Ingestion.ActiveWasAccepted` | quant-worker/backtest/publication.py:83-109 | After any history of runs, the active rows are those it started from or were accepted by the quality rules of one of its attempts |
| `Ingestion.OutcomeTellsWhy` | quant-worker/backtest/ingestion.py:280-355 | A run is skipped exactly when the lock is taken, unavailable exactly when the provider is, with its code, and failed exactly in the remaining cases without a publication; it reports as many rows as were fetched |
| `Ingestion.WindowDays` | quant-worker/backtest/ingestion.py:100-154 | Where a run fetches from: the start of history of its market for a first run, a fixture, or a version starting more than a week late; otherwise the earlier of ten days back and a day before the last stored bar |
| `Ingestion.MixedRowsAreRefused` | quant-worker/backtest/snapshots.py:36-45 | Rows of another asset or timeframe are never merged |
| `Ingestion.UncertifiedRowsGo` | quant-worker/backtest/ingestion.py:145-154 | Vietnamese rows from before the certified calendar do not survive a publishing run unless it fetched them itself |
| `Ingestion.CertifiedRowsStay` | quant-worker/backtest/ingestion.py:145-154 | Certified rows and rows of other markets survive every publishing run, replaced or as they were |
| `Ingestion.WindowReachesBack` | quant-worker/backtest/ingestion.py:119-142 | A window starts at the start of history or no later than the last stored bar |
| `Ingestion.PublishedRun` | quant-worker/backtest/ingestion.py:265-322 | What a publishing run leaves at each timestamp: the provider's closed bar inside the window, else what the base rows held |
| `Ingestion.FirstRun` | quant-worker/backtest/ingestion.py:124-130 | From nothing or from a fixture a publishing run backfills the closed bars from the start of history |
| `Ingestion.RestartRun` | quant-worker/backtest/ingestion.py:119-130 | A publishing run that fetches from the start of history yields the full backfill if and only if no row of the old version stands outside the closed bars of the provider |
| `Ingestion.TruncatedRun` | quant-worker/backtest/ingestion.py:119-130 | A live version that starts more than a week late is repaired by the next publishing run |
| `Ingestion.RunStaysComplete` | quant-worker/backtest/ingestion.py:119-154 | From a complete version a publishing run stays complete if and only if the provider has no closed bar between the window start and the start of history |
| `Ingestion.IncrementalEqualsBackfill` | quant-worker/backtest/ingestion.py:100-154 | From no version, a fixture, a truncated version or a complete one, after any mix of publishing, failed, skipped and rejected runs at non-decreasing times, on every window branch and whatever the provider has before it, the active rows since the start of history are exactly the closed bars up to the last publishing run; they are all rows where no later window can reach behind that start |
| `Ingestion.RunStaysCompleteSince` | quant-worker/backtest/ingestion.py:119-154 | A publishing run keeps a version complete from the start of history on, and what it holds before are bars of the provider |
| `Ingestion.CompleteIffNothingBefore` | quant-worker/backtest/ingestion.py:119-154 | Such a version is the full backfill exactly when it holds nothing before the start of history |
| `Ingestion.EarlyBarComesIn` | quant-worker/backtest/ingestion.py:132-142 | A one-day-old complete crypto version whose next run brings in the bar of the day before the start of history |
| `Ingestion.HoleFilledIff` | quant-worker/backtest/ingestion.py:132-142 | A bar missing from the active version comes back with the next publishing run exactly when the window reaches it |
| `Ingestion.HoleIsForever` | quant-worker/backtest/ingestion.py:119-142 | A hole behind the window of a live version whose certified rows start within a week of the start of history is never filled, however often ingestion runs |
| `Ingestion.StuckVersion` | quant-worker/backtest/ingestion.py:119-142 | Two crypto bars fifty days apart: a version whose hole no run fills |
| `Adjustments.GroupByDate` | quant-worker/backtest/adjustments.py:99-107 | Grouping collects exactly the verified dated actions per ex-date, the ex-dates ascending, and counts the skipped ones |
| `Adjustments.CollectFactors` | quant-worker/backtest/adjustments.py:109-127 | The factor loop yields the factors of the ex-dates with a bar before them, or the first failure |
| `Adjustments.AdjustRow` | quant-worker/backtest/adjustments.py:132-152 | The inner loop multiplies exactly the factors of later ex-dates |
| `Adjustments.AdjustTotalReturnBars` | quant-worker/backtest/adjustments.py:82-158 | The whole adjustment computes its specification with all error cases; of the bars' assets only the first and the last in time order are compared |
| `Adjustments.TotalReturnOfOneAsset` | quant-worker/backtest/adjustments.py:92-104 | For bars of one asset the call is the adjustment of that asset's bars, to which all results below apply |
| `Adjustments.FactorsAreOf` | quant-worker/backtest/adjustments.py:109-127 | Each factor is positive and comes from the last close before its ex-date; every ex-date with a bar before it has one, in ascending order |
| `Adjustments.ProductsSplit` | quant-worker/backtest/adjustments.py:134-139 | The cumulative factor of a bar is that of a later date times the factors in between |
| `Adjustments.AdjustmentKeepsShape` | quant-worker/backtest/adjustments.py:132-152 | Positive prices, the order of open, high, low and close, and non-negative volumes survive adjustment; bars on or after the last ex-date change only their source |
| `Adjustments.PlainReturn` | quant-worker/backtest/adjustments.py:109-152 | With no ex-date between two consecutive bars, the adjusted close-to-close return is the raw one |
| `Adjustments.ExDateReturn` | quant-worker/backtest/adjustments.py:68-152 | Across exactly one ex-date the adjusted return is the close over the theoretical ex-price of the previous close |
| `Adjustments.PriceFactorTimesClose` | quant-worker/backtest/adjustments.py:68-79 | A price factor turns the previous close into the theoretical ex-price |
| `Adjustments.VnDayBegins` | quant-worker/backtest/market_calendar.py:140-144 | Market days in Vietnam begin at five in the afternoon UTC and last a day |
| `Adjustments.WealthIsKept` | quant-worker/backtest/adjustments.py:26-74 | Conservation across an ex-date: the shares held afterwards at the theoretical price, plus the dividend, less the subscription money, are worth the previous close |
| `Adjustments.EachActionAdds` | quant-worker/backtest/adjustments.py:32-67 | What each action adds: a cash dividend its cash, a stock dividend or split its shares, a rights issue its subscribed shares and their price, each scaled |
| `Adjustments.TurnoverIsKept` | quant-worker/backtest/adjustments.py:68-79 | Without dividend and subscription, price and quantity factor multiply to one: turnover is kept |
| `Adjustments.UnverifiedActionsAreSkipped` | quant-worker/backtest/adjustments.py:99-107 | Actions that are unverified or without an ex-date are counted as skipped and change nothing else |
| `AdjustmentAudit.IndependentEventFactors` | quant-worker/backtest/adjustment_audit.py:18-56 | The audit's single pass agrees with the adjuster's separate sums whenever terms are complete, and refuses unverified or incomplete actions |
| `AdjustmentAudit.FaultlessHasTerms` | quant-worker/backtest/adjustment_audit.py:26-50 | An action is without fault exactly if it is verified and has the terms its kind needs |
| `AdjustmentAudit.AuditAdjustedFactors` | quant-worker/backtest/adjustment_audit.py:88-114 | The audit compares an adjusted bar with the raw bar times the product of the factors, within its tolerance |
| `AdjustmentAudit.AuditFactorsAgree` | quant-worker/audit_vn_adjustments.py:105-139 | With complete terms the audit finds the adjuster's factors for every ex-date |
| `AdjustmentAudit.AuditDeltas` | quant-worker/backtest/adjustment_audit.py:88-114 | Before storage, the deltas of the bar before an ex-date are zero exactly when the ex-dates strictly between that bar and the audited one multiply to one |
| `AdjustmentAudit.AuditPassesExactly` | quant-worker/audit_vn_adjustments.py:152-171 | On a published adjustment with complete terms, the audit of an ex-date passes exactly when rounding to eight and four decimals brings close and volume, taken times the factors of earlier ex-dates with the same last prior bar, back to the expected values within the tolerance |
| `AdjustmentAudit.DistinctPriorBarsPass` | quant-worker/audit_vn_adjustments.py:152-171 | When distinct ex-dates have distinct last prior bars, the price delta is at most half a storage unit and always passes, the quantity delta is what storing the volume rounded off, and the audit passes exactly when that is within the tolerance |
| `AdjustmentAudit.AuditHistory` | quant-worker/audit_vn_adjustments.py:141-185 | The report on one symbol: a case per ex-date, blocked without lineage, prior bar or adjusted bar, otherwise the verdict on the stored bars |
| `AdjustmentAudit.HonestReport` | quant-worker/audit_vn_adjustments.py:141-185 | On an honestly published adjustment a case is blocked exactly without a prior bar, and with distinct prior bars it passes exactly when its volume was stored within the tolerance |
| `AdjustmentAudit.GapBounds` | quant-worker/backtest/publication.py:23-38 | Storing changes the distance from the expected value by at most half a unit |
| `AdjustmentAudit.RoundedVolumeFails` | quant-worker/backtest/publication.py:33-37 | Volume 12301 with stock dividends of 0.15, 0.07 and 0.13 on three days: a correct adjustment whose stored volume is 0.000035 off and which the audit fails |
| `AdjustmentAudit.SharedPriorBarFails` | quant-worker/audit_vn_adjustments.py:158-169 | Two dividends after one bar: the audit of the second misses the first, reports a difference of nine tenths and fails |
| `Portfolio.RunPortfolio` | quant-worker/backtest/portfolio.py:147-269 | The ledger loop over all timestamps, legs in symbol order, computes the specified ledger and errs exactly on an invalid plan, unsupported or uncosted markets included, or a sleeve that was not positive |
| `Portfolio.LegOrderIsIrrelevant` | quant-worker/backtest/portfolio.py:156 | With one leg per symbol, the order in which the legs are given changes nothing |
| `Portfolio.MarkLegs` | quant-worker/backtest/portfolio.py:182-192 | Balances follow their sleeves; it fails exactly when a previous value is not positive |
| `Portfolio.AddContribution` | quant-worker/backtest/portfolio.py:194-210 | A contribution is spread by allocation, once per new month |
| `Portfolio.RebalanceLegs` | quant-worker/backtest/portfolio.py:212-248 | A rebalance moves every leg to its target less its cost, clamped at zero, and sums turnover and cost |
| `Portfolio.WholeIsShared` | quant-worker/backtest/portfolio.py:114-135 | The allocations of all legs and cash add up to the whole value |
| `Portfolio.ContributionRaisesEquity` | quant-worker/backtest/portfolio.py:195-210 | A contribution raises equity by exactly its amount |
| `Portfolio.RebalanceLosesItsCost` | quant-worker/backtest/portfolio.py:219-237 | A rebalance lowers equity by at most its reported cost, and by exactly that cost if and only if no leg's cost exceeds its target |
| `Portfolio.EquityBridge` | quant-worker/backtest/portfolio.py:181-268 | Conservation: equity is capital plus contributions plus sleeve gains less rebalance costs plus the costs clamping forgave |
| `Portfolio.UnitsAreFixed` | quant-worker/backtest/portfolio.py:182-192 | Between contributions and rebalances a leg holds a fixed number of units of its sleeve |
| `Portfolio.ChangesCountValues` | quant-worker/backtest/portfolio.py:194-218 | Ordered period keys change one time less than they have values |
| `Portfolio.OncePerPeriod` | quant-worker/backtest/portfolio.py:194-248 | A run contributes once for every month after the first and rebalances once for every period after the first |
| `Portfolio.TimelineIsUnion` | quant-worker/backtest/portfolio.py:162-165 | The timeline ascends and lists exactly the timestamps some sleeve is valued at |
| `Portfolio.MarkAtIsLast` | quant-worker/backtest/portfolio.py:158-161 | A sleeve's value at a time is that of the last point given for it |
| `Portfolio.FailsIff` | quant-worker/backtest/portfolio.py:181-192 | A run fails exactly if some sleeve, after a value that was not positive, is valued once more |
| `Portfolio.PositiveSleevesNeverFail` | quant-worker/backtest/portfolio.py:181-268 | With positive sleeve values the run never fails, no balance is ever negative, the peak bounds every equity and drawdowns are percentages of it |
| `Portfolio.SidesOfATransfer` | quant-worker/backtest/portfolio.py:85-89 | A purchase costs commission and slippage on what is moved, a sale the tax as well |
| `Portfolio.PeriodsAreCalendar` | quant-worker/backtest/portfolio.py:74-82 | Two times share a month, a quarter or a year exactly if their calendar months do |
| `Portfolio.FreeRebalanceHitsTargets` | quant-worker/backtest/portfolio.py:219-237 | Without costs a rebalance puts every leg and the cash exactly on its share of the equity |
| `Portfolio.ContributionIsSpread` | quant-worker/backtest/portfolio.py:195-201 | A contribution reaches every leg and the cash in proportion to their allocations |
| `Portfolio.RefusedIff` | quant-worker/backtest/portfolio.py:107-144 | A plan is refused exactly for the listed reasons |
| `Publication.DatasetStore.PublishWhenChanged` | quant-worker/backtest/publication.py:227-255 | Publishing returns the active version unchanged for equal content, else activates a new version with the next number |
| `Publication.DatasetStore.PruneSuperseded` | quant-worker/dataset_sync/importer.py:269-301 | The prune loop deletes the superseded versions no run refers to and counts pruned and retained ones |
| `Publication.EventKeepsInv` | quant-worker/backtest/publication.py:353-461 | Publishing, stale publishing, adjusted deactivation and raw pruning keep numbers and ids growing and only the last version active |
| `Publication.OneActiveAndHighest` | quant-worker/backtest/publication.py:447-461 | After any history at most one version is active, it has the highest number, and a raw dataset ever published has one |
| `Publication.NumbersAreNeverReused` | quant-worker/backtest/publication.py:356-360 | Version numbers are handed out in strictly growing order across prunes and deactivations, and the highest is always still stored |
| `Publication.VersionsAreImmutable` | quant-worker/backtest/publication.py:373-399 | A stored version never changes its number or its content |
| `Publication.RepublishChangesNothing` | quant-worker/backtest/publication.py:233-245 | Publishing the active content again changes nothing |
| `Publication.PruneIsExact` | quant-worker/dataset_sync/importer.py:269-301 | Pruning deletes exactly the superseded, unreferenced versions, keeps the active one, and counts every superseded version once |
| `Publication.ReachableDatasets` | quant-worker/publish_adjusted_datasets.py:86-102 | The version invariant holds after every history of raw and adjusted datasets |
| `Publication.PublicationAdds` | quant-worker/backtest/publication.py:353-461 | A publication adds one active version with its content and leaves all others inactive; publishing if changed does so exactly when the active content is another |
| `Publication.DeactivationIsComplete` | quant-worker/publish_adjusted_datasets.py:86-102 | Deactivating an adjusted dataset keeps every version, none of them active; raw datasets are never deactivated and adjusted ones never pruned |
| `Csv.ReadRecords` | quant-worker/dataset_sync/codec.py:125-129 | The reader's state machine over the whole text |
| `Csv.RecordsOfLines` | quant-worker/dataset_sync/codec.py:46-49 | Fields written with minimal quoting are read back unchanged, whatever commas, quotes and line breaks they contain, if each is quoted or free of carriage returns |
| `Csv.FeedQuoted` | quant-worker/dataset_sync/codec.py:46-49 | A quoted or plain field is saved unchanged by the comma or line feed that follows it |
| `Csv.UnsafeFieldIsCut` | quant-worker/dataset_sync/codec.py:46-49 | An unquoted carriage return ends its record: the reader gets only the text before it, whatever follows |
| `Csv.LineEnds` | quant-worker/dataset_sync/codec.py:125-129 | Outside quotes a carriage return ends a line, a line feed right behind it belongs to it, another carriage return makes a blank line |
| `Csv.QuotingIsMinimal` | quant-worker/dataset_sync/codec.py:46-49 | Exactly the fields with a comma, a quote, a line feed or, where the writer does so, a carriage return are quoted; all others are written as they are |
| `Codec.TimestampsAreIso` | quant-worker/dataset_sync/codec.py:34-37 | A printed timestamp holds year, month, day, hour, minute, second and thousandths in this order, with the separators of section 5.6 of RFC 3339 |
| `Codec.OrdinalIsChronological` | quant-worker/dataset_sync/codec.py:133-134 | Moments are ordered by the first calendar part in which they differ |
| `Codec.TimestampRoundTrip` | quant-worker/dataset_sync/codec.py:34-97 | Every printed timestamp parses back to itself |
| `Codec.DecimalRoundTrip` | quant-worker/dataset_sync/codec.py:40-109 | Every printed decimal parses back to the value rounded half-even to the printed scale |
| `Codec.DecimalForm` | quant-worker/dataset_sync/codec.py:40-43 | A printed decimal is its size, rounded to the scale, as digits with exactly that many behind the point, after a minus sign exactly for numbers below zero |
| `Codec.ValueConcat` | quant-worker/dataset_sync/codec.py:40-43 | Reading concatenated digits is positional |
| `Package.EncodeDataset` | quant-worker/dataset_sync/codec.py:52-87 | The encoder writes the normalized rows line by line and errs exactly as the source does |
| `Package.WritePackage` | quant-worker/dataset_sync/codec.py:64-79 | The text written line by line is the header and the fields of the rows |
| `Package.DecodeDataset` | quant-worker/dataset_sync/codec.py:112-168 | The decoder streams the records with all its checks, the first error winning |
| `Package.NormalizedSorts` | quant-worker/dataset_sync/codec.py:53 | Normalizing sorts the rows by time and keeps all of them |
| `Package.DecodeFields` | quant-worker/dataset_sync/codec.py:132-158 | Decoding the fields of a row gives the row as printed, if it passes the checks |
| `Package.DecodeRows` | quant-worker/dataset_sync/codec.py:129-159 | Safely written rows decode to themselves exactly when they are faithful and their timestamps grow |
| `Package.ColumnsMatchHeader` | quant-worker/dataset_sync/codec.py:65-79 | Under each header stands the value it names: moment, open, high, low and close rounded to eight decimals, volume to four or empty, source |
| `Package.SensibleIff` | quant-worker/dataset_sync/codec.py:140-145 | A row passes the checks exactly if it has a source, no negative volume, and open and close between low and high |
| `Package.StripTrims` | quant-worker/dataset_sync/codec.py:140 | Stripping removes white space at both ends, nothing else, and leaves none there |
| `Package.EncoderRefuses` | quant-worker/dataset_sync/codec.py:53-61 | The encoder refuses exactly empty input, more than 250000 rows, other than daily rows and several assets, in this order |
| `Package.AcceptedPackagesMatch` | quant-worker/dataset_sync/codec.py:112-168 | A package is accepted only if its text, row count, coverage, symbol and rows are those of its manifest; its rows strictly grow in time, are no more than allowed, and have consistent prices, a source and no negative volume |
| `Package.UnsafeSourceFails` | quant-worker/dataset_sync/codec.py:125-159 | A source with an unquoted carriage return never decodes back |
| `Package.RoundTripIff` | quant-worker/dataset_sync/codec.py:52-168 | One asset's daily bars encode; decoding the package against its own digest returns exactly the normalized rows if and only if prices have at most eight decimals, volumes are absent or non-negative with at most four, sources are trimmed, non-empty and survive quoting, open, high, low and close are valid, and timestamps strictly grow |
| `Opinion.DecisionLedger` | quant-worker/smart_insights/asset_opinion_quant.py:413-523 | The facts are filtered, ranked and cut, the ledger loop builds the pillars in configured order with their inputs, and the inputs are sorted; it is refused exactly when a value contract refuses one |
| `Opinion.CandidatesAreScored` | quant-worker/smart_insights/asset_opinion_quant.py:417-435 | Every candidate is a recent fact with a rule and a score, and the overall regime score takes part only when no detailed macro fact does |
| `Opinion.RegimeYields` | quant-worker/smart_insights/asset_opinion_quant.py:427-435 | The overall regime takes part exactly when no other metric named macro does, and every other candidate stays |
| `Opinion.MacroIsStrongest` | quant-worker/smart_insights/asset_opinion_quant.py:437-450 | Of the macro candidates only the strongest take part, at most two, ties by metric and id; all other candidates do |
| `Opinion.SelectionIsStrongest` | quant-worker/smart_insights/asset_opinion_quant.py:452-461 | The ledger gets the best ranked candidates, at most twelve |
| `Opinion.MacroByStrength` | quant-worker/smart_insights/asset_opinion_quant.py:437-444 | A macro candidate that takes part moves the score at least as much as any that does not; ties go to the lexicographically first metric, then id |
| `Opinion.SelectedByStrength` | quant-worker/smart_insights/asset_opinion_quant.py:452-461 | A selected candidate has a pillar of at least the weight of any left out, among equals at least its input weight, among equals at least its size of score |
| `Opinion.AllPlacesAreTaken` | quant-worker/smart_insights/asset_opinion_quant.py:437-461 | As many take part as are allowed: all up to two macro candidates, all up to twelve in all |
| `Opinion.InputsAreRanked` | quant-worker/smart_insights/asset_opinion_quant.py:522-523 | The final inputs are exactly those of the pillars, the strongest contribution first |
| `Opinion.LedgerIgnoresFactOrder` | quant-worker/smart_insights/asset_opinion_quant.py:413-523 | With one fact per id, the order in which facts were collected changes nothing in the ledger |
| `Opinion.RefusedIffOverweight` | quant-worker/smart_insights/asset_opinion_quant.py:463-523 | For facts and weights within their own contracts the ledger is refused if and only if the selected inputs of some configured pillar weigh more than one together |
| `Opinion.TwoForeignFlowsAreRefused` | quant-worker/smart_insights/asset_opinion_rules.py:151-155 | Two foreign flow facts, each of weight one in their pillar, are refused |
| `Opinion.PillarAgreesWithInputs` | quant-worker/smart_insights/asset_opinion_quant.py:469-504 | For a pillar of weight w with n inputs and available weight a, its contribution differs from the sum of its inputs' by at most 0.005 w + n (0.00005 + 0.00005 w / a) |
| `Opinion.PillarIsAverage` | quant-worker/smart_insights/asset_opinion_quant.py:469-478 | A pillar's score lies between the lowest and the highest of its inputs, and its contribution has the sign of its score |
| `Opinion.InputHasSignOfScore` | quant-worker/smart_insights/asset_opinion_quant.py:500-504 | The contribution of an input has the sign of its score |
| `Opinion.ScoreIsWeightedMean` | quant-worker/smart_insights/asset_opinion_quant.py:665-669 | The score is within its rounding of total contribution over covered weight |
| `Opinion.OnePillarDecides` | quant-worker/smart_insights/asset_opinion_quant.py:665-669 | With a single pillar the score of the opinion is the score of that pillar |
| `Opinion.ContributionIsExact` | quant-worker/smart_insights/asset_opinion_quant.py:472-478 | With a weight of whole hundredths the pillar contribution is its score times its weight, unrounded |
| `Opinion.InputsRounding` | quant-worker/smart_insights/asset_opinion_quant.py:500-504 | The summed input contributions are within n input errors of the unrounded share |
| `Opinion.ScoreInRange` | quant-worker/smart_insights/asset_opinion_quant.py:665-669 | When the value contracts accept the inputs, the quant score stays within -100 and 100 |
| `Opinion.EvidenceIsSeparated` | quant-worker/smart_insights/asset_opinion_quant.py:677-693 | Supporting and contradicting ids are disjoint, few, and come from the decision inputs; before they are cut, every input that moves the score is in exactly one of the two |
| `Opinion.EvidenceHasItsSign` | quant-worker/smart_insights/asset_opinion_quant.py:677-693 | Supporting facts are not flagged and push the score its own way; contradicting ones are flagged or push against it |
| `Storage.ObjectStore.Upload` | quant-worker/dataset_sync/storage.py:81-123 | Head, put and verify: an existing object is never changed, and a mismatch is refused |
| `Storage.ObjectStore.UploadBatch` | quant-worker/dataset_sync/storage.py:125-154 | A batch upload never changes an existing object, succeeds exactly when every item ends up stored, and makes its manifest appear only after all packages |
| `Storage.ManifestIsLast` | quant-worker/dataset_sync/storage.py:81-154 | Under any interleaving, failure and restart of uploaders whose packages agree, a visible manifest implies that every package it names is stored with its length and digest |
| `Storage.StepKeepsInv` | quant-worker/dataset_sync/storage.py:81-154 | Each step, failed put or restart of one uploader keeps every manifest safe and every uploader's progress true |
| `Storage.VisibleBatchDownloads` | quant-worker/dataset_sync/storage.py:162-190 | A reader that sees the manifest can download every package with a matching digest |
| `Storage.ConflictBreaksManifest` | quant-worker/dataset_sync/storage.py:84-102 | Conversely, whenever an item of one batch does not match a package of another under the same key, some interleaving from an empty store leaves a visible manifest whose package was overwritten |
| `Storage.FailedPutMayLand` | quant-worker/dataset_sync/storage.py:81-123 | A put that raises stops its uploader, and its object, the manifest included, may have landed or not |
| `Storage.PackageIsNoManifest` | quant-worker/dataset_sync/storage.py:192-210 | Packages are not marked complete, so no object but a manifest is ever read as one, whatever uploaders do |
| `Exporter.KeyHoldsChecksum` | quant-worker/dataset_sync/exporter.py:188-191 | A package key determines the checksum of the content it was made for |
| `Exporter.ExportsAgree` | quant-worker/dataset_sync/exporter.py:150-224 | Any number of uploaders of any exported batches agree: equal package keys mean equal packages, batches with one manifest key name the same packages, and no manifest key is a package key |
| `Exporter.RetriesCarryOneManifest` | quant-worker/dataset_sync/exporter.py:225-234 | Uploaders of one run of the exporter, retries included, also carry the same manifest |
| `Exporter.ExportedBatchesAreComplete` | quant-worker/dataset_sync/storage.py:81-190 | Whatever exporters upload, fail, restart and interleave from an empty store, a visible manifest implies that every package it names is stored exactly and downloads verified |
| `Exporter.ExportedBarsArrive` | quant-worker/dataset_sync/exporter.py:162-241 | From bars to bars: once the manifest is visible, downloading and decoding a package gives exactly the exported bars in time order if and only if they are what the codec can carry |
| `Exporter.DownloadIsVerified` | quant-worker/dataset_sync/storage.py:162-190 | A download gives the stored text exactly if its length and its digest, recorded and computed, are the listed ones |
| `Exporter.ReaderGetsTheBatch` | quant-worker/dataset_sync/storage.py:192-227 | A reader gets a manifest exactly when some uploader put it and its size is allowed; it then lists exactly the packages of the batch, and each of them downloads verified |
| `Prelude.NearestError` | quant-worker/smart_insights/asset_opinion_quant.py:472-504 | Fixed-point rounding moves a number by at most half a unit |
| `Prelude.NearestIsExact` | quant-worker/dataset_sync/codec.py:40-43 | Fixed-point rounding keeps exactly the multiples of its unit |
| `Prelude.TiesRound` | quant-worker/backtest/optimizer.py:173-177 | Ties: rounding to an integer goes to the even neighbour, storage rounding away from zero |
| `Prelude.DrawdownIsLoss` | quant-worker/backtest/engine.py:251 | A drawdown is the percentage of the peak that is missing |

## Left out

- Rounding inside 36-digit decimal contexts, `_number` output rounding and `float` or JSON storage of state: values are exact reals.
- The talipp-based strategies (EMA, RSI, Bollinger, MACD, ATR): talipp is not part of this model, and two of them read prepared series to their end; a strategy outside the catalog enters only as an arbitrary function.
- Estimators, metrics and charts (skfolio, quantstats, pandas factors, Kronos, news and OCR heuristics): numerics of other libraries.
- SQL text, connections, retries of the database client, HTTP, S3 and vendor APIs: a provider is a series, a table a map, a bucket a map of objects.
- Quality validation of bars, calendars, holidays and time zones: a quality verdict is a parameter of an ingestion run, dates are functions of timestamps.
- gzip, SHA-256 and UTF-8: a package is its text, and a digest is what it summarises.
- The backlog loop of the ingestion request worker and the wall-clock race inside one transaction: heartbeats are steps like any other.
- Argument parsing, environment loading, logging and JSON emission: no state.
- Fact scores, stances, actions and invalidation conditions of an opinion: tables of thresholds without state.
- Codec.TimestampRoundTrip: the parser accepts only the printed form of a timestamp, because other ISO 8601 spellings that Python reads are never written.
- Codec.DecimalRoundTrip: the parser accepts signs, digits and one point, because exponents, underscores and spaces are never written.
- Package.DecodeDataset: the compressed length and a broken gzip stream are one mismatch of the package text, and spellings of numbers and timestamps the encoder never writes are refused, because packages come from the encoder.
- Package.RoundTripIff: timestamps carry milliseconds, because stored bars do; microseconds of an in-memory bar are not modelled.
- Opinion.ScoreInRange: the gates other than a positive coverage are not modelled, because they only decide whether a score is published.
- Forward.Assignment.Evaluate: the claim and lease of an evaluation job are not modelled, because they repeat the pattern of the run queue and do not guard the completion.
- The text of an export's manifest and the safe form of a symbol are opaque functions, and exports refused before their upload are not modelled: no result about uploads depends on them.
- RequestProtocol.RequestRepository.ClaimNextRequest: ties in availability and creation time are broken arbitrarily, and rows locked by another transaction count as taken, because the database decides both.
