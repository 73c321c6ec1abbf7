/** Incremental ingestion of daily bars (quant-worker/backtest/ingestion.py, snapshots.py and the
    provider rule that only closed bars are delivered). Timestamps are UTC seconds. */
module Ingestion {
  import opened Prelude
  import opened Market

  const DAY := 86400
  /** 20 August 2018, midnight UTC: the first certified day of the HOSE calendar. */
  const VERIFIED_FROM := 1534723200
  const VN_OFFSET := 25200

  datatype Row = Row(asset: string, timeframe: string, bar: Bar) {
    function Ts(): int { bar.ts }
  }

  predicate HasFixtureRow(rows: seq<Row>) {
    exists i | 0 <= i < |rows| :: rows[i].bar.source == "research_fixture"
  }

  /** The active dataset version; `fixtureMode` is its metadata flag. */
  datatype Snapshot = Snapshot(fixtureMode: bool, rows: seq<Row>) {
    predicate IsFixture() {
      fixtureMode || HasFixtureRow(rows)
    }
  }

  datatype Window = Window(fetchStart: int, fetchEnd: int, overlapStart: int)

  datatype MergeError = NoIncoming | MixedSeries

  // ---------------------------------------------------------------- rows by timestamp

  predicate InOrder(rows: seq<Row>) {
    forall i, j | 0 <= i < j < |rows| :: rows[i].Ts() < rows[j].Ts()
  }

  /** The last row with timestamp `t`. */
  function Latest(rows: seq<Row>, t: int): (r: Option<Row>)
    ensures r.Some? ==> r.value in rows && r.value.Ts() == t
    ensures r.None? ==> forall row :: row in rows ==> row.Ts() != t
  {
    if rows == [] then None
    else if rows[|rows| - 1].Ts() == t then Some(rows[|rows| - 1])
    else
      assert rows == rows[..|rows| - 1] + [rows[|rows| - 1]];
      Latest(rows[..|rows| - 1], t)
  }

  lemma LatestSnoc(rows: seq<Row>, row: Row, t: int)
    ensures Latest(rows + [row], t) == if row.Ts() == t then Some(row) else Latest(rows, t)
  {
    assert (rows + [row])[..|rows|] == rows;
  }

  lemma LookupOrdered(rows: seq<Row>, t: int)
    requires InOrder(rows) && Latest(rows, t).Some?
    ensures rows != [] && rows[0].Ts() <= t <= rows[|rows| - 1].Ts()
  {
  }

  lemma LatestInit(rows: seq<Row>, t: int)
    requires InOrder(rows) && rows != []
    ensures Latest(rows[..|rows| - 1], t) == if t == rows[|rows| - 1].Ts() then None else Latest(rows, t)
  {
  }

  lemma SameLast(a: seq<Row>, b: seq<Row>)
    requires InOrder(a) && InOrder(b) && a != []
    requires forall t :: Latest(a, t) == Latest(b, t)
    ensures b != [] && a[|a| - 1] == b[|b| - 1]
  {
    var last := a[|a| - 1];
    assert Latest(a, last.Ts()) == Some(last);
    LookupOrdered(b, last.Ts());
    var other := b[|b| - 1];
    assert Latest(b, other.Ts()) == Some(other);
    LookupOrdered(a, other.Ts());
  }

  /** Ordered rows are determined by what they hold at each timestamp. */
  lemma {:induction false} SameLookups(a: seq<Row>, b: seq<Row>)
    requires InOrder(a) && InOrder(b)
    requires forall t :: Latest(a, t) == Latest(b, t)
    ensures a == b
  {
    if a == [] {
      if b != [] {
        SameLast(b, a);
      }
    } else {
      SameLast(a, b);
      var (restA, restB) := (a[..|a| - 1], b[..|b| - 1]);
      forall t
        ensures Latest(restA, t) == Latest(restB, t)
      {
        LatestInit(a, t);
        LatestInit(b, t);
      }
      SameLookups(restA, restB);
      assert a == restA + [a[|a| - 1]] && b == restB + [b[|b| - 1]];
    }
  }

  // ---------------------------------------------------------------- windows and filters

  function InitialStart(market: Option<Venue>, now: int): int {
    match market
    case Some(CryptoSpot) => 1483228800
    case Some(VnEquity) => VERIFIED_FROM
    case Some(MetalSpot) => 928368000
    case None => now - 3653 * DAY
  }

  predicate Truncated(rows: seq<Row>, start: int) {
    |rows| > 1 && rows[0].Ts() > start + 7 * DAY
  }

  function IngestionWindow(now: int, active: Option<Snapshot>, market: Option<Venue>): Window {
    var start := InitialStart(market, now);
    if active.None? || active.value.IsFixture() || Truncated(active.value.rows, start) then Window(start, now, start)
    else
      var rows := active.value.rows;
      var overlap := now - 10 * DAY;
      var fetch := if rows == [] || overlap <= rows[|rows| - 1].Ts() - DAY then overlap else rows[|rows| - 1].Ts() - DAY;
      Window(fetch, now, fetch)
  }

  /** Whether the row's date on its market is certified. */
  predicate CertifiedAt(t: int, market: Option<Venue>) {
    market == Some(VnEquity) ==> (t + VN_OFFSET) / DAY >= VERIFIED_FROM / DAY
  }

  /** The timestamps a filter lets through. */
  datatype Range = Certified(market: Option<Venue>) | Closed(from: int, now: int) | From(start: int) {
    predicate Has(t: int) {
      match this
      case Certified(market) => CertifiedAt(t, market)
      case Closed(from, now) => from <= t && t + DAY <= now
      case From(start) => start <= t
    }
  }

  function Keep(rows: seq<Row>, wanted: Range): (r: seq<Row>)
    ensures forall row :: row in r ==> row in rows && wanted.Has(row.Ts())
  {
    if rows == [] then []
    else
      assert rows == rows[..|rows| - 1] + [rows[|rows| - 1]];
      var kept := Keep(rows[..|rows| - 1], wanted);
      if wanted.Has(rows[|rows| - 1].Ts()) then kept + [rows[|rows| - 1]] else kept
  }

  lemma {:induction false} KeepLookup(rows: seq<Row>, wanted: Range, t: int)
    ensures Latest(Keep(rows, wanted), t) == if wanted.Has(t) then Latest(rows, t) else None
  {
    if rows != [] {
      KeepLookup(rows[..|rows| - 1], wanted, t);
      LatestSnoc(Keep(rows[..|rows| - 1], wanted), rows[|rows| - 1], t);
    }
  }

  lemma {:induction false} KeepOrdered(rows: seq<Row>, wanted: Range)
    requires InOrder(rows)
    ensures InOrder(Keep(rows, wanted))
  {
    if rows != [] {
      var (init, last) := (rows[..|rows| - 1], rows[|rows| - 1]);
      KeepOrdered(init, wanted);
      assert forall row :: row in Keep(init, wanted) ==> row in init && row.Ts() < last.Ts();
    }
  }

  function CertifiedRows(rows: seq<Row>, market: Option<Venue>): seq<Row> {
    Keep(rows, Certified(market))
  }

  /** What an honest provider delivers: the closed bars of its series from `from` on. */
  function ClosedBars(series: seq<Row>, from: int, now: int): seq<Row> {
    Keep(series, Closed(from, now))
  }

  // ---------------------------------------------------------------- merging

  /** Inserts a row, or replaces the row with its timestamp. */
  function Put(rows: seq<Row>, row: Row): seq<Row> {
    if rows == [] || rows[|rows| - 1].Ts() < row.Ts() then rows + [row]
    else if rows[|rows| - 1].Ts() == row.Ts() then rows[..|rows| - 1] + [row]
    else Put(rows[..|rows| - 1], row) + [rows[|rows| - 1]]
  }

  lemma {:induction false} PutLookup(rows: seq<Row>, row: Row, t: int)
    requires InOrder(rows)
    ensures Latest(Put(rows, row), t) == if t == row.Ts() then Some(row) else Latest(rows, t)
  {
    if rows == [] || rows[|rows| - 1].Ts() < row.Ts() {
      LatestSnoc(rows, row, t);
    } else {
      var (init, last) := (rows[..|rows| - 1], rows[|rows| - 1]);
      LatestSnoc(init, row, t);
      PutLookup(init, row, t);
      LatestSnoc(Put(init, row), last, t);
    }
  }

  lemma {:induction false} PutOrdered(rows: seq<Row>, row: Row)
    requires InOrder(rows)
    ensures InOrder(Put(rows, row))
    ensures forall other :: other in Put(rows, row) ==> other in rows || other == row
  {
    if rows != [] && rows[|rows| - 1].Ts() >= row.Ts() {
      var (init, last) := (rows[..|rows| - 1], rows[|rows| - 1]);
      assert forall other :: other in init ==> other.Ts() < last.Ts();
      PutOrdered(init, row);
    }
  }

  function PutAll(base: seq<Row>, rows: seq<Row>): seq<Row> {
    if rows == [] then base else Put(PutAll(base, rows[..|rows| - 1]), rows[|rows| - 1])
  }

  lemma {:induction false} PutAllLookup(base: seq<Row>, rows: seq<Row>, t: int)
    requires InOrder(base)
    ensures InOrder(PutAll(base, rows))
    ensures Latest(PutAll(base, rows), t) == if Latest(rows, t).Some? then Latest(rows, t) else Latest(base, t)
  {
    if rows != [] {
      var (init, last) := (rows[..|rows| - 1], rows[|rows| - 1]);
      PutAllLookup(base, init, t);
      PutLookup(PutAll(base, init), last, t);
      PutOrdered(PutAll(base, init), last);
    }
  }

  /** The active rows overlaid with the incoming rows from `overlapStart` on, in time order. */
  function Merge(active: seq<Row>, incoming: seq<Row>, overlapStart: int): seq<Row> {
    PutAll(PutAll([], active), Keep(incoming, From(overlapStart)))
  }

  function Overlay(active: seq<Row>, incoming: seq<Row>, overlapStart: int, t: int): Option<Row> {
    if t >= overlapStart && Latest(incoming, t).Some? then Latest(incoming, t) else Latest(active, t)
  }

  lemma MergeLookup(active: seq<Row>, incoming: seq<Row>, overlapStart: int, t: int)
    ensures InOrder(Merge(active, incoming, overlapStart))
    ensures Latest(Merge(active, incoming, overlapStart), t) == Overlay(active, incoming, overlapStart, t)
  {
    PutAllLookup([], active, t);
    PutAllLookup(PutAll([], active), Keep(incoming, From(overlapStart)), t);
    KeepLookup(incoming, From(overlapStart), t);
  }

  predicate OneSeries(active: seq<Row>, incoming: seq<Row>)
    requires incoming != []
  {
    forall row | row in active + incoming :: row.asset == incoming[0].asset && row.timeframe == incoming[0].timeframe
  }

  function MergeResult(active: seq<Row>, incoming: seq<Row>, overlapStart: int): Result<seq<Row>, MergeError> {
    if incoming == [] then Err(NoIncoming)
    else if !OneSeries(active, incoming) then Err(MixedSeries)
    else Ok(Merge(active, incoming, overlapStart))
  }

  function At(rows: map<int, Row>, t: int): Option<Row> {
    if t in rows then Some(rows[t]) else None
  }

  /** The values of a dictionary, listed in insertion order by `keys`, sorted by timestamp. */
  method SortedRows(keys: seq<int>, rows: map<int, Row>) returns (r: seq<Row>)
    requires forall t :: t in rows <==> t in keys
    requires forall t :: t in rows ==> rows[t].Ts() == t
    ensures InOrder(r) && forall t :: Latest(r, t) == At(rows, t)
  {
    r := [];
    for i := 0 to |keys|
      invariant InOrder(r)
      invariant forall t :: Latest(r, t) == if t in keys[..i] then At(rows, t) else None
    {
      ghost var before := r;
      var key := keys[i];
      assert key in keys;
      PutOrdered(r, rows[key]);
      r := Put(r, rows[key]);
      forall t
        ensures Latest(r, t) == if t in keys[..i + 1] then At(rows, t) else None
      {
        assert keys[..i + 1] == keys[..i] + [keys[i]];
        assert t in keys[..i + 1] <==> t in keys[..i] || t == key;
        PutLookup(before, rows[key], t);
      }
    }
  }

  method MergeSnapshot(active: seq<Row>, incoming: seq<Row>, overlapStart: int) returns (r: Result<seq<Row>, MergeError>)
    ensures r == MergeResult(active, incoming, overlapStart)
  {
    if incoming == [] {
      return Err(NoIncoming);
    }
    if !OneSeries(active, incoming) {
      return Err(MixedSeries);
    }
    var merged: map<int, Row> := map[];
    var keys: seq<int> := [];
    for i := 0 to |active|
      invariant forall t :: t in merged <==> t in keys
      invariant forall t :: t in merged ==> merged[t].Ts() == t
      invariant forall t :: At(merged, t) == Latest(active[..i], t)
    {
      ghost var before := merged;
      keys := if active[i].Ts() in merged then keys else keys + [active[i].Ts()];
      merged := merged[active[i].Ts() := active[i]];
      forall t
        ensures At(merged, t) == Latest(active[..i + 1], t)
      {
        TakeOne(active, i, t);
        assert At(before, t) == Latest(active[..i], t);
      }
    }
    assert active[..|active|] == active;
    for i := 0 to |incoming|
      invariant forall t :: t in merged <==> t in keys
      invariant forall t :: t in merged ==> merged[t].Ts() == t
      invariant forall t :: At(merged, t) == Overlay(active, incoming[..i], overlapStart, t)
    {
      ghost var before := merged;
      if incoming[i].Ts() >= overlapStart {
        keys := if incoming[i].Ts() in merged then keys else keys + [incoming[i].Ts()];
        merged := merged[incoming[i].Ts() := incoming[i]];
      }
      forall t
        ensures At(merged, t) == Overlay(active, incoming[..i + 1], overlapStart, t)
      {
        TakeOne(incoming, i, t);
        assert At(before, t) == Overlay(active, incoming[..i], overlapStart, t);
      }
    }
    assert incoming[..|incoming|] == incoming;
    var sorted := SortedRows(keys, merged);
    forall t {
      MergeLookup(active, incoming, overlapStart, t);
    }
    SameLookups(sorted, Merge(active, incoming, overlapStart));
    r := Ok(sorted);
  }

  lemma TakeOne(rows: seq<Row>, i: nat, t: int)
    requires i < |rows|
    ensures Latest(rows[..i + 1], t) == if rows[i].Ts() == t then Some(rows[i]) else Latest(rows[..i], t)
  {
    assert rows[..i + 1] == rows[..i] + [rows[i]];
    LatestSnoc(rows[..i], rows[i], t);
  }

  // ---------------------------------------------------------------- storage precision

  function Stored(row: Row): Row {
    row.(bar := StoredBar(row.bar))
  }

  lemma StoredTwice(row: Row)
    ensures Stored(Stored(row)) == Stored(row)
  {
    hide StoredBar;
    StoredBarTwice(row.bar);
  }

  function StoredRows(rows: seq<Row>): (r: seq<Row>)
    ensures |r| == |rows| && forall i :: 0 <= i < |r| ==> r[i] == Stored(rows[i])
  {
    seq(|rows|, i requires 0 <= i < |rows| => Stored(rows[i]))
  }

  function StoredAt(row: Option<Row>): Option<Row> {
    if row.None? then None else Some(Stored(row.value))
  }

  lemma SomeStored(row: Option<Row>)
    ensures StoredAt(row).Some? <==> row.Some?
  {
  }

  lemma {:induction false} StoredLookup(rows: seq<Row>, t: int)
    ensures Latest(StoredRows(rows), t) == StoredAt(Latest(rows, t))
  {
    hide Stored;
    if rows != [] {
      StoredKeepsTime(rows[|rows| - 1]);
      StoredLookup(rows[..|rows| - 1], t);
      assert StoredRows(rows)[..|rows| - 1] == StoredRows(rows[..|rows| - 1]);
    }
  }

  lemma StoredKeepsTime(row: Row)
    ensures Stored(row).Ts() == row.Ts() && Stored(row).bar.source == row.bar.source
    ensures Stored(row).asset == row.asset && Stored(row).timeframe == row.timeframe
  {
  }

  lemma StoredOrdered(rows: seq<Row>)
    requires InOrder(rows)
    ensures InOrder(StoredRows(rows))
  {
    hide Stored;
    forall i | 0 <= i < |rows|
      ensures StoredRows(rows)[i].Ts() == rows[i].Ts()
    {
      StoredKeepsTime(rows[i]);
    }
  }

  // ---------------------------------------------------------------- one ingestion run

  datatype Answer = Bars(rows: seq<Row>) | Unavailable(code: string) | Broken

  datatype RunStatus = Succeeded | Unchanged | Skipped | Failed | ProviderDown

  datatype Outcome = Outcome(status: RunStatus, fetched: nat, errorCode: Option<string>)

  /** One run: whether another worker holds the lock, what the provider answers to a window, what
      the quality rules accept, and whether the database transaction commits. */
  datatype Attempt = Attempt(now: int, busy: bool, provider: Window -> Answer, quality: seq<Row> -> bool, commits: bool)

  function Failure(fetched: nat): Outcome {
    Outcome(Failed, fetched, Some("ingestion_failed"))
  }

  /** The rows of the active version an incremental run starts from. */
  function BaseRows(active: Option<Snapshot>, market: Option<Venue>): seq<Row> {
    if active.None? || active.value.IsFixture() then [] else CertifiedRows(active.value.rows, market)
  }

  /** The active version and the outcome of a run. */
  function Run(active: Option<Snapshot>, market: Option<Venue>, a: Attempt): (Option<Snapshot>, Outcome) {
    if a.busy then (active, Outcome(Skipped, 0, None))
    else
      var window := IngestionWindow(a.now, active, market);
      match a.provider(window)
      case Unavailable(code) => (active, Outcome(ProviderDown, 0, Some(code)))
      case Broken => (active, Failure(0))
      case Bars(incoming) =>
        var merged := MergeResult(BaseRows(active, market), incoming, window.overlapStart);
        if merged.Err? then (active, Failure(|incoming|))
        else
          var rows := StoredRows(merged.value);
          if !a.quality(rows) || !a.commits then (active, Failure(|incoming|))
          else if active.Some? && active.value.rows == rows then (active, Outcome(Unchanged, |incoming|, None))
          else (Some(Snapshot(false, rows)), Outcome(Succeeded, |incoming|, None))
  }

  predicate Published(outcome: Outcome) {
    outcome.status.Succeeded? || outcome.status.Unchanged?
  }

  /** The worker side of one selection: the lock, the run log and the active version. */
  class IngestionStore {
    var locked: bool
    var runs: seq<Outcome>
    var active: Option<Snapshot>

    /** Every started run ends in exactly one recorded outcome and gives the lock back; the active
        version moves only when the run publishes. */
    method RunLiveSelection(market: Option<Venue>, now: int, provider: Window -> Answer, quality: seq<Row> -> bool, commits: bool)
      returns (outcome: Outcome)
      modifies this
      ensures var a := Attempt(now, old(locked), provider, quality, commits);
        (active, outcome) == Run(old(active), market, a)
      ensures locked == old(locked) && runs == old(runs) + [outcome]
      ensures !Published(outcome) ==> active == old(active)
    {
      if locked {
        outcome := Outcome(Skipped, 0, None);
        runs := runs + [outcome];
        return;
      }
      locked := true;
      var window := IngestionWindow(now, active, market);
      var answer := provider(window);
      match answer {
        case Unavailable(code) =>
          outcome := Outcome(ProviderDown, 0, Some(code));
        case Broken =>
          outcome := Failure(0);
        case Bars(incoming) =>
          var merged := MergeSnapshot(BaseRows(active, market), incoming, window.overlapStart);
          if merged.Err? {
            outcome := Failure(|incoming|);
          } else {
            var rows := StoredRows(merged.value);
            if !quality(rows) || !commits {
              outcome := Failure(|incoming|);
            } else if active.Some? && active.value.rows == rows {
              outcome := Outcome(Unchanged, |incoming|, None);
            } else {
              active := Some(Snapshot(false, rows));
              outcome := Outcome(Succeeded, |incoming|, None);
            }
          }
      }
      runs := runs + [outcome];
      locked := false;
    }
  }

  // ---------------------------------------------------------------- what gets published

  /** What the run would publish: the provider's bars since the overlap over the base rows, as stored. */
  function Prepared(active: Option<Snapshot>, market: Option<Venue>, a: Attempt): Option<seq<Row>> {
    var window := IngestionWindow(a.now, active, market);
    match a.provider(window)
    case Bars(incoming) =>
      var merged := MergeResult(BaseRows(active, market), incoming, window.overlapStart);
      if merged.Ok? then Some(StoredRows(merged.value)) else None
    case _ => None
  }

  /** A run publishes exactly if it got the lock, the provider delivered rows that merge, the quality
      rules accepted the merged rows and the transaction committed; and then those rows are active,
      in a new version unless the active one holds them already. */
  lemma PublishedIsAccepted(active: Option<Snapshot>, market: Option<Venue>, a: Attempt)
    ensures Published(Run(active, market, a).1) <==>
        && !a.busy && a.commits && Prepared(active, market, a).Some? && a.quality(Prepared(active, market, a).value)
    ensures Published(Run(active, market, a).1) ==>
        && Run(active, market, a).0.Some? && Run(active, market, a).0.value.rows == Prepared(active, market, a).value
        && a.quality(Run(active, market, a).0.value.rows)
        && (Run(active, market, a).1.status.Unchanged? <==> active.Some? && active.value.rows == Prepared(active, market, a).value)
        && (Run(active, market, a).1.status.Succeeded? ==> !Run(active, market, a).0.value.fixtureMode)
    ensures !Published(Run(active, market, a).1) ==> Run(active, market, a).0 == active
  {
    hide IngestionWindow, MergeResult, BaseRows, StoredRows;
  }

  /** Why a run did not publish, and what it reports. */
  lemma OutcomeTellsWhy(active: Option<Snapshot>, market: Option<Venue>, a: Attempt)
    ensures var (outcome, answer) := (Run(active, market, a).1, a.provider(IngestionWindow(a.now, active, market)));
      && (outcome.status.Skipped? <==> a.busy)
      && (outcome.status.ProviderDown? <==> !a.busy && answer.Unavailable?)
      && (outcome.status.Failed? <==> !a.busy && !answer.Unavailable? && !Published(outcome))
      && (outcome.errorCode.None? <==> outcome.status.Skipped? || Published(outcome))
      && (outcome.status.ProviderDown? ==> outcome.errorCode == Some(answer.code))
      && outcome.fetched == if !a.busy && answer.Bars? then |answer.rows| else 0
  {
    hide IngestionWindow, MergeResult, BaseRows, StoredRows;
  }

  // ---------------------------------------------------------------- incremental equals backfill

  /** One asset's bars in time order, none of them fixtures. */
  ghost predicate LiveSeries(series: seq<Row>) {
    && InOrder(series)
    && (forall i :: 0 <= i < |series| ==> series[i].bar.source != "research_fixture")
    && (forall i, j :: 0 <= i < |series| && 0 <= j < |series| ==>
          series[i].asset == series[j].asset && series[i].timeframe == series[j].timeframe)
  }

  /** The provider delivers exactly its closed bars in the window, or nothing at all. */
  ghost predicate Honest(a: Attempt, series: seq<Row>) {
    forall w: Window :: a.provider(w).Bars? ==> a.provider(w).rows == ClosedBars(series, w.fetchStart, a.now)
  }

  function Backfill(series: seq<Row>, from: int, now: int): seq<Row> {
    StoredRows(ClosedBars(series, from, now))
  }

  lemma BackfillLookup(series: seq<Row>, from: int, now: int, t: int)
    ensures Latest(Backfill(series, from, now), t) ==
        if from <= t && t + DAY <= now then StoredAt(Latest(series, t)) else None
  {
    StoredLookup(ClosedBars(series, from, now), t);
    KeepLookup(series, Closed(from, now), t);
  }

  lemma BackfillOrdered(series: seq<Row>, from: int, now: int)
    requires InOrder(series)
    ensures InOrder(Backfill(series, from, now))
  {
    KeepOrdered(series, Closed(from, now));
    StoredOrdered(ClosedBars(series, from, now));
  }

  lemma BackfillIsLive(series: seq<Row>, from: int, now: int)
    requires LiveSeries(series)
    ensures forall row :: row in Backfill(series, from, now) ==> row.bar.source != "research_fixture"
  {
    hide Stored;
    forall row | row in Backfill(series, from, now)
      ensures row.bar.source != "research_fixture"
    {
      var i :| 0 <= i < |ClosedBars(series, from, now)| && row == Stored(ClosedBars(series, from, now)[i]);
      assert ClosedBars(series, from, now)[i] in series;
      StoredKeepsTime(ClosedBars(series, from, now)[i]);
    }
  }

  lemma RunMerges(active: Option<Snapshot>, market: Option<Venue>, a: Attempt)
    requires Published(Run(active, market, a).1)
    ensures var window := IngestionWindow(a.now, active, market);
      && a.provider(window).Bars?
      && Run(active, market, a).0.Some?
      && Run(active, market, a).0.value.rows ==
           StoredRows(Merge(BaseRows(active, market), a.provider(window).rows, window.overlapStart))
  {
    hide Merge, BaseRows, StoredRows, OneSeries;
  }

  lemma WindowOverlap(now: int, active: Option<Snapshot>, market: Option<Venue>)
    ensures var window := IngestionWindow(now, active, market);
      window.overlapStart == window.fetchStart && window.fetchEnd == now
  {
  }

  /** What a publishing run with an honest provider leaves at each timestamp. */
  lemma PublishedRun(series: seq<Row>, active: Option<Snapshot>, market: Option<Venue>, a: Attempt, t: int)
    requires LiveSeries(series) && Honest(a, series) && Published(Run(active, market, a).1)
    ensures Run(active, market, a).0.Some? && InOrder(Run(active, market, a).0.value.rows)
    ensures var from := IngestionWindow(a.now, active, market).fetchStart;
      Latest(Run(active, market, a).0.value.rows, t) ==
        if from <= t && t + DAY <= a.now && Latest(series, t).Some? then StoredAt(Latest(series, t))
        else StoredAt(Latest(BaseRows(active, market), t))
  {
    hide Run, Merge, Keep, StoredRows, Stored, BaseRows, IngestionWindow, InOrder, Latest, LiveSeries;
    RunMerges(active, market, a);
    WindowOverlap(a.now, active, market);
    var from := IngestionWindow(a.now, active, market).fetchStart;
    var incoming := ClosedBars(series, from, a.now);
    KeepLookup(series, Closed(from, a.now), t);
    MergeLookup(BaseRows(active, market), incoming, from, t);
    StoredLookup(Merge(BaseRows(active, market), incoming, from), t);
    StoredOrdered(Merge(BaseRows(active, market), incoming, from));
  }

  /** The window never starts after the last stored bar, so it leaves no gap behind it. */
  lemma WindowReachesBack(active: Snapshot, market: Option<Venue>, now: int, from: int)
    requires InOrder(active.rows) && active.rows != [] && (market.Some? ==> from == InitialStart(market, now))
    requires market.None? ==> !active.IsFixture()
    ensures var start := IngestionWindow(now, Some(active), market).fetchStart;
      start == from || (!active.IsFixture() && start <= active.rows[|active.rows| - 1].Ts())
  {
  }

  /** From where a run asks for bars: from the start of history for a first run, a fixture, or a version that
      begins more than a week after it; otherwise ten days back, or a day before the last stored bar if that
      is earlier. Without a market history
      starts ten years back, three leap days counted; in crypto it starts with 2017, in metals on 3 June 1999, in Vietnam on 20 August 2018. */
  lemma WindowDays(active: Option<Snapshot>, market: Option<Venue>, now: int)
    ensures var (w, first) := (IngestionWindow(now, active, market), InitialStart(market, now));
      && w.fetchEnd == now && w.overlapStart == w.fetchStart
      && (active.None? || FromFixtures(active.value) ==> w.fetchStart == first)
      && (active.Some? && !FromFixtures(active.value) ==>
            var rows := active.value.rows;
            if |rows| >= 2 && rows[0].Ts() - first > 604800 then w.fetchStart == first
            else
              && now - w.fetchStart >= 864000 && (rows != [] ==> rows[|rows| - 1].Ts() - w.fetchStart >= 86400)
              && (now - w.fetchStart == 864000 || (rows != [] && rows[|rows| - 1].Ts() - w.fetchStart == 86400)))
      && (market.None? ==> now - first == (10 * 365 + 3) * 86400)
      && (market == Some(CryptoSpot) ==> first == DaysToYear(2017) * 86400)
      && (market == Some(MetalSpot) ==> first == (DaysToYear(1999) + 31 + 28 + 31 + 30 + 31 + 2) * 86400)
      && (market == Some(VnEquity) ==> first == (DaysToYear(2018) + 31 + 28 + 31 + 30 + 31 + 30 + 31 + 19) * 86400)
  {
  }

  /** A version is a fixture by its mode, or because a row comes from the research fixtures. */
  ghost predicate FromFixtures(active: Snapshot) {
    active.fixtureMode || exists row :: row in active.rows && row.bar.source == "research_fixture"
  }

  /** Days from the first of January 1970 to the first of January of a year of this age. */
  function DaysToYear(year: nat): int {
    (year - 1970) * 365 + (year - 1969) / 4
  }

  /** Rows of another asset or another timeframe than the first fetched bar are never merged. */
  lemma MixedRowsAreRefused(active: seq<Row>, incoming: seq<Row>, from: int, row: Row)
    requires incoming != [] && row in active + incoming
    requires row.asset != incoming[0].asset || row.timeframe != incoming[0].timeframe
    ensures MergeResult(active, incoming, from) == Err(MixedSeries)
  {
    hide Merge;
  }

  lemma CertifiedSinceStart(t: int, market: Option<Venue>, now: int)
    requires market.Some? ==> t >= InitialStart(market, now)
    ensures CertifiedAt(t, market)
  {
  }

  lemma BaseLookup(active: Snapshot, market: Option<Venue>, t: int)
    ensures Latest(BaseRows(Some(active), market), t) ==
        if active.IsFixture() || !CertifiedAt(t, market) then None else Latest(active.rows, t)
  {
    KeepLookup(active.rows, Certified(market), t);
  }

  lemma StoredAtTwice(row: Option<Row>)
    ensures StoredAt(StoredAt(row)) == StoredAt(row)
  {
    if row.Some? {
      StoredTwice(row.value);
    }
  }

  ghost predicate Complete(active: Option<Snapshot>, series: seq<Row>, from: int, now: int) {
    active.Some? && active.value.rows == Backfill(series, from, now) && active.value.rows != []
  }

  /** Facts about the last stored bar and the window that a complete version gives. */
  lemma CompleteWindow(series: seq<Row>, active: Snapshot, market: Option<Venue>, now: int, from: int, since: int)
    requires InOrder(series) && Complete(Some(active), series, from, since)
    requires StartsAt(active, market, now, from)
    ensures var start := IngestionWindow(now, Some(active), market).fetchStart;
      start == from || (!active.IsFixture() && start + DAY <= since)
    ensures active.IsFixture() ==> IngestionWindow(now, Some(active), market).fetchStart == from
  {
    hide Stored, StoredRows, Keep, Snapshot.IsFixture;
    BackfillOrdered(series, from, since);
    WindowReachesBack(active, market, now, from);
    BackfillLookup(series, from, since, active.rows[|active.rows| - 1].Ts());
  }

  /** The start of history a run must reproduce: fixed for the known markets; for any other one the
      start the first run saw, provided the version is not a fixture. */
  predicate StartsAt(active: Snapshot, market: Option<Venue>, now: int, from: int) {
    if market.Some? then from == InitialStart(market, now) else from <= InitialStart(market, now) && !active.IsFixture()
  }

  /** From a complete version, a publishing run yields the closed bars from the start of history
      on, and whatever closed bars lie between an earlier window start and that start. */
  lemma RunLookup(series: seq<Row>, active: Snapshot, market: Option<Venue>, a: Attempt, from: int, since: int, t: int)
    requires LiveSeries(series) && Honest(a, series) && Published(Run(Some(active), market, a).1)
    requires Complete(Some(active), series, from, since) && since <= a.now
    requires StartsAt(active, market, a.now, from)
    ensures Run(Some(active), market, a).0.Some?
    ensures Latest(Run(Some(active), market, a).0.value.rows, t) ==
        if t < from && (t < IngestionWindow(a.now, Some(active), market).fetchStart || a.now < t + DAY) then None
        else if a.now < t + DAY then None
        else StoredAt(Latest(series, t))
  {
    assert active.rows == Backfill(series, from, since);
    assert market.Some? ==> from == InitialStart(market, a.now);
    assert StoredAt(None) == None;
    assert InOrder(series);
    hide *;
    PublishedRun(series, Some(active), market, a, t);
    CompleteWindow(series, active, market, a.now, from, since);
    if from <= t {
      CertifiedSinceStart(t, market, a.now);
    }
    BackfillLookup(series, from, since, t);
    BaseLookup(active, market, t);
    StoredAtTwice(Latest(series, t));
  }

  /** No closed bar lies before the start of history but inside the window. */
  ghost predicate NothingEarly(series: seq<Row>, start: int, from: int, now: int) {
    forall t :: start <= t < from && t + DAY <= now ==> Latest(series, t).None?
  }

  /** A publishing run extends a complete version to a complete version exactly when the provider
      has no closed bar between the window start and the start of history. */
  lemma RunStaysComplete(series: seq<Row>, active: Snapshot, market: Option<Venue>, a: Attempt, from: int, since: int)
    requires LiveSeries(series) && Honest(a, series) && Published(Run(Some(active), market, a).1)
    requires Complete(Some(active), series, from, since) && since <= a.now
    requires StartsAt(active, market, a.now, from)
    ensures Complete(Run(Some(active), market, a).0, series, from, a.now) <==>
        NothingEarly(series, IngestionWindow(a.now, Some(active), market).fetchStart, from, a.now)
  {
    hide *;
    var start := IngestionWindow(a.now, Some(active), market).fetchStart;
    PublishedRun(series, Some(active), market, a, 0);
    var rows := Run(Some(active), market, a).0.value.rows;
    var full := Backfill(series, from, a.now);
    SeriesInOrder(series);
    CompleteIff(Run(Some(active), market, a).0.value, series, from, a.now);
    BackfillGrows(series, active, from, since, a.now);
    BackfillOrdered(series, from, a.now);
    forall t
      ensures Latest(rows, t) == Latest(full, t) <==> !(start <= t < from && t + DAY <= a.now && Latest(series, t).Some?)
    {
      SomeStored(Latest(series, t));
      RunLookup(series, active, market, a, from, since, t);
      BackfillLookup(series, from, a.now, t);
    }
    SameOrDifferent(series, rows, full, start, from, a.now);
  }

  lemma SeriesInOrder(series: seq<Row>)
    requires LiveSeries(series)
    ensures InOrder(series)
  {
  }

  lemma CompleteIff(active: Snapshot, series: seq<Row>, from: int, now: int)
    ensures Complete(Some(active), series, from, now) <==> active.rows == Backfill(series, from, now) && active.rows != []
  {
  }

  lemma SameOrDifferent(series: seq<Row>, rows: seq<Row>, full: seq<Row>, start: int, from: int, now: int)
    requires InOrder(rows) && InOrder(full)
    requires forall t :: Latest(rows, t) == Latest(full, t) <==> !(start <= t < from && t + DAY <= now && Latest(series, t).Some?)
    ensures rows == full <==> NothingEarly(series, start, from, now)
  {
    hide Latest, InOrder;
    if NothingEarly(series, start, from, now) {
      SameLookups(rows, full);
    }
  }

  lemma BackfillGrows(series: seq<Row>, active: Snapshot, from: int, since: int, now: int)
    requires InOrder(series) && Complete(Some(active), series, from, since) && since <= now
    ensures Backfill(series, from, now) != []
  {
    var first := active.rows[0].Ts();
    assert Latest(active.rows, first).Some?;
    hide Backfill, Stored;
    BackfillLookup(series, from, since, first);
    BackfillLookup(series, from, now, first);
  }

  /** Every row the run starts from stands where the provider has a closed bar since `from`. */
  ghost predicate BaseInside(series: seq<Row>, active: Option<Snapshot>, market: Option<Venue>, from: int, now: int) {
    forall t :: Latest(BaseRows(active, market), t).Some? ==> from <= t && t + DAY <= now && Latest(series, t).Some?
  }

  lemma PublishedRows(series: seq<Row>, active: Option<Snapshot>, market: Option<Venue>, a: Attempt)
    requires LiveSeries(series) && Honest(a, series) && Published(Run(active, market, a).1)
    ensures Run(active, market, a).0.Some?
    ensures Complete(Run(active, market, a).0, series, IngestionWindow(a.now, active, market).fetchStart, a.now) <==>
        Run(active, market, a).0.value.rows == Backfill(series, IngestionWindow(a.now, active, market).fetchStart, a.now)
  {
    var from := IngestionWindow(a.now, active, market).fetchStart;
    RunMerges(active, market, a);
    var incoming := a.provider(IngestionWindow(a.now, active, market)).rows;
    assert incoming != [] && incoming == ClosedBars(series, from, a.now);
    hide Run, Keep, Stored, IngestionWindow, LiveSeries, Honest, Merge;
  }

  /** Such a run differs from the backfill only where a base row stands outside the closed bars. */
  lemma RestartLookup(series: seq<Row>, active: Option<Snapshot>, market: Option<Venue>, a: Attempt, from: int, t: int)
    requires LiveSeries(series) && Honest(a, series) && Published(Run(active, market, a).1)
    requires IngestionWindow(a.now, active, market).fetchStart == from
    ensures Run(active, market, a).0.Some?
    ensures Latest(Run(active, market, a).0.value.rows, t) == Latest(Backfill(series, from, a.now), t) <==>
        (Latest(BaseRows(active, market), t).Some? ==> from <= t && t + DAY <= a.now && Latest(series, t).Some?)
  {
    hide *;
    PublishedRun(series, active, market, a, t);
    BackfillLookup(series, from, a.now, t);
    SomeStored(Latest(series, t));
    SomeStored(Latest(BaseRows(active, market), t));
    SomeStored(None);
  }

  /** A publishing run that fetches from the start of history yields the full backfill exactly when
      no row of the old version stands outside the provider's closed bars. */
  lemma RestartRun(series: seq<Row>, active: Option<Snapshot>, market: Option<Venue>, a: Attempt, from: int)
    requires LiveSeries(series) && Honest(a, series) && Published(Run(active, market, a).1)
    requires IngestionWindow(a.now, active, market).fetchStart == from
    ensures Complete(Run(active, market, a).0, series, from, a.now) <==> BaseInside(series, active, market, from, a.now)
  {
    hide Run, IngestionWindow, LiveSeries, Honest, Published, Backfill, Complete, BaseRows, InOrder, Latest;
    PublishedRows(series, active, market, a);
    PublishedRun(series, active, market, a, 0);
    SeriesInOrder(series);
    BackfillOrdered(series, from, a.now);
    var rows, full := Run(active, market, a).0.value.rows, Backfill(series, from, a.now);
    forall t {
      RestartLookup(series, active, market, a, from, t);
    }
    if BaseInside(series, active, market, from, a.now) {
      SameLookups(rows, full);
    }
  }

  /** Without a usable version, a publishing run backfills from the start of history. */
  lemma FirstRun(series: seq<Row>, active: Option<Snapshot>, market: Option<Venue>, a: Attempt)
    requires LiveSeries(series) && Honest(a, series) && Published(Run(active, market, a).1)
    requires active.None? || active.value.IsFixture()
    ensures Complete(Run(active, market, a).0, series, InitialStart(market, a.now), a.now)
  {
    assert forall t :: Latest(BaseRows(active, market), t).None?;
    RestartRun(series, active, market, a, InitialStart(market, a.now));
  }

  /** The rows of a version stand at closed bars of the series since `from`. */
  ghost predicate AtClosedBars(rows: seq<Row>, series: seq<Row>, from: int, now: int) {
    forall row :: row in rows ==> from <= row.Ts() && row.Ts() + DAY <= now && Latest(series, row.Ts()).Some?
  }

  /** A live version that starts more than a week late is repaired by the next publishing run. */
  lemma TruncatedRun(series: seq<Row>, active: Snapshot, market: Option<Venue>, a: Attempt)
    requires LiveSeries(series) && Honest(a, series) && Published(Run(Some(active), market, a).1)
    requires !active.IsFixture() && Truncated(active.rows, InitialStart(market, a.now))
    requires AtClosedBars(active.rows, series, InitialStart(market, a.now), a.now)
    ensures Complete(Run(Some(active), market, a).0, series, InitialStart(market, a.now), a.now)
  {
    var from := InitialStart(market, a.now);
    forall t
      ensures Latest(BaseRows(Some(active), market), t).Some? ==> from <= t && t + DAY <= a.now && Latest(series, t).Some?
    {
      BaseLookup(active, market, t);
    }
    RestartRun(series, Some(active), market, a, from);
  }

  lemma PublishedIsLive(series: seq<Row>, active: Option<Snapshot>, market: Option<Venue>, a: Attempt, from: int, now: int)
    requires LiveSeries(series) && Complete(Run(active, market, a).0, series, from, now)
    requires active.None? || !active.value.IsFixture() || HasFixtureRow(active.value.rows)
    ensures !Run(active, market, a).0.value.IsFixture()
  {
    BackfillIsLive(series, from, now);
    hide Backfill, Stored, StoredRows, MergeResult, IngestionWindow;
    forall i | 0 <= i < |Run(active, market, a).0.value.rows|
      ensures Run(active, market, a).0.value.rows[i].bar.source != "research_fixture"
    {
      assert Run(active, market, a).0.value.rows[i] in Backfill(series, from, now);
    }
  }

  /** Later windows cannot reach behind the start of history: the provider has no bar in the nine
      days before it, or ten days and one further daily bar have passed since. */
  ghost predicate ClearStart(series: seq<Row>, from: int, first: int) {
    || (forall t :: from - 9 * DAY <= t < from ==> Latest(series, t).None?)
    || (from + 10 * DAY <= first && exists t :: from + DAY <= t && t + DAY <= first && Latest(series, t).Some?)
  }

  lemma LastBar(series: seq<Row>, active: Snapshot, from: int, since: int)
    requires InOrder(series) && Complete(Some(active), series, from, since)
    ensures from <= active.rows[|active.rows| - 1].Ts() && active.rows[|active.rows| - 1].Ts() + DAY <= since
    ensures forall t :: from <= t && t + DAY <= since && Latest(series, t).Some? ==> t <= active.rows[|active.rows| - 1].Ts()
  {
    var last := active.rows[|active.rows| - 1].Ts();
    assert Latest(active.rows, last).Some?;
    hide *;
    BackfillOrdered(series, from, since);
    BackfillLookup(series, from, since, last);
    SomeStored(Latest(series, last));
    forall t | from <= t && t + DAY <= since && Latest(series, t).Some?
      ensures t <= last
    {
      BackfillLookup(series, from, since, t);
      CompleteRows(series, active, from, since);
      SomeStored(Latest(series, t));
      LookupOrdered(active.rows, t);
    }
    CompleteRows(series, active, from, since);
  }

  lemma CompleteRows(series: seq<Row>, active: Snapshot, from: int, since: int)
    requires Complete(Some(active), series, from, since)
    ensures active.rows == Backfill(series, from, since) && active.rows != []
  {
  }

  lemma ClearWindow(series: seq<Row>, active: Snapshot, market: Option<Venue>, from: int, first: int, since: int, now: int)
    requires InOrder(series) && Complete(Some(active), series, from, since) && StartsAt(active, market, now, from)
    requires ClearStart(series, from, first) && first <= since <= now
    ensures NothingEarly(series, IngestionWindow(now, Some(active), market).fetchStart, from, now)
  {
    hide Backfill, Stored, Latest, InOrder, Snapshot.IsFixture;
    LastBar(series, active, from, since);
  }

  // ---------------------------------------------------------------- from the start of history on

  lemma SourcesAreLive(series: seq<Row>, active: Snapshot, market: Option<Venue>, a: Attempt)
    requires LiveSeries(series) && Honest(a, series) && !active.IsFixture() && InOrder(active.rows)
    ensures Run(Some(active), market, a).0.Some? && !Run(Some(active), market, a).0.value.IsFixture()
  {
    var (after, outcome) := Run(Some(active), market, a);
    if outcome.status.Succeeded? {
      PublishedRun(series, Some(active), market, a, 0);
      assert !after.value.fixtureMode;
      forall i | 0 <= i < |after.value.rows|
        ensures after.value.rows[i].bar.source != "research_fixture"
      {
        RowIsLive(series, active, market, a, i);
      }
    }
  }

  lemma RowIsLive(series: seq<Row>, active: Snapshot, market: Option<Venue>, a: Attempt, i: nat)
    requires LiveSeries(series) && Honest(a, series) && !active.IsFixture() && Published(Run(Some(active), market, a).1)
    requires Run(Some(active), market, a).0.Some? && i < |Run(Some(active), market, a).0.value.rows|
    ensures Run(Some(active), market, a).0.value.rows[i].bar.source != "research_fixture"
  {
    var rows := Run(Some(active), market, a).0.value.rows;
    var t := rows[i].Ts();
    PublishedRun(series, Some(active), market, a, t);
    BaseLookup(active, market, t);
    OrderedLookup(rows, i);
    assert forall row :: row in series ==> row.bar.source != "research_fixture";
    assert forall row :: row in active.rows ==> row.bar.source != "research_fixture";
    hide Run, LiveSeries, Honest, IngestionWindow, Stored, Snapshot.IsFixture, InOrder;
    if Latest(series, t).Some? {
      StoredKeepsTime(Latest(series, t).value);
    }
    if Latest(active.rows, t).Some? {
      StoredKeepsTime(Latest(active.rows, t).value);
    }
  }

  lemma OrderedLookup(rows: seq<Row>, i: nat)
    requires InOrder(rows) && i < |rows|
    ensures Latest(rows, rows[i].Ts()) == Some(rows[i])
  {
    assert rows[i] in rows;
    var found := Latest(rows, rows[i].Ts());
    var j :| 0 <= j < |rows| && rows[j] == found.value;
  }

  /** From the start of history on the version holds exactly the closed bars; whatever it holds
      before that are bars of the series, too. */
  ghost predicate CompleteSince(active: Option<Snapshot>, series: seq<Row>, from: int, now: int) {
    && active.Some? && InOrder(active.value.rows) && active.value.rows != []
    && (forall t :: from <= t ==> Latest(active.value.rows, t) == if t + DAY <= now then StoredAt(Latest(series, t)) else None)
    && (forall t :: t < from && Latest(active.value.rows, t).Some? ==> Latest(active.value.rows, t) == StoredAt(Latest(series, t)))
  }

  ghost predicate NothingBefore(rows: seq<Row>, from: int) {
    forall t :: t < from ==> Latest(rows, t).None?
  }

  /** Such a version is the full backfill exactly when it holds nothing earlier. */
  lemma CompleteIffNothingBefore(active: Option<Snapshot>, series: seq<Row>, from: int, now: int)
    requires InOrder(series) && CompleteSince(active, series, from, now)
    ensures Complete(active, series, from, now) <==> NothingBefore(active.value.rows, from)
  {
    var (rows, full) := (active.value.rows, Backfill(series, from, now));
    BackfillOrdered(series, from, now);
    hide Backfill, InOrder, Stored;
    forall t
      ensures t < from ==> Latest(full, t).None?
      ensures from <= t ==> Latest(rows, t) == Latest(full, t)
    {
      BackfillLookup(series, from, now, t);
    }
    if rows == full {
      forall t | t < from
        ensures Latest(rows, t).None?
      {
        BackfillLookup(series, from, now, t);
      }
    } else if NothingBefore(rows, from) {
      SameLookups(rows, full);
    }
  }

  lemma CompleteHoldsSince(active: Option<Snapshot>, series: seq<Row>, from: int, now: int)
    requires InOrder(series) && Complete(active, series, from, now)
    ensures CompleteSince(active, series, from, now)
  {
    BackfillOrdered(series, from, now);
    hide Backfill, InOrder, Stored, Latest;
    forall t
      ensures Latest(active.value.rows, t) == if from <= t && t + DAY <= now then StoredAt(Latest(series, t)) else None
    {
      BackfillLookup(series, from, now, t);
    }
  }

  /** The window of the next run starts no later than any bar that closed since. */
  lemma WindowCoversNew(series: seq<Row>, active: Snapshot, market: Option<Venue>, from: int, since: int, now: int, t: int)
    requires CompleteSince(Some(active), series, from, since) && StartsAt(active, market, now, from)
    requires from <= t && since < t + DAY
    ensures IngestionWindow(now, Some(active), market).fetchStart <= t
    ensures active.IsFixture() ==> IngestionWindow(now, Some(active), market).fetchStart == from
  {
    var (first, last) := (active.rows[0].Ts(), active.rows[|active.rows| - 1].Ts());
    assert Latest(active.rows, last).Some? && Latest(active.rows, first).Some?;
    hide Latest, Snapshot.IsFixture, StoredAt;
  }

  lemma RunSinceAt(series: seq<Row>, active: Snapshot, market: Option<Venue>, a: Attempt, from: int, since: int, t: int)
    requires LiveSeries(series) && Honest(a, series) && Published(Run(Some(active), market, a).1)
    requires CompleteSince(Some(active), series, from, since) && since <= a.now && StartsAt(active, market, a.now, from)
    ensures Run(Some(active), market, a).0.Some?
    ensures var after := Latest(Run(Some(active), market, a).0.value.rows, t);
      && (from <= t ==> after == if t + DAY <= a.now then StoredAt(Latest(series, t)) else None)
      && (t < from && after.Some? ==> after == StoredAt(Latest(series, t)))
  {
    assert market.Some? ==> from == InitialStart(market, a.now);
    assert from <= t ==> Latest(active.rows, t) == if t + DAY <= since then StoredAt(Latest(series, t)) else None;
    assert t < from && Latest(active.rows, t).Some? ==> Latest(active.rows, t) == StoredAt(Latest(series, t));
    assert StoredAt(None) == None;
    hide *;
    PublishedRun(series, Some(active), market, a, t);
    BaseLookup(active, market, t);
    StoredAtTwice(Latest(series, t));
    SomeStored(Latest(series, t));
    if from <= t {
      CertifiedSinceStart(t, market, a.now);
      if since < t + DAY {
        WindowCoversNew(series, active, market, from, since, a.now, t);
      }
      FixtureWindow(series, active, market, from, since, a.now);
    }
  }

  lemma FixtureWindow(series: seq<Row>, active: Snapshot, market: Option<Venue>, from: int, since: int, now: int)
    requires CompleteSince(Some(active), series, from, since) && StartsAt(active, market, now, from)
    ensures active.IsFixture() ==> IngestionWindow(now, Some(active), market).fetchStart == from
  {
    hide Latest, StoredAt;
  }

  /** A publishing run keeps a version complete from the start of history on, on every branch and
      whatever bars the provider has before it. */
  lemma RunStaysCompleteSince(series: seq<Row>, active: Snapshot, market: Option<Venue>, a: Attempt, from: int, since: int)
    requires LiveSeries(series) && Honest(a, series) && Published(Run(Some(active), market, a).1)
    requires CompleteSince(Some(active), series, from, since) && since <= a.now && StartsAt(active, market, a.now, from)
    ensures CompleteSince(Run(Some(active), market, a).0, series, from, a.now)
  {
    PublishedRun(series, Some(active), market, a, 0);
    PublishedNotEmpty(series, Some(active), market, a);
    hide Run, LiveSeries, Honest, Published, StartsAt, Stored, InOrder, Latest;
    forall t {
      RunSinceAt(series, active, market, a, from, since, t);
    }
  }

  lemma PublishedNotEmpty(series: seq<Row>, active: Option<Snapshot>, market: Option<Venue>, a: Attempt)
    requires LiveSeries(series) && Honest(a, series) && Published(Run(active, market, a).1)
    ensures Run(active, market, a).0.Some? && Run(active, market, a).0.value.rows != []
  {
    RunMerges(active, market, a);
    var window := IngestionWindow(a.now, active, market);
    var incoming := a.provider(window).rows;
    assert incoming != [] && incoming == ClosedBars(series, window.fetchStart, a.now);
    var t := incoming[0].Ts();
    assert Latest(incoming, t).Some?;
    hide Run, LiveSeries, Honest, Published, IngestionWindow, Stored;
    KeepLookup(series, Closed(window.fetchStart, a.now), t);
    PublishedRun(series, active, market, a, t);
    SomeStored(Latest(series, t));
  }

  // ---------------------------------------------------------------- whole histories

  function After(start: Option<Snapshot>, market: Option<Venue>, attempts: seq<Attempt>): Option<Snapshot> {
    if attempts == [] then start
    else Run(After(start, market, attempts[..|attempts| - 1]), market, attempts[|attempts| - 1]).0
  }

  /** The times of the first and the last publishing run. */
  datatype Span = Never | Between(first: int, last: int)

  /** The span after the attempts, starting from `span`. */
  function Publications(start: Option<Snapshot>, span: Span, market: Option<Venue>, attempts: seq<Attempt>): Span {
    if attempts == [] then span
    else
      var a := attempts[|attempts| - 1];
      var earlier := Publications(start, span, market, attempts[..|attempts| - 1]);
      Extend(earlier, Published(Run(After(start, market, attempts[..|attempts| - 1]), market, a).1), a.now)
  }

  ghost predicate HonestHistory(series: seq<Row>, attempts: seq<Attempt>) {
    && (forall i :: 0 <= i < |attempts| ==> Honest(attempts[i], series))
    && (forall i, j :: 0 <= i < j < |attempts| ==> attempts[i].now <= attempts[j].now)
  }

  lemma {:induction false} PublicationTimes(series: seq<Row>, start: Option<Snapshot>, span: Span, market: Option<Venue>, attempts: seq<Attempt>)
    requires HonestHistory(series, attempts)
    requires span.Between? ==> span.first <= span.last && forall i :: 0 <= i < |attempts| ==> span.last <= attempts[i].now
    ensures var after := Publications(start, span, market, attempts);
      after.Between? ==> after.first <= after.last && (if attempts == [] then after == span else after.last <= attempts[|attempts| - 1].now)
  {
    if attempts != [] {
      PublicationTimes(series, start, span, market, attempts[..|attempts| - 1]);
    }
  }

  /** The starting version while nothing was published; then complete as of the last publishing
      run, from the start of history the first one saw, and nothing but the full backfill where the
      start is clear. */
  ghost predicate CaughtUp(series: seq<Row>, start: Option<Snapshot>, market: Option<Venue>, active: Option<Snapshot>, span: Span) {
    match span
    case Never => active == start
    case Between(first, last) =>
      var from := InitialStart(market, first);
      && CompleteSince(active, series, from, last) && StartsAt(active.value, market, last, from)
      && (ClearStart(series, from, first) ==> Complete(active, series, from, last))
  }

  /** The span after one more run. */
  function Extend(span: Span, published: bool, now: int): Span {
    if !published then span else Between(if span.Never? then now else span.first, now)
  }

  /** A run at `now` fetches from the start of history: there is no version, it is a fixture, or it
      is live, starts late, and holds only closed bars of the series. */
  ghost predicate Restarts(series: seq<Row>, start: Option<Snapshot>, market: Option<Venue>, now: int) {
    || start.None?
    || (start.value.IsFixture() && (market.Some? || HasFixtureRow(start.value.rows)))
    || (!start.value.IsFixture() && Truncated(start.value.rows, InitialStart(market, now))
        && AtClosedBars(start.value.rows, series, InitialStart(market, now), now))
  }

  lemma FirstPublication(series: seq<Row>, start: Option<Snapshot>, market: Option<Venue>, a: Attempt)
    requires LiveSeries(series) && Honest(a, series) && Published(Run(start, market, a).1)
    requires Restarts(series, start, market, a.now)
    ensures CaughtUp(series, start, market, Run(start, market, a).0, Between(a.now, a.now))
  {
    assert InOrder(series);
    hide Run, ClearStart, LiveSeries, Honest, Published, Backfill, AtClosedBars, CompleteSince;
    if start.None? || start.value.IsFixture() {
      FirstRun(series, start, market, a);
    } else {
      TruncatedRun(series, start.value, market, a);
    }
    CompleteHoldsSince(Run(start, market, a).0, series, InitialStart(market, a.now), a.now);
    if market.None? {
      PublishedIsLive(series, start, market, a, InitialStart(market, a.now), a.now);
    }
  }

  lemma NextPublication(series: seq<Row>, start: Option<Snapshot>, market: Option<Venue>, active: Option<Snapshot>, span: Span, a: Attempt)
    requires LiveSeries(series) && Honest(a, series) && Published(Run(active, market, a).1)
    requires span.Between? && CaughtUp(series, start, market, active, span) && span.first <= span.last <= a.now
    ensures CaughtUp(series, start, market, Run(active, market, a).0, Between(span.first, a.now))
  {
    var from := InitialStart(market, span.first);
    assert InOrder(series) && InOrder(active.value.rows);
    assert StartsAt(active.value, market, a.now, from);
    hide Run, ClearStart, LiveSeries, Honest, Published, Snapshot.IsFixture, Backfill, CompleteSince, InOrder;
    RunStaysCompleteSince(series, active.value, market, a, from, span.last);
    if ClearStart(series, from, span.first) {
      ClearWindow(series, active.value, market, from, span.first, span.last, a.now);
      RunStaysComplete(series, active.value, market, a, from, span.last);
    }
    if market.None? {
      SourcesAreLive(series, active.value, market, a);
    }
  }

  lemma RunStep(series: seq<Row>, start: Option<Snapshot>, market: Option<Venue>, active: Option<Snapshot>, span: Span, a: Attempt)
    requires LiveSeries(series) && Honest(a, series)
    requires span.Never? ==> Restarts(series, start, market, a.now)
    requires CaughtUp(series, start, market, active, span)
    requires span.Between? ==> span.first <= span.last <= a.now
    ensures CaughtUp(series, start, market, Run(active, market, a).0, Extend(span, Published(Run(active, market, a).1), a.now))
  {
    if Published(Run(active, market, a).1) {
      hide Run, Restarts, LiveSeries, Honest, Published, CompleteSince, ClearStart, Complete;
      if span.Never? {
        FirstPublication(series, start, market, a);
      } else {
        NextPublication(series, start, market, active, span, a);
      }
    } else {
      assert Run(active, market, a).0 == active;
    }
  }

  /** Incremental ingestion equals a full backfill: after any mix of publishing, failed, skipped
      and rejected runs the active rows since the start of history are the closed bars up to the
      last run that published, and all of them where later windows cannot reach behind that start.
      The runs begin before any publication (`span` is `Never`) from no version, a fixture or a
      truncated one, or from a version that is already complete. */
  lemma {:induction false} IncrementalEqualsBackfill(
      series: seq<Row>, start: Option<Snapshot>, span: Span, market: Option<Venue>, attempts: seq<Attempt>)
    requires LiveSeries(series) && HonestHistory(series, attempts)
    requires span.Never? ==> forall i :: 0 <= i < |attempts| ==> Restarts(series, start, market, attempts[i].now)
    requires span.Between? ==> span.first <= span.last && forall i :: 0 <= i < |attempts| ==> span.last <= attempts[i].now
    requires CaughtUp(series, start, market, start, span)
    ensures CaughtUp(series, start, market, After(start, market, attempts), Publications(start, span, market, attempts))
  {
    if attempts != [] {
      var shorter, a := attempts[..|attempts| - 1], attempts[|attempts| - 1];
      hide Run, CaughtUp, LiveSeries, Honest, Published, Restarts;
      IncrementalEqualsBackfill(series, start, span, market, shorter);
      PublicationTimes(series, start, span, market, shorter);
      SpanStays(start, span, market, shorter);
      RunStep(series, start, market, After(start, market, shorter), Publications(start, span, market, shorter), a);
    }
  }

  lemma {:induction false} SpanStays(start: Option<Snapshot>, span: Span, market: Option<Venue>, attempts: seq<Attempt>)
    ensures Publications(start, span, market, attempts).Never? ==> span.Never?
  {
    if attempts != [] {
      SpanStays(start, span, market, attempts[..|attempts| - 1]);
    }
  }

  predicate Accepts(a: Attempt, rows: seq<Row>) {
    !a.busy && a.commits && a.quality(rows)
  }

  /** Whatever a history publishes was accepted by the attempt that published it: the active rows are
      the starting ones or were accepted by the quality rules of one of the attempts. */
  lemma {:induction false} ActiveWasAccepted(start: Option<Snapshot>, market: Option<Venue>, attempts: seq<Attempt>)
    ensures After(start, market, attempts) == start ||
        (After(start, market, attempts).Some? && exists i :: 0 <= i < |attempts| && Accepts(attempts[i], After(start, market, attempts).value.rows))
  {
    if attempts != [] {
      hide Run;
      var (shorter, a) := (attempts[..|attempts| - 1], attempts[|attempts| - 1]);
      ActiveWasAccepted(start, market, shorter);
      PublishedIsAccepted(After(start, market, shorter), market, a);
      assert forall i :: 0 <= i < |shorter| ==> shorter[i] == attempts[i];
      assert attempts[|attempts| - 1] == a;
    }
  }

  /** Rows of the Vietnamese market from before its certified calendar do not survive a run: what a
      publishing run leaves there it fetched itself. Midnight of 20 August 2018 in Vietnam is five in the
      afternoon of the day before in UTC. */
  lemma UncertifiedRowsGo(series: seq<Row>, active: Option<Snapshot>, a: Attempt, t: int)
    requires LiveSeries(series) && Honest(a, series) && Published(Run(active, Some(VnEquity), a).1)
    requires t < 1534698000
    ensures Run(active, Some(VnEquity), a).0.Some?
    ensures Latest(Run(active, Some(VnEquity), a).0.value.rows, t).Some? ==>
        IngestionWindow(a.now, active, Some(VnEquity)).fetchStart <= t && Latest(series, t).Some?
  {
    hide Run, LiveSeries, Honest, Published, IngestionWindow, Stored, Latest;
    PublishedRun(series, active, Some(VnEquity), a, t);
    SomeStored(Latest(series, t));
    SomeStored(Latest(BaseRows(active, Some(VnEquity)), t));
    if active.Some? {
      BaseLookup(active.value, Some(VnEquity), t);
    } else {
      NothingToBuildOn(t);
    }
  }

  lemma NothingToBuildOn(t: int)
    ensures Latest(BaseRows(None, Some(VnEquity)), t).None?
  {
  }

  /** Certified rows and rows of other markets do survive, unless they are replaced. */
  lemma CertifiedRowsStay(series: seq<Row>, active: Snapshot, market: Option<Venue>, a: Attempt, t: int)
    requires LiveSeries(series) && Honest(a, series) && Published(Run(Some(active), market, a).1)
    requires !active.IsFixture() && Latest(active.rows, t).Some? && (market == Some(VnEquity) ==> t >= 1534698000)
    ensures Run(Some(active), market, a).0.Some? && Latest(Run(Some(active), market, a).0.value.rows, t).Some?
  {
    assert CertifiedAt(t, market);
    hide Run, LiveSeries, Honest, Published, IngestionWindow, Stored, Latest, CertifiedAt;
    PublishedRun(series, Some(active), market, a, t);
    SomeStored(Latest(series, t));
    SomeStored(Latest(BaseRows(Some(active), market), t));
    BaseLookup(active, market, t);
  }

  // ---------------------------------------------------------------- holes

  /** A bar missing from the active version comes back with the next publishing run exactly when
      the window reaches it. */
  lemma HoleFilledIff(series: seq<Row>, active: Snapshot, market: Option<Venue>, a: Attempt, hole: int)
    requires LiveSeries(series) && Honest(a, series) && Published(Run(Some(active), market, a).1)
    requires Latest(active.rows, hole).None? && Latest(series, hole).Some? && hole + DAY <= a.now
    ensures Run(Some(active), market, a).0.Some?
    ensures Latest(Run(Some(active), market, a).0.value.rows, hole).Some? <==>
        IngestionWindow(a.now, Some(active), market).fetchStart <= hole
  {
    PublishedRun(series, Some(active), market, a, hole);
    hide Run, LiveSeries, Honest, IngestionWindow, Stored;
    BaseLookup(active, market, hole);
  }

  /** A live version whose first certified rows start within a week of the start of history, with
      a hole behind every window. */
  ghost predicate Stuck(active: Option<Snapshot>, market: Option<Venue>, now: int, hole: int, early: int, late: int) {
    && active.Some? && !active.value.IsFixture() && InOrder(active.value.rows)
    && Latest(active.value.rows, early).Some? && CertifiedAt(early, market) && early <= InitialStart(market, now) + 7 * DAY
    && Latest(active.value.rows, late).Some? && CertifiedAt(late, market) && hole < late - DAY
    && hole < now - 10 * DAY && Latest(active.value.rows, hole).None?
  }

  lemma StuckWindow(active: Option<Snapshot>, market: Option<Venue>, now: int, hole: int, early: int, late: int)
    requires Stuck(active, market, now, hole, early, late)
    ensures hole < IngestionWindow(now, active, market).fetchStart
  {
    LookupOrdered(active.value.rows, early);
    LookupOrdered(active.value.rows, late);
  }

  lemma StuckStep(series: seq<Row>, active: Option<Snapshot>, market: Option<Venue>, a: Attempt, now: int, hole: int, early: int, late: int)
    requires LiveSeries(series) && Honest(a, series) && now <= a.now
    requires Stuck(active, market, now, hole, early, late)
    ensures Stuck(Run(active, market, a).0, market, a.now, hole, early, late)
  {
    assert Stuck(active, market, a.now, hole, early, late);
    SourcesAreLive(series, active.value, market, a);
    StuckWindow(active, market, a.now, hole, early, late);
    if Published(Run(active, market, a).1) {
      PublishedRun(series, active, market, a, hole);
      PublishedRun(series, active, market, a, early);
      PublishedRun(series, active, market, a, late);
      hide Run, LiveSeries, Honest, IngestionWindow, Stored, Snapshot.IsFixture, InOrder, Latest, BaseRows, CertifiedAt;
      BaseLookup(active.value, market, hole);
      BaseLookup(active.value, market, early);
      BaseLookup(active.value, market, late);
    } else {
      assert Run(active, market, a).0 == active;
    }
  }

  /** Such a hole is never filled, however often ingestion runs. */
  lemma {:induction false} HoleIsForever(
      series: seq<Row>, start: Option<Snapshot>, market: Option<Venue>, attempts: seq<Attempt>, now: int, hole: int, early: int, late: int)
    requires LiveSeries(series) && HonestHistory(series, attempts)
    requires attempts != [] ==> now <= attempts[0].now
    requires Stuck(start, market, now, hole, early, late)
    ensures Stuck(After(start, market, attempts), market, if attempts == [] then now else attempts[|attempts| - 1].now, hole, early, late)
  {
    if attempts != [] {
      var shorter, a := attempts[..|attempts| - 1], attempts[|attempts| - 1];
      hide Run, Stuck, LiveSeries, Honest;
      HoleIsForever(series, start, market, shorter, now, hole, early, late);
      StuckStep(series, After(start, market, shorter), market, a,
                if shorter == [] then now else shorter[|shorter| - 1].now, hole, early, late);
    }
  }

  // ---------------------------------------------------------------- such versions exist

  const BTC_START := 1483228800

  /** A daily bar of a crypto pair, so many days after the start of its history. */
  function CryptoRow(day: int): Row {
    Row("BTC", "1d", Bar(BTC_START + day * DAY, 1.0, 1.0, 1.0, 1.0, None, "feed"))
  }

  /** Two bars fifty days apart, seen on day one hundred: the missing day ten stays missing. */
  lemma StuckVersion()
    ensures Stuck(Some(Snapshot(false, [CryptoRow(0), CryptoRow(50)])), Some(CryptoSpot),
                  BTC_START + 100 * DAY, BTC_START + 10 * DAY, BTC_START, BTC_START + 50 * DAY)
  {
    var rows := [CryptoRow(0), CryptoRow(50)];
    assert rows[..1] == [CryptoRow(0)] && rows[..1][..0] == [];
    assert Latest([CryptoRow(0)], BTC_START) == Some(CryptoRow(0));
    assert Latest([CryptoRow(0)], BTC_START + 10 * DAY) == None;
  }

  function EarlySeries(): seq<Row> {
    [CryptoRow(-1), CryptoRow(0)]
  }

  /** On the first day of the history, with a provider that has a bar of the day before. */
  function EarlyAttempt(): Attempt {
    Attempt(BTC_START + DAY, false, (w: Window) => Bars(ClosedBars(EarlySeries(), w.fetchStart, BTC_START + DAY)), (rows: seq<Row>) => true, true)
  }

  lemma CryptoRowStored(day: int)
    ensures Stored(CryptoRow(day)) == CryptoRow(day)
  {
    assert Times(1.0, PRICE_SCALE) == 100000000.0 && HalfUp(100000000.0) == 100000000;
  }

  lemma EarlyClosed(from: int)
    requires from <= BTC_START
    ensures ClosedBars(EarlySeries(), from, BTC_START + DAY) ==
        if from <= BTC_START - DAY then EarlySeries() else [CryptoRow(0)]
  {
    var (series, first) := (EarlySeries(), [CryptoRow(-1)]);
    var wanted := Closed(from, BTC_START + DAY);
    assert series[..1] == first && first[..0] == [];
    assert Keep(first, wanted) == if from <= BTC_START - DAY then first else [];
  }

  function FirstDay(): Snapshot {
    Snapshot(false, [CryptoRow(0)])
  }

  lemma FirstDayIsComplete()
    ensures LiveSeries(EarlySeries()) && Complete(Some(FirstDay()), EarlySeries(), BTC_START, BTC_START + DAY)
  {
    hide Stored, Keep, Latest;
    CryptoRowStored(0);
    EarlyClosed(BTC_START);
    assert StoredRows([CryptoRow(0)]) == [CryptoRow(0)];
  }

  lemma FirstDayWindow()
    ensures !FirstDay().IsFixture()
    ensures IngestionWindow(BTC_START + DAY, Some(FirstDay()), Some(CryptoSpot))
         == Window(BTC_START - 9 * DAY, BTC_START + DAY, BTC_START - 9 * DAY)
  {
    assert !HasFixtureRow(FirstDay().rows);
  }

  lemma FirstDayRows()
    ensures BaseRows(Some(FirstDay()), Some(CryptoSpot)) == [CryptoRow(0)]
  {
    FirstDayWindow();
    assert FirstDay().rows[..0] == [];
    assert Keep([], Certified(Some(CryptoSpot))) == [];
    hide Snapshot.IsFixture;
  }

  lemma PublishesWhen(active: Option<Snapshot>, market: Option<Venue>, a: Attempt)
    requires !a.busy && a.commits && (forall rows :: a.quality(rows))
    requires var window := IngestionWindow(a.now, active, market);
      && a.provider(window).Bars?
      && MergeResult(BaseRows(active, market), a.provider(window).rows, window.overlapStart).Ok?
    ensures Published(Run(active, market, a).1)
  {
    hide IngestionWindow, BaseRows, MergeResult, StoredRows;
  }

  lemma EarlyMerges(overlapStart: int)
    ensures MergeResult([CryptoRow(0)], EarlySeries(), overlapStart).Ok?
  {
    hide Merge;
  }

  /** A complete version of one day: the next run reaches behind the start of history, brings in the
      bar of the day before, and the version is no longer the backfill. */
  lemma EarlyBarComesIn()
    ensures var (series, active, a) := (EarlySeries(), FirstDay(), EarlyAttempt());
      && LiveSeries(series) && Honest(a, series) && Complete(Some(active), series, BTC_START, a.now)
      && Published(Run(Some(active), Some(CryptoSpot), a).1)
      && !Complete(Run(Some(active), Some(CryptoSpot), a).0, series, BTC_START, a.now)
  {
    var (series, active, a) := (EarlySeries(), FirstDay(), EarlyAttempt());
    var market := Some(CryptoSpot);
    hide *;
    EarlyAttemptIs();
    EarlyRow();
    FirstDayIsComplete();
    FirstDayWindow();
    FirstDayRows();
    EarlyClosed(BTC_START - 9 * DAY);
    EarlyMerges(BTC_START - 9 * DAY);
    PublishesWhen(Some(active), market, a);
    RunStaysComplete(series, active, market, a, BTC_START, a.now);
    NotNothingEarly(series, BTC_START - 9 * DAY, BTC_START, BTC_START + DAY, BTC_START - DAY);
  }

  lemma EarlyAttemptIs()
    ensures var (series, a) := (EarlySeries(), EarlyAttempt());
      && a.now == BTC_START + DAY && !a.busy && a.commits && StartsAt(FirstDay(), Some(CryptoSpot), a.now, BTC_START)
      && (forall rows :: a.quality(rows))
      && (forall w: Window :: a.provider(w) == Bars(ClosedBars(series, w.fetchStart, a.now)))
      && Honest(a, series) && DAY == 86400
  {
    hide ClosedBars;
  }

  lemma EarlyRow()
    ensures Latest(EarlySeries(), BTC_START - DAY) == Some(CryptoRow(-1))
  {
    assert EarlySeries()[..1] == [CryptoRow(-1)];
    assert Latest([CryptoRow(-1)], BTC_START - DAY) == Some(CryptoRow(-1));
  }

  lemma NotNothingEarly(series: seq<Row>, start: int, from: int, now: int, t: int)
    requires start <= t < from && t + DAY <= now && Latest(series, t).Some?
    ensures !NothingEarly(series, start, from, now)
  {
  }
}
