/** The worker's side of the run protocol (`process_next_run` in quant-worker/backtest/run_execution.py):
    checkpoints between pieces of work, then a commit or a failure, while other workers and the
    cancel endpoint act on the same table. */
module RunWorker {
  import opened Prelude
  import opened RunProtocol

  /** What happens to the table before a call of the worker, and the call's arguments. */
  datatype Call = Call(others: seq<Event>, progress: int, now: int)

  /** What the work on one leg produced; custom rules may add contributions and a cash flow. */
  datatype LegOutput = LegOutput(contributions: bool, cashFlow: bool)

  /** A finished computation: a run without legs, or a portfolio with an output per leg. The
      analytics pair and the robustness report need a long enough curve. */
  datatype Output =
    | Single(analytics: bool)
    | Portfolio(legs: seq<LegOutput>, robustness: bool, analytics: bool)

  /** How the work ends: a computation to store, or an exception. */
  datatype Ending = Finish(output: Output) | Raise

  // ---------------------------------------------------------------- artifacts

  function Aggregate(kind: string): Artifact {
    Artifact(kind, None, false)
  }

  function AnalyticsArtifacts(long: bool): seq<Artifact> {
    if long then [Aggregate("analytics"), Aggregate("report_html")] else []
  }

  /** The artifacts of leg `i`; its manifest carries the metrics. */
  function LegArtifacts(i: nat, leg: LegOutput): seq<Artifact> {
    [Artifact("equity", Some(i), false), Artifact("drawdown", Some(i), false),
     Artifact("trades", Some(i), false), Artifact("manifest", Some(i), true)]
    + (if leg.contributions then [Artifact("contribution", Some(i), false)] else [])
    + (if leg.cashFlow then [Artifact("cash_flow", Some(i), false)] else [])
  }

  function AllLegArtifacts(legs: seq<LegOutput>): seq<Artifact> {
    if legs == [] then []
    else AllLegArtifacts(legs[..|legs| - 1]) + LegArtifacts(|legs| - 1, legs[|legs| - 1])
  }

  function Artifacts(output: Output): seq<Artifact> {
    match output
    case Single(analytics) =>
      [Aggregate("equity"), Aggregate("drawdown"), Aggregate("trades"), Aggregate("manifest")] + AnalyticsArtifacts(analytics)
    case Portfolio(legs, robustness, analytics) => AllLegArtifacts(legs) + PortfolioArtifacts(robustness, analytics)
  }

  function PortfolioArtifacts(robustness: bool, analytics: bool): seq<Artifact> {
    [Aggregate("equity"), Aggregate("drawdown"), Aggregate("contribution"),
     Aggregate("cash_flow"), Aggregate("rebalance"), Aggregate("manifest")]
    + (if robustness then [Aggregate("robustness")] else [])
    + AnalyticsArtifacts(analytics)
  }

  function LegCount(output: Output): nat {
    if output.Single? then 0 else |output.legs|
  }

  /** The computation worked on all legs of the run. */
  predicate Covers(ending: Ending, row: Run) {
    ending.Finish? ==> LegCount(ending.output) == |row.legs|
  }

  lemma ClosesConcat(a: seq<Artifact>, b: seq<Artifact>, i: nat)
    ensures ClosesLeg(a + b, i) <==> ClosesLeg(a, i) || ClosesLeg(b, i)
  {
    if ClosesLeg(a, i) {
      var j :| 0 <= j < |a| && a[j].leg == Some(i) && a[j].hasMetrics;
      assert (a + b)[j] == a[j];
    }
    if ClosesLeg(b, i) {
      var j :| 0 <= j < |b| && b[j].leg == Some(i) && b[j].hasMetrics;
      assert (a + b)[|a| + j] == b[j];
    }
  }

  lemma LegArtifactsClose(k: nat, leg: LegOutput, i: nat)
    ensures ClosesLeg(LegArtifacts(k, leg), i) <==> i == k
  {
    assert LegArtifacts(k, leg)[3] == Artifact("manifest", Some(k), true);
  }

  lemma {:induction false} AllLegArtifactsClose(legs: seq<LegOutput>, i: nat)
    ensures ClosesLeg(AllLegArtifacts(legs), i) <==> i < |legs|
  {
    if legs != [] {
      var n := |legs| - 1;
      hide ClosesLeg, LegArtifacts;
      AllLegArtifactsClose(legs[..n], i);
      LegArtifactsClose(n, legs[n], i);
      ClosesConcat(AllLegArtifacts(legs[..n]), LegArtifacts(n, legs[n]), i);
    }
  }

  /** The artifacts of a computation close exactly the legs it worked on. */
  lemma ArtifactsCloseAllLegs(output: Output, i: nat)
    ensures ClosesLeg(Artifacts(output), i) <==> i < LegCount(output)
  {
    if output.Portfolio? {
      hide ClosesLeg, AllLegArtifacts, PortfolioArtifacts;
      AllLegArtifactsClose(output.legs, i);
      AggregatesCloseNothing(output.robustness, output.analytics, i);
      ClosesConcat(AllLegArtifacts(output.legs), PortfolioArtifacts(output.robustness, output.analytics), i);
    }
  }

  lemma AggregatesCloseNothing(robustness: bool, analytics: bool, i: nat)
    ensures !ClosesLeg(PortfolioArtifacts(robustness, analytics), i)
  {
  }

  lemma {:induction false} LegArtifactsOf(legs: seq<LegOutput>, a: Artifact)
    ensures a in AllLegArtifacts(legs) <==> a.leg.Some? && a.leg.value < |legs| && a in LegArtifacts(a.leg.value, legs[a.leg.value])
  {
    if legs != [] {
      var n := |legs| - 1;
      LegArtifactsOf(legs[..n], a);
      LegArtifactsName(n, legs[n], a);
      hide LegArtifacts;
    }
  }

  lemma LegArtifactsName(i: nat, leg: LegOutput, a: Artifact)
    ensures a in LegArtifacts(i, leg) ==> a.leg == Some(i)
    ensures Artifact("contribution", Some(i), false) in LegArtifacts(i, leg) <==> leg.contributions
    ensures Artifact("cash_flow", Some(i), false) in LegArtifacts(i, leg) <==> leg.cashFlow
  {
  }

  /** The analytics and their report are stored exactly when the curve was long enough. */
  lemma AnalyticsIff(long: bool)
    ensures forall a :: a in AnalyticsArtifacts(long) ==> a == Aggregate("analytics") || a == Aggregate("report_html")
    ensures Aggregate("analytics") in AnalyticsArtifacts(long) <==> long
    ensures Aggregate("report_html") in AnalyticsArtifacts(long) <==> long
  {
    if long {
      assert AnalyticsArtifacts(long)[0] == Aggregate("analytics") && AnalyticsArtifacts(long)[1] == Aggregate("report_html");
    }
  }

  /** Contributions and cash flow are stored for exactly the legs whose rules have them. */
  lemma LegExtras(legs: seq<LegOutput>, robustness: bool, analytics: bool, i: nat)
    ensures var stored := Artifacts(Portfolio(legs, robustness, analytics));
      && (Artifact("contribution", Some(i), false) in stored <==> i < |legs| && legs[i].contributions)
      && (Artifact("cash_flow", Some(i), false) in stored <==> i < |legs| && legs[i].cashFlow)
  {
    var (a, b) := (Artifact("contribution", Some(i), false), Artifact("cash_flow", Some(i), false));
    LegArtifactsOf(legs, a);
    LegArtifactsOf(legs, b);
    if i < |legs| {
      LegArtifactsName(i, legs[i], a);
    }
    AggregatesHaveNoLeg(robustness, analytics);
    hide AllLegArtifacts, LegArtifacts, PortfolioArtifacts;
  }

  lemma AggregatesHaveNoLeg(robustness: bool, analytics: bool)
    ensures forall a :: a in PortfolioArtifacts(robustness, analytics) ==> a.leg.None?
  {
  }

  /** The robustness report is stored exactly when the curve of the portfolio was long enough. */
  lemma RobustnessIff(robustness: bool)
    ensures Aggregate("robustness") in PortfolioArtifacts(robustness, false) <==> robustness
  {
  }

  /** Only the manifest of a leg carries metrics. */
  lemma OnlyManifestsMeasure(i: nat, leg: LegOutput, kind: string)
    ensures forall a :: a in LegArtifacts(i, leg) ==> (a.hasMetrics <==> a == Artifact("manifest", Some(i), true))
    ensures Aggregate(kind).leg.None? && !Aggregate(kind).hasMetrics
  {
  }

  // ---------------------------------------------------------------- the worker's calls

  /** What the worker reports; a stop carries the status the checkpoint returned. */
  datatype Report = RunSucceeded | RunFailed | LeaseLost | RunStopped(verdict: Verdict)

  /** The table and the report after the calls in order; `last` happens before the final call. */
  function Drive(rows: Table, id: RunId, who: WorkerId, lease: int, calls: seq<Call>, last: seq<Event>, ending: Ending): (Table, Report)
    requires id in rows
    decreases |calls|
  {
    if calls == [] then
      var table := History(rows, last);
      match ending
      case Finish(output) =>
        (Apply(table, Complete(id, who, Artifacts(output))),
         if CompleteRow(table[id], who, Artifacts(output)).1 then RunSucceeded else LeaseLost)
      case Raise => (Apply(table, Fail(id, who)), RunFailed)
    else
      var call := calls[0];
      var table := History(rows, call.others);
      var after := Apply(table, Checkpoint(id, who, call.progress, call.now, lease));
      var verdict := CheckpointRow(table[id], who, call.progress, call.now, lease).1;
      if verdict.VRunning? then Drive(after, id, who, lease, calls[1..], last, ending) else (after, RunStopped(verdict))
  }

  /** Lets the rest of the system act. */
  method Interfere(repository: RunRepository, events: seq<Event>)
    modifies repository
    ensures repository.rows == History(old(repository.rows), events)
  {
    for i := 0 to |events|
      invariant repository.rows == History(old(repository.rows), events[..i])
    {
      assert events[..i + 1][..i] == events[..i];
      repository.rows := Apply(repository.rows, events[i]);
    }
    assert events[..|events|] == events;
  }

  method ProcessClaimedRun(
      repository: RunRepository, id: RunId, who: WorkerId, lease: int, calls: seq<Call>, last: seq<Event>, ending: Ending)
    returns (report: Report)
    requires id in repository.rows
    modifies repository
    ensures (repository.rows, report) == Drive(old(repository.rows), id, who, lease, calls, last, ending)
  {
    for i := 0 to |calls|
      invariant id in repository.rows
      invariant Drive(repository.rows, id, who, lease, calls[i..], last, ending) == Drive(old(repository.rows), id, who, lease, calls, last, ending)
    {
      assert calls[i..][0] == calls[i] && calls[i..][1..] == calls[i + 1..];
      Interfere(repository, calls[i].others);
      var verdict := repository.CheckpointRun(id, who, calls[i].progress, calls[i].now, lease);
      if !verdict.VRunning? {
        return RunStopped(verdict);
      }
    }
    Interfere(repository, last);
    match ending {
      case Finish(output) =>
        var committed := repository.CompleteRun(id, who, Artifacts(output));
        report := if committed then RunSucceeded else LeaseLost;
      case Raise =>
        var _ := repository.FailRun(id, who);
        report := RunFailed;
    }
  }

  // ---------------------------------------------------------------- the report tells the truth

  /** Nobody else acts under the worker's name on the run. */
  ghost predicate Foreign(events: seq<Event>, id: RunId, who: WorkerId) {
    forall k :: 0 <= k < |events| ==> !ClaimBy(events[k], id, who) && !UpdateBy(events[k], id, who)
  }

  ghost predicate ForeignCalls(calls: seq<Call>, id: RunId, who: WorkerId) {
    forall k :: 0 <= k < |calls| ==> Foreign(calls[k].others, id, who)
  }

  /** The run as a committed success of the worker. */
  predicate CommittedBy(row: Run, who: WorkerId) {
    row.status.Succeeded? && row.worker == Some(who)
  }

  /** Foreign events never turn a run into a committed success of the worker. */
  lemma {:induction false} ForeignNeverCommits(rows: Table, events: seq<Event>, id: RunId, who: WorkerId)
    requires id in rows && Foreign(events, id, who) && TableInv(rows)
    ensures TableInv(History(rows, events))
    ensures CommittedBy(History(rows, events)[id], who) ==> CommittedBy(rows[id], who)
  {
    if events != [] {
      var (init, e) := (events[..|events| - 1], events[|events| - 1]);
      assert forall k :: 0 <= k < |init| ==> init[k] == events[k];
      hide Effect, RowInv, TableInv, CommittedBy, ClaimBy, UpdateBy;
      ForeignNeverCommits(rows, init, id, who);
      ForeignEvent(History(rows, init)[id], id, e, who);
      InvAfter(History(rows, init), e);
    }
  }

  lemma ForeignEvent(row: Run, id: RunId, e: Event, who: WorkerId)
    requires !ClaimBy(e, id, who) && !UpdateBy(e, id, who)
    ensures CommittedBy(Effect(row, id, e), who) ==> CommittedBy(row, who)
  {
  }

  lemma InvAfter(rows: Table, e: Event)
    requires TableInv(rows)
    ensures TableInv(Apply(rows, e))
  {
    hide Effect, RowInv;
    forall id | id in rows
      ensures RowInv(Apply(rows, e)[id])
    {
      EventKeepsRow(rows[id], id, e);
    }
  }

  lemma CheckpointCommitsNothing(row: Run, who: WorkerId, progress: int, now: int, lease: int)
    ensures var (after, verdict) := CheckpointRow(row, who, progress, now, lease);
      && (CommittedBy(after, who) ==> CommittedBy(row, who))
      && (verdict.VCancelled? ==> after.status.Cancelled? && row.status.CancelRequested?)
      && (verdict.VTimedOut? ==> after.status.TimedOut? && Passed(row.deadline, now))
      && (verdict.VLeaseLost? ==> after == row && !Holds(row, who))
  {
  }

  /** Success is reported exactly when the run ends as this worker's committed success; a stop
      reports the run's real state; `failed` is reported even when the run was already taken away,
      and then the run is left alone. */
  ghost predicate Truthful(table: Table, id: RunId, who: WorkerId, report: Report)
    requires id in table
  {
    var row := table[id];
    && (report.RunSucceeded? <==> CommittedBy(row, who))
    && (report.RunSucceeded? ==> forall i :: 0 <= i < |row.artifacts| ==> row.artifacts[i].0 == who)
    && (report == RunStopped(VCancelled) ==> row.status.Cancelled?)
    && (report == RunStopped(VTimedOut) ==> row.status.TimedOut?)
    && (report == RunStopped(VLeaseLost) || report == LeaseLost ==> !Holds(row, who))
    && (report.RunFailed? ==> !Holds(row, who))
  }

  lemma {:induction false} ReportIsTrue(
      rows: Table, id: RunId, who: WorkerId, lease: int, calls: seq<Call>, last: seq<Event>, ending: Ending)
    requires id in rows && TableInv(rows) && !CommittedBy(rows[id], who)
    requires ForeignCalls(calls, id, who) && Foreign(last, id, who)
    ensures var (table, report) := Drive(rows, id, who, lease, calls, last, ending);
      id in table && Truthful(table, id, who, report)
    decreases |calls|
  {
    hide RowInv, Effect, CheckpointRow, CompleteRow, FailRow, Foreign;
    if calls == [] {
      ForeignNeverCommits(rows, last, id, who);
      LastCall(History(rows, last)[id], id, who, ending);
    } else {
      var call := calls[0];
      var table := History(rows, call.others);
      var e := Checkpoint(id, who, call.progress, call.now, lease);
      ForeignNeverCommits(rows, call.others, id, who);
      CheckpointCommitsNothing(table[id], who, call.progress, call.now, lease);
      InvAfter(table, e);
      CheckpointEffect(table[id], id, who, call.progress, call.now, lease);
      if CheckpointRow(table[id], who, call.progress, call.now, lease).1.VRunning? {
        assert forall k :: 0 <= k < |calls[1..]| ==> calls[1..][k] == calls[k + 1];
        ReportIsTrue(Apply(table, e), id, who, lease, calls[1..], last, ending);
      }
    }
  }

  lemma CheckpointEffect(row: Run, id: RunId, who: WorkerId, progress: int, now: int, lease: int)
    ensures Effect(row, id, Checkpoint(id, who, progress, now, lease)) == CheckpointRow(row, who, progress, now, lease).0
  {
  }

  lemma LastCall(row: Run, id: RunId, who: WorkerId, ending: Ending)
    requires !CommittedBy(row, who)
    ensures match ending
      case Finish(output) =>
        var (after, ok) := CompleteRow(row, who, Artifacts(output));
        && Effect(row, id, Complete(id, who, Artifacts(output))) == after && (ok <==> CommittedBy(after, who)) && !Holds(after, who)
        && (ok ==> forall i :: 0 <= i < |after.artifacts| ==> after.artifacts[i].0 == who)
      case Raise =>
        var after := Effect(row, id, Fail(id, who));
        !CommittedBy(after, who) && !Holds(after, who)
  {
  }

  /** Reporting a failure changes the run exactly when the worker still held it. */
  lemma FailureTakesEffectIff(row: Run, id: RunId, who: WorkerId)
    requires RowInv(row)
    ensures Effect(row, id, Fail(id, who)) != row <==> Holds(row, who)
    ensures Holds(row, who) ==> Effect(row, id, Fail(id, who)).status.Failed?
  {
  }

  // ---------------------------------------------------------------- legs of a finished run

  lemma {:induction false} LegsStay(rows: Table, events: seq<Event>, id: RunId)
    requires id in rows
    ensures |History(rows, events)[id].legs| == |rows[id].legs|
  {
    if events != [] {
      LegsStay(rows, events[..|events| - 1], id);
    }
  }

  /** A committed computation over all legs leaves every leg succeeded. */
  lemma CommitClosesLegs(row: Run, who: WorkerId, output: Output)
    requires Covers(Finish(output), row) && CompleteRow(row, who, Artifacts(output)).1
    ensures LegsClosed(CompleteRow(row, who, Artifacts(output)).0.legs, Succeeded)
  {
    forall i: nat | i < |row.legs| {
      ArtifactsCloseAllLegs(output, i);
    }
    hide Artifacts, ClosesLeg;
  }

  /** A worker that reports success leaves every leg of its run succeeded. */
  lemma {:induction false} SuccessClosesEveryLeg(
      rows: Table, id: RunId, who: WorkerId, lease: int, calls: seq<Call>, last: seq<Event>, ending: Ending)
    requires id in rows && Covers(ending, rows[id])
    ensures var (table, report) := Drive(rows, id, who, lease, calls, last, ending);
      id in table && (report.RunSucceeded? ==> table[id].status.Succeeded? && LegsClosed(table[id].legs, Succeeded))
    decreases |calls|
  {
    hide Effect, CheckpointRow, CompleteRow, Artifacts, LegsClosed;
    if calls == [] {
      LegsStay(rows, last, id);
      var row := History(rows, last)[id];
      if ending.Finish? && CompleteRow(row, who, Artifacts(ending.output)).1 {
        CommitClosesLegs(row, who, ending.output);
        CommitEffect(row, id, who, Artifacts(ending.output));
      }
    } else {
      var call := calls[0];
      var table := History(rows, call.others);
      LegsStay(rows, call.others, id);
      CheckpointEffect(table[id], id, who, call.progress, call.now, lease);
      CheckpointKeepsLegs(table[id], who, call.progress, call.now, lease);
      if CheckpointRow(table[id], who, call.progress, call.now, lease).1.VRunning? {
        var e := Checkpoint(id, who, call.progress, call.now, lease);
        SuccessClosesEveryLeg(Apply(table, e), id, who, lease, calls[1..], last, ending);
      }
    }
  }

  lemma CommitEffect(row: Run, id: RunId, who: WorkerId, artifacts: seq<Artifact>)
    ensures Effect(row, id, Complete(id, who, artifacts)) == CompleteRow(row, who, artifacts).0
    ensures CompleteRow(row, who, artifacts).1 ==> CompleteRow(row, who, artifacts).0.status.Succeeded?
  {
  }

  lemma CheckpointKeepsLegs(row: Run, who: WorkerId, progress: int, now: int, lease: int)
    ensures |CheckpointRow(row, who, progress, now, lease).0.legs| == |row.legs|
  {
  }

  /** Every completion attempted in the history stores a computation over all legs of its run. */
  ghost predicate WorkersComplete(rows: Table, events: seq<Event>) {
    forall k :: 0 <= k < |events| ==> CompletesAllLegs(rows, events[k])
  }

  ghost predicate CompletesAllLegs(rows: Table, e: Event) {
    e.Complete? && e.id in rows ==>
      exists output :: e.artifacts == Artifacts(output) && LegCount(output) == |rows[e.id].legs|
  }

  ghost predicate LegsFollow(row: Run) {
    row.status.Terminal() ==> LegsClosed(row.legs, row.status)
  }

  lemma EventClosesLegs(rows: Table, row: Run, id: RunId, e: Event)
    requires id in rows && |row.legs| == |rows[id].legs|
    requires RowInv(row) && LegsFollow(row) && CompletesAllLegs(rows, e)
    ensures LegsFollow(Effect(row, id, e))
  {
    EventKeepsRow(row, id, e);
    if e.Complete? && e.id == id && CompleteRow(row, e.who, e.artifacts).1 {
      var output :| e.artifacts == Artifacts(output) && LegCount(output) == |row.legs|;
      CommitClosesLegs(row, e.who, output);
    }
  }

  /** While workers commit what they compute, in every interleaving a run that has ended has all
      its legs ended with its own status. */
  lemma {:induction false} EndedRunsHaveEndedLegs(rows: Table, events: seq<Event>, id: RunId)
    requires AllEnqueued(rows) && id in rows && WorkersComplete(rows, events)
    ensures LegsFollow(History(rows, events)[id])
  {
    if events != [] {
      var shorter := events[..|events| - 1];
      EndedRunsHaveEndedLegs(rows, shorter, id);
      ReachableTables(rows, shorter);
      LegsStay(rows, shorter, id);
      EventClosesLegs(rows, History(rows, shorter)[id], id, events[|events| - 1]);
    }
  }
}
