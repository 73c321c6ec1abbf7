/** The backtest run queue (quant-worker/backtest/run_repository.py and the cancel endpoint in
    src/lib/backend/quant-runs.ts). Each repository call is one transaction, so a history is a
    sequence of atomic events by any number of workers; `now` is the clock an event reads. */
module RunProtocol {
  import opened Prelude

  const MAX_ATTEMPTS := 3

  type RunId = nat
  type WorkerId = string

  datatype Status = Queued | Running | CancelRequested | Succeeded | Failed | Cancelled | TimedOut {
    predicate Terminal() { Succeeded? || Failed? || Cancelled? || TimedOut? }
    predicate Open() { Queued? || Running? }
  }

  datatype Leg = Leg(status: Status, progress: int)

  /** `leg` is the index of the leg it belongs to; only leg artifacts with metrics close a leg. */
  datatype Artifact = Artifact(kind: string, leg: Option<nat>, hasMetrics: bool)

  datatype Run = Run(
    status: Status, progress: int, worker: Option<WorkerId>, lease: Option<int>, attempts: nat,
    deadline: Option<int>, createdAt: int, supported: bool, legs: seq<Leg>, artifacts: seq<(WorkerId, Artifact)>)

  datatype Event =
    | Recover(now: int)
    | Claim(id: RunId, who: WorkerId, now: int, leaseSeconds: int)
    | Checkpoint(id: RunId, who: WorkerId, progress: int, now: int, leaseSeconds: int)
    | Complete(id: RunId, who: WorkerId, artifacts: seq<Artifact>)
    | Fail(id: RunId, who: WorkerId)
    | Cancel(id: RunId)

  // ---------------------------------------------------------------- one row, one statement

  function Passed(at: Option<int>, now: int): bool {
    at.Some? && at.value <= now
  }

  /** Close the legs that are still open. */
  function CloseLegs(legs: seq<Leg>, status: Status): (r: seq<Leg>)
    ensures |r| == |legs|
    ensures forall i :: 0 <= i < |r| ==> r[i] == if legs[i].status.Open() then Leg(status, 100) else legs[i]
  {
    seq(|legs|, i requires 0 <= i < |legs| => if legs[i].status.Open() then Leg(status, 100) else legs[i])
  }

  /** Close the legs that still wait. */
  function CloseWaitingLegs(legs: seq<Leg>, status: Status): (r: seq<Leg>)
    ensures |r| == |legs|
    ensures forall i :: 0 <= i < |r| ==> r[i] == if legs[i].status.Queued? then Leg(status, 100) else legs[i]
  {
    seq(|legs|, i requires 0 <= i < |legs| => if legs[i].status.Queued? then Leg(status, 100) else legs[i])
  }

  function AdvanceLegs(legs: seq<Leg>, progress: int): (r: seq<Leg>)
    ensures |r| == |legs|
    ensures forall i :: 0 <= i < |r| ==> r[i] == if legs[i].status.Open()
        then Leg(Running, if legs[i].progress >= progress then legs[i].progress else progress) else legs[i]
  {
    seq(|legs|, i requires 0 <= i < |legs| => if legs[i].status.Open()
        then Leg(Running, if legs[i].progress >= progress then legs[i].progress else progress) else legs[i])
  }

  /** A completed leg artifact with metrics closes its leg. */
  predicate ClosesLeg(artifacts: seq<Artifact>, i: nat) {
    exists a | 0 <= a < |artifacts| :: artifacts[a].leg == Some(i) && artifacts[a].hasMetrics
  }

  function SucceedLegs(legs: seq<Leg>, artifacts: seq<Artifact>): (r: seq<Leg>)
    ensures |r| == |legs|
    ensures forall i :: 0 <= i < |r| ==> r[i] == if ClosesLeg(artifacts, i) then Leg(Succeeded, 100) else legs[i]
  {
    seq(|legs|, i requires 0 <= i < |legs| => if ClosesLeg(artifacts, i) then Leg(Succeeded, 100) else legs[i])
  }

  function End(row: Run, status: Status): Run {
    row.(status := status, progress := 100, lease := None)
  }

  predicate Stale(row: Run, now: int) {
    || (row.status.CancelRequested? && (row.lease.None? || row.lease.value <= now))
    || (row.status.Queued? && Passed(row.deadline, now))
    || (row.status.Running? && (Passed(row.deadline, now) || (Passed(row.lease, now) && row.attempts >= MAX_ATTEMPTS)))
  }

  function RecoverRow(row: Run, now: int): Run {
    var ended := if !Stale(row, now) then row
                 else End(row, if row.status.CancelRequested? then Cancelled else TimedOut);
    if ended.status.Cancelled? || ended.status.TimedOut? then ended.(legs := CloseLegs(ended.legs, ended.status))
    else ended
  }

  predicate Claimable(row: Run, now: int) {
    && (row.status.Queued? || (row.status.Running? && Passed(row.lease, now) && row.attempts < MAX_ATTEMPTS))
    && !Passed(row.deadline, now)
    && row.supported
  }

  function ClaimRow(row: Run, who: WorkerId, now: int, leaseSeconds: int): Run {
    row.(status := Running, progress := if row.progress >= 5 then row.progress else 5, worker := Some(who),
         lease := Some(now + leaseSeconds), attempts := row.attempts + 1)
  }

  function Bounded(progress: int): int {
    if progress < 5 then 5 else if progress > 99 then 99 else progress
  }

  datatype Verdict = VCancelled | VTimedOut | VRunning | VLeaseLost

  function CheckpointRow(row: Run, who: WorkerId, progress: int, now: int, leaseSeconds: int): (Run, Verdict) {
    if row.worker != Some(who) then (row, VLeaseLost)
    else if row.status.CancelRequested? then
      (End(row, Cancelled).(legs := CloseLegs(row.legs, Cancelled)), VCancelled)
    else if row.status.Running? && Passed(row.deadline, now) then
      (End(row, TimedOut).(legs := CloseLegs(row.legs, TimedOut)), VTimedOut)
    else if row.status.Running? then
      var p := Bounded(progress);
      (row.(progress := if row.progress >= p then row.progress else p, lease := Some(now + leaseSeconds),
            legs := AdvanceLegs(row.legs, p)), VRunning)
    else (row, VLeaseLost)
  }

  predicate Holds(row: Run, who: WorkerId) {
    row.status.Running? && row.worker == Some(who)
  }

  function Signed(who: WorkerId, artifacts: seq<Artifact>): (r: seq<(WorkerId, Artifact)>)
    ensures |r| == |artifacts| && forall i :: 0 <= i < |r| ==> r[i] == (who, artifacts[i])
  {
    seq(|artifacts|, i requires 0 <= i < |artifacts| => (who, artifacts[i]))
  }

  /** The earlier artifacts of the run are deleted before the new ones are stored. */
  function CompleteRow(row: Run, who: WorkerId, artifacts: seq<Artifact>): (Run, bool) {
    if !Holds(row, who) then (row, false)
    else (End(row, Succeeded).(legs := SucceedLegs(row.legs, artifacts), artifacts := Signed(who, artifacts)), true)
  }

  function FailRow(row: Run, who: WorkerId): Run {
    if !Holds(row, who) then row else End(row, Failed).(legs := CloseLegs(row.legs, Failed))
  }

  function CancelRow(row: Run): Run {
    if row.status.Queued? then End(row, Cancelled).(legs := CloseWaitingLegs(row.legs, Cancelled))
    else if row.status.Running? then row.(status := CancelRequested)
    else row
  }

  /** What an event does to the run `id`. */
  function Effect(row: Run, id: RunId, e: Event): Run {
    match e
    case Recover(now) => RecoverRow(row, now)
    case Claim(eid, who, now, lease) => if eid == id && Claimable(row, now) then ClaimRow(row, who, now, lease) else row
    case Checkpoint(eid, who, progress, now, lease) => if eid == id then CheckpointRow(row, who, progress, now, lease).0 else row
    case Complete(eid, who, artifacts) => if eid == id then CompleteRow(row, who, artifacts).0 else row
    case Fail(eid, who) => if eid == id then FailRow(row, who) else row
    case Cancel(eid) => if eid == id then CancelRow(row) else row
  }

  type Table = map<RunId, Run>

  function Apply(rows: Table, e: Event): (r: Table)
    ensures r.Keys == rows.Keys
    ensures forall id :: id in rows ==> r[id] == Effect(rows[id], id, e)
  {
    map id | id in rows :: Effect(rows[id], id, e)
  }

  function History(rows: Table, events: seq<Event>): (r: Table)
    ensures r.Keys == rows.Keys
  {
    if events == [] then rows else Apply(History(rows, events[..|events| - 1]), events[|events| - 1])
  }

  // ---------------------------------------------------------------- the repository

  /** The quant_runs table and the calls workers and the cancel endpoint make on it. */
  class RunRepository {
    var rows: Table

    method RecoverStaleRuns(now: int) returns (recovered: nat)
      modifies this
      ensures rows == Apply(old(rows), Recover(now))
      ensures recovered == |set id | id in old(rows) && Stale(old(rows)[id], now)|
    {
      recovered := |set id | id in rows && Stale(rows[id], now)|;
      rows := map id | id in rows :: RecoverRow(rows[id], now);
    }

    /** The oldest claimable run; rows locked by other claims are the ones already taken. */
    method ClaimNextRun(who: WorkerId, now: int, leaseSeconds: int) returns (claimed: Option<RunId>)
      modifies this
      ensures claimed.None? ==> rows == old(rows) && forall id :: id in rows ==> !Claimable(rows[id], now)
      ensures claimed.Some? ==>
          && claimed.value in old(rows) && Claimable(old(rows)[claimed.value], now)
          && (forall id :: id in old(rows) && Claimable(old(rows)[id], now) ==>
                old(rows)[claimed.value].createdAt <= old(rows)[id].createdAt)
          && rows == Apply(old(rows), Claim(claimed.value, who, now, leaseSeconds))
    {
      var candidates := set id | id in rows && Claimable(rows[id], now);
      claimed := None;
      var rest := candidates;
      while rest != {}
        invariant rest <= candidates
        invariant claimed.None? ==> rest == candidates
        invariant claimed.Some? ==> claimed.value in candidates
        invariant claimed.Some? ==> forall id :: id in candidates - rest ==> rows[claimed.value].createdAt <= rows[id].createdAt
        decreases rest
      {
        var id :| id in rest;
        if claimed.None? || rows[id].createdAt < rows[claimed.value].createdAt {
          claimed := Some(id);
        }
        rest := rest - {id};
      }
      forall id | id in rows && Claimable(rows[id], now)
        ensures claimed.Some?
      {
        assert id in candidates;
      }
      if claimed.Some? {
        rows := rows[claimed.value := ClaimRow(rows[claimed.value], who, now, leaseSeconds)];
        assert rows == Apply(old(rows), Claim(claimed.value, who, now, leaseSeconds));
      }
    }

    method CheckpointRun(id: RunId, who: WorkerId, progress: int, now: int, leaseSeconds: int) returns (verdict: Verdict)
      requires id in rows
      modifies this
      ensures rows == Apply(old(rows), Checkpoint(id, who, progress, now, leaseSeconds))
      ensures verdict == CheckpointRow(old(rows)[id], who, progress, now, leaseSeconds).1
    {
      var row := rows[id];
      if row.status.CancelRequested? && row.worker == Some(who) {
        rows := rows[id := End(row, Cancelled).(legs := CloseLegs(row.legs, Cancelled))];
        verdict := VCancelled;
      } else if row.status.Running? && row.worker == Some(who) && Passed(row.deadline, now) {
        rows := rows[id := End(row, TimedOut).(legs := CloseLegs(row.legs, TimedOut))];
        verdict := VTimedOut;
      } else if row.status.Running? && row.worker == Some(who) {
        var p := Bounded(progress);
        rows := rows[id := row.(progress := if row.progress >= p then row.progress else p,
                                lease := Some(now + leaseSeconds), legs := AdvanceLegs(row.legs, p))];
        verdict := VRunning;
      } else {
        verdict := VLeaseLost;
      }
      assert rows == Apply(old(rows), Checkpoint(id, who, progress, now, leaseSeconds));
    }

    method CompleteRun(id: RunId, who: WorkerId, artifacts: seq<Artifact>) returns (committed: bool)
      requires id in rows
      modifies this
      ensures rows == Apply(old(rows), Complete(id, who, artifacts))
      ensures committed <==> Holds(old(rows)[id], who)
    {
      var row := rows[id];
      committed := row.status.Running? && row.worker == Some(who);
      if committed {
        rows := rows[id := End(row, Succeeded).(legs := SucceedLegs(row.legs, artifacts), artifacts := Signed(who, artifacts))];
      }
      assert rows == Apply(old(rows), Complete(id, who, artifacts));
    }

    method FailRun(id: RunId, who: WorkerId) returns (failed: bool)
      requires id in rows
      modifies this
      ensures rows == Apply(old(rows), Fail(id, who))
      ensures failed <==> Holds(old(rows)[id], who)
    {
      var row := rows[id];
      failed := row.status.Running? && row.worker == Some(who);
      if failed {
        rows := rows[id := End(row, Failed).(legs := CloseLegs(row.legs, Failed))];
      }
      assert rows == Apply(old(rows), Fail(id, who));
    }

    method CancelRun(id: RunId)
      requires id in rows
      modifies this
      ensures rows == Apply(old(rows), Cancel(id))
    {
      var row := rows[id];
      if row.status.Queued? {
        rows := rows[id := End(row, Cancelled).(legs := CloseWaitingLegs(row.legs, Cancelled))];
      } else if row.status.Running? {
        rows := rows[id := row.(status := CancelRequested)];
      }
      assert rows == Apply(old(rows), Cancel(id));
    }
  }

  // ---------------------------------------------------------------- invariant

  ghost predicate LegsOpen(legs: seq<Leg>) {
    forall i :: 0 <= i < |legs| ==> legs[i].status.Open() && 0 <= legs[i].progress < 100
  }

  ghost predicate LegsWaiting(legs: seq<Leg>) {
    forall i :: 0 <= i < |legs| ==> legs[i].status.Queued?
  }

  ghost predicate LegsClosed(legs: seq<Leg>, status: Status) {
    forall i :: 0 <= i < |legs| ==> legs[i] == Leg(status, 100)
  }

  ghost predicate LegSettledOrOpen(leg: Leg) {
    leg == Leg(Succeeded, 100) || (leg.status.Open() && 0 <= leg.progress < 100)
  }

  /** A run as it is enqueued. */
  ghost predicate Enqueued(row: Run) {
    && row.status.Queued? && row.progress == 0 && row.worker.None? && row.lease.None? && row.attempts == 0
    && row.artifacts == [] && forall i :: 0 <= i < |row.legs| ==> row.legs[i] == Leg(Queued, 0)
  }

  ghost predicate RowInv(row: Run) {
    && row.attempts <= MAX_ATTEMPTS
    && 0 <= row.progress <= 100
    && (row.progress == 100 <==> row.status.Terminal())
    && (row.status.Queued? <==> row.attempts == 0 && !row.status.Terminal())
    && (row.status.Running? || row.status.CancelRequested? ==> row.worker.Some? && row.lease.Some? && row.progress >= 5)
    && (row.status.Terminal() ==> row.lease.None?)
    && (row.artifacts != [] ==> row.status.Succeeded?)
    && (forall i :: 0 <= i < |row.artifacts| ==> row.worker == Some(row.artifacts[i].0))
    && (!row.status.Terminal() ==> LegsOpen(row.legs))
    && (row.status.Queued? ==> row.worker.None? && LegsWaiting(row.legs))
    && (row.status.Failed? || row.status.Cancelled? || row.status.TimedOut? ==> LegsClosed(row.legs, row.status))
    && (row.status.Succeeded? ==>
          forall i :: 0 <= i < |row.legs| ==> LegSettledOrOpen(row.legs[i]))
  }

  /** The transitions the web side documents in src/lib/backend/quant.ts, and staying put. */
  predicate Documented(from: Status, to: Status) {
    || from == to
    || (from.Queued? && (to.Running? || to.Failed? || to.Cancelled? || to.TimedOut?))
    || (from.Running? && (to.Succeeded? || to.Failed? || to.CancelRequested? || to.TimedOut?))
    || (from.CancelRequested? && (to.Cancelled? || to.TimedOut?))
  }

  /** What every event keeps, row by row. */
  lemma EventKeepsRow(row: Run, id: RunId, e: Event)
    requires RowInv(row)
    ensures var after := Effect(row, id, e);
      && RowInv(after)
      && Documented(row.status, after.status)
      && row.progress <= after.progress
      && row.attempts <= after.attempts
      && (row.status.Terminal() ==> after == row)
      && (row.status.CancelRequested? ==> after.status.CancelRequested? || after.status.Cancelled?)
  {
    var after := Effect(row, id, e);
    if row.status.Terminal() && e.Recover? && !row.status.Succeeded? && !row.status.Failed? {
      assert CloseLegs(row.legs, row.status) == row.legs;
    }
  }

  ghost predicate TableInv(rows: Table) {
    forall id :: id in rows ==> RowInv(rows[id])
  }

  ghost predicate AllEnqueued(rows: Table) {
    forall id :: id in rows ==> Enqueued(rows[id])
  }

  /** The invariant holds in every reachable table. */
  lemma {:induction false} ReachableTables(rows: Table, events: seq<Event>)
    requires AllEnqueued(rows)
    ensures TableInv(History(rows, events))
  {
    if events != [] {
      var before, e := History(rows, events[..|events| - 1]), events[|events| - 1];
      ReachableTables(rows, events[..|events| - 1]);
      forall id | id in rows
        ensures RowInv(History(rows, events)[id])
      {
        EventKeepsRow(before[id], id, e);
      }
    }
  }

  // ---------------------------------------------------------------- whole histories

  /** From any consistent table: progress and attempts only grow, terminal runs are frozen, and a
      run whose cancellation was requested is never anything but that or cancelled. */
  lemma {:induction false} HistoryOfOneRun(rows: Table, events: seq<Event>, id: RunId)
    requires TableInv(rows) && id in rows
    ensures var (first, last) := (rows[id], History(rows, events)[id]);
      && RowInv(last)
      && first.progress <= last.progress && first.attempts <= last.attempts <= MAX_ATTEMPTS
      && (first.status.Terminal() ==> last == first)
      && (first.status.CancelRequested? ==> last.status.CancelRequested? || last.status.Cancelled?)
  {
    if events != [] {
      HistoryOfOneRun(rows, events[..|events| - 1], id);
      EventKeepsRow(History(rows, events[..|events| - 1])[id], id, events[|events| - 1]);
    }
  }

  /** How often the run was really claimed. */
  ghost function ClaimsOf(rows: Table, events: seq<Event>, id: RunId): nat
    requires id in rows
  {
    if events == [] then 0
    else
      var before, e := History(rows, events[..|events| - 1]), events[|events| - 1];
      ClaimsOf(rows, events[..|events| - 1], id)
      + (if e.Claim? && e.id == id && Claimable(before[id], e.now) then 1 else 0)
  }

  /** How many completions reported success. */
  ghost function CommitsOf(rows: Table, events: seq<Event>, id: RunId): nat
    requires id in rows
  {
    if events == [] then 0
    else
      var before, e := History(rows, events[..|events| - 1]), events[|events| - 1];
      CommitsOf(rows, events[..|events| - 1], id)
      + (if e.Complete? && e.id == id && CompleteRow(before[id], e.who, e.artifacts).1 then 1 else 0)
  }

  /** The attempt counter counts the claims, so no run is claimed more than three times, and it is
      committed at most once, exactly when it ends succeeded. */
  lemma {:induction false} ClaimsAndCommits(rows: Table, events: seq<Event>, id: RunId)
    requires AllEnqueued(rows) && id in rows
    ensures var last := History(rows, events)[id];
      && last.attempts == ClaimsOf(rows, events, id) <= MAX_ATTEMPTS
      && CommitsOf(rows, events, id) == (if last.status.Succeeded? then 1 else 0)
  {
    hide Effect, RowInv, Claimable, CompleteRow;
    if events == [] {
      FreshRow(rows[id]);
    } else {
      var shorter := events[..|events| - 1];
      ClaimsAndCommits(rows, shorter, id);
      ReachableTables(rows, shorter);
      EventCounts(History(rows, shorter)[id], id, events[|events| - 1]);
    }
  }

  lemma FreshRow(row: Run)
    requires Enqueued(row)
    ensures RowInv(row) && row.attempts == 0 && !row.status.Succeeded?
  {
  }

  lemma EventCounts(row: Run, id: RunId, e: Event)
    requires RowInv(row)
    ensures var after := Effect(row, id, e);
      && after.attempts == row.attempts + (if e.Claim? && e.id == id && Claimable(row, e.now) then 1 else 0)
      && after.attempts <= MAX_ATTEMPTS
      && (e.Complete? && e.id == id && CompleteRow(row, e.who, e.artifacts).1 ==>
            !row.status.Succeeded? && after.status.Succeeded?)
      && (!(e.Complete? && e.id == id && CompleteRow(row, e.who, e.artifacts).1) ==>
            (row.status.Succeeded? <==> after.status.Succeeded?))
  {
  }

  /** An update the worker attempts on a run it believes to hold. */
  predicate UpdateBy(e: Event, id: RunId, who: WorkerId) {
    match e
    case Checkpoint(eid, holder, _, _, _) => eid == id && holder == who
    case Complete(eid, holder, _) => eid == id && holder == who
    case Fail(eid, holder) => eid == id && holder == who
    case _ => false
  }

  predicate ClaimBy(e: Event, id: RunId, who: WorkerId) {
    e.Claim? && e.id == id && e.who == who
  }

  ghost function WithoutUpdatesBy(events: seq<Event>, id: RunId, who: WorkerId): seq<Event> {
    if events == [] then []
    else
      WithoutUpdatesBy(events[..|events| - 1], id, who)
      + (if UpdateBy(events[|events| - 1], id, who) then [] else [events[|events| - 1]])
  }

  /** A worker that does not hold the run and does not claim it again changes nothing: the history
      is the one in which its updates never happened. */
  lemma {:induction false} SupersededWorkerIsSilent(rows: Table, events: seq<Event>, id: RunId, who: WorkerId)
    requires id in rows && rows[id].worker != Some(who)
    requires forall k :: 0 <= k < |events| ==> !ClaimBy(events[k], id, who)
    ensures History(rows, events)[id] == History(rows, WithoutUpdatesBy(events, id, who))[id]
    ensures History(rows, events)[id].worker != Some(who)
  {
    hide Effect;
    if events != [] {
      var shorter, e := events[..|events| - 1], events[|events| - 1];
      SupersededUpdate(History(rows, shorter)[id], id, e, who);
      SupersededWorkerIsSilent(rows, shorter, id, who);
      var kept := WithoutUpdatesBy(shorter, id, who);
      if UpdateBy(e, id, who) {
        assert WithoutUpdatesBy(events, id, who) == kept;
      } else {
        assert WithoutUpdatesBy(events, id, who) == kept + [e];
        assert (kept + [e])[..|kept|] == kept;
      }
    }
  }

  lemma SupersededUpdate(row: Run, id: RunId, e: Event, who: WorkerId)
    requires row.worker != Some(who) ==> !ClaimBy(e, id, who)
    ensures row.worker != Some(who) ==> Effect(row, id, e).worker != Some(who)
    ensures row.worker != Some(who) && UpdateBy(e, id, who) ==> Effect(row, id, e) == row
  {
  }

  /** While a worker's lease runs, no one else takes a running run from it. */
  lemma LeaseExcludesOthers(row: Run, id: RunId, e: Event)
    requires RowInv(row) && row.status.Running? && e.Claim? && e.now < row.lease.value
    ensures Effect(row, id, e) == row
  {
  }

  /** A claim gives the worker the run for the whole lease: nobody can claim it before the lease
      ends, and afterwards only while attempts and deadline allow. */
  lemma ClaimGivesLease(row: Run, id: RunId, who: WorkerId, now: int, leaseSeconds: int, later: int)
    requires RowInv(row) && Claimable(row, now)
    ensures var after := Effect(row, id, Claim(id, who, now, leaseSeconds));
      && Holds(after, who) && after.attempts == row.attempts + 1
      && after == row.(status := Running, progress := after.progress, worker := Some(who),
                       lease := Some(now + leaseSeconds), attempts := row.attempts + 1)
      && after.progress >= 5 && after.progress >= row.progress && (after.progress == 5 || after.progress == row.progress)
      && (Claimable(after, later) <==>
            now + leaseSeconds <= later && row.attempts + 1 < MAX_ATTEMPTS && !Passed(row.deadline, later))
  {
  }

  /** Each verdict of a checkpoint, exactly when it is given and what it leaves; a running verdict
      renews the lease. */
  lemma CheckpointVerdicts(row: Run, who: WorkerId, progress: int, now: int, leaseSeconds: int, later: int)
    requires RowInv(row)
    ensures var (after, verdict) := CheckpointRow(row, who, progress, now, leaseSeconds);
      && (verdict.VCancelled? <==> row.worker == Some(who) && row.status.CancelRequested?)
      && (verdict.VTimedOut? <==> Holds(row, who) && Passed(row.deadline, now))
      && (verdict.VRunning? <==> Holds(row, who) && !Passed(row.deadline, now))
      && (verdict.VCancelled? ==> after.status.Cancelled? && LegsClosed(after.legs, Cancelled))
      && (verdict.VTimedOut? ==> after.status.TimedOut? && LegsClosed(after.legs, TimedOut))
      && (verdict.VRunning? ==> Holds(after, who) && (Claimable(after, later) ==> now + leaseSeconds <= later))
      && (verdict.VRunning? ==>
            && after.lease == Some(now + leaseSeconds)
            && after.progress == (if progress <= row.progress then row.progress else if progress <= 99 then progress else 99)
            && forall i :: 0 <= i < |row.legs| && row.legs[i].status.Open() ==>
                 after.legs[i].status.Running? && after.legs[i].progress >= row.legs[i].progress && 5 <= after.legs[i].progress <= 99)
  {
  }

  /** Recovery leaves nothing stale behind, and repeating it changes nothing. */
  lemma RecoveryIsComplete(rows: Table, now: int)
    requires TableInv(rows)
    ensures forall id :: id in rows ==> !Stale(Apply(rows, Recover(now))[id], now)
    ensures Apply(Apply(rows, Recover(now)), Recover(now)) == Apply(rows, Recover(now))
  {
    hide RowInv, RecoverRow;
    forall id | id in rows
      ensures !Stale(Apply(rows, Recover(now))[id], now)
      ensures Apply(Apply(rows, Recover(now)), Recover(now))[id] == Apply(rows, Recover(now))[id]
    {
      RecoverTwice(rows[id], now);
    }
  }

  lemma RecoverTwice(row: Run, now: int)
    requires RowInv(row)
    ensures !Stale(RecoverRow(row, now), now) && RecoverRow(RecoverRow(row, now), now) == RecoverRow(row, now)
  {
    var after := RecoverRow(row, now);
    if after.status.Cancelled? || after.status.TimedOut? {
      assert CloseLegs(after.legs, after.status) == after.legs;
    }
  }

  /** A commit closes exactly the legs for which it stores an artifact with metrics. */
  lemma CommitClosesMeasuredLegs(row: Run, who: WorkerId, artifacts: seq<Artifact>)
    requires RowInv(row) && CompleteRow(row, who, artifacts).1
    ensures var after := CompleteRow(row, who, artifacts).0;
      forall i :: 0 <= i < |after.legs| ==> (after.legs[i].status.Terminal() <==> ClosesLeg(artifacts, i))
  {
  }

  // ---------------------------------------------------------------- who may do what with a run

  /** A queued or running run of a supported kind is in exactly one of four states, told from its
      deadline, lease and attempts: past its deadline it waits for recovery, and nobody claims it;
      before it a queued run can be claimed; a running one is left to its worker until the lease ends,
      then it can be claimed again while it had fewer than three attempts, and afterwards recovery
      ends it. */
  lemma LifeOfARun(row: Run, now: int)
    requires RowInv(row) && row.supported && (row.status.Queued? || row.status.Running?)
    ensures var late := row.deadline.Some? && row.deadline.value <= now;
      var leased := row.status.Running? && now < row.lease.value;
      && (RecoverRow(row, now).status.Terminal() <==> late || (row.status.Running? && !leased && row.attempts == 3))
      && (Claimable(row, now) <==> !late && (row.status.Queued? || (!leased && row.attempts < 3)))
      && (RecoverRow(row, now).status.Terminal() ==> RecoverRow(row, now).status.TimedOut?)
      && (!RecoverRow(row, now).status.Terminal() ==> RecoverRow(row, now) == row)
  {
  }

  /** Recovery ends a run exactly when nobody can claim it any more although its time is up. */
  lemma RecoveryLeavesClaimable(row: Run, now: int)
    requires RowInv(row) && row.supported && (row.status.Queued? || row.status.Running?)
    ensures RecoverRow(row, now).status.Terminal() <==>
        !Claimable(row, now) && (Passed(row.deadline, now) || Passed(row.lease, now))
  {
  }

  /** A requested cancellation is completed by recovery once the lease of its worker has ended, and is
      left to that worker before. Ended runs are left alone. */
  lemma RecoveryCompletesCancellation(row: Run, now: int)
    requires RowInv(row)
    ensures row.status.CancelRequested? ==>
        && (row.lease.value <= now ==> RecoverRow(row, now).status.Cancelled?)
        && (now < row.lease.value ==> RecoverRow(row, now) == row)
    ensures row.status.Terminal() ==> RecoverRow(row, now) == row
  {
    if row.status.Cancelled? || row.status.TimedOut? {
      assert CloseLegs(row.legs, row.status) == row.legs;
    }
  }

  /** A run of an unsupported kind is never claimed. */
  lemma UnsupportedIsNeverClaimed(row: Run, now: int)
    requires !row.supported
    ensures !Claimable(row, now)
  {
  }

  /** A cancellation ends a waiting run at once, with its legs; of a running one it leaves everything
      but the status to the worker; and it comes too late for any other. */
  lemma CancellationReaches(row: Run, id: RunId)
    requires RowInv(row)
    ensures var after := Effect(row, id, Cancel(id));
      && (row.status.Queued? ==> after.status.Cancelled? && after.progress == 100 && LegsClosed(after.legs, Cancelled))
      && (row.status.Running? ==> after.status.CancelRequested? && row == after.(status := Running))
      && (!row.status.Queued? && !row.status.Running? ==> after == row)
  {
  }

  /** A call that names another run leaves a run alone. */
  lemma OtherRunsStay(row: Run, id: RunId, e: Event)
    requires !e.Recover? && e.id != id
    ensures Effect(row, id, e) == row
  {
  }

  /** What each way of ending a run leaves: full progress, no lease, its worker, and legs of its kind. */
  lemma EndingsAreComplete(row: Run, who: WorkerId, artifacts: seq<Artifact>)
    requires RowInv(row) && Holds(row, who)
    ensures var (failed, committed) := (FailRow(row, who), CompleteRow(row, who, artifacts).0);
      && failed.status.Failed? && failed.progress == 100 && failed.lease.None? && failed.worker == Some(who)
      && LegsClosed(failed.legs, Failed) && failed.artifacts == []
      && committed.status.Succeeded? && committed.progress == 100 && committed.lease.None? && committed.worker == Some(who)
      && |committed.artifacts| == |artifacts| && forall i :: 0 <= i < |artifacts| ==> committed.artifacts[i] == (who, artifacts[i])
  {
  }
}
