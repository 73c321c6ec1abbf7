/** The worker of the ingestion request queue (`process_next_ingestion_request` in
    quant-worker/process_ingestion_requests.py): claim, prepare, publish, complete, while its lease
    heartbeat and other workers act on the same table. Publishing is not guarded by the lease. */
module IngestionWorker {
  import opened Prelude
  import opened RequestProtocol

  /** A dataset version a worker published in one of its claims. */
  datatype Publication = Publication(id: RequestId, worker: WorkerId, attempt: nat, version: string)

  /** The table, what each worker has published since its latest claim, and all publications. */
  datatype World = World(store: Store, pending: map<WorkerId, string>, log: seq<Publication>)

  datatype Step = Do(e: Event) | Publish(worker: WorkerId, version: string)

  /** A worker completes its request only with the version it just published. */
  predicate Possible(w: World, step: Step) {
    match step
    case Do(e) => e.Complete? ==> e.worker in w.pending && w.pending[e.worker] == e.version
    case Publish(worker, _) => worker in w.store.tickets && worker !in w.pending
  }

  function Next(w: World, step: Step): World {
    if !Possible(w, step) then w
    else match step
      case Do(e) =>
        w.(store := Apply(w.store, e),
           pending := if e.Claim? && Enabled(w.store, e) then w.pending - {e.worker} else w.pending)
      case Publish(worker, version) =>
        var ticket := w.store.tickets[worker];
        w.(pending := w.pending[worker := version], log := w.log + [Publication(ticket.id, worker, ticket.attempts, version)])
  }

  function Steps(w: World, steps: seq<Step>): World {
    if steps == [] then w else Next(Steps(w, steps[..|steps| - 1]), steps[|steps| - 1])
  }

  // ---------------------------------------------------------------- who published what

  ghost predicate Named(w: World, id: RequestId) {
    id in w.store.requests && w.store.requests[id].status.Succeeded? ==>
      var row := w.store.requests[id];
      && row.worker.Some? && row.version.Some?
      && Publication(id, row.worker.value, row.attempts, row.version.value) in w.log
  }

  ghost predicate PendingLogged(w: World, worker: WorkerId) {
    worker in w.pending ==>
      && worker in w.store.tickets
      && Publication(w.store.tickets[worker].id, worker, w.store.tickets[worker].attempts, w.pending[worker]) in w.log
  }

  ghost predicate WorldInv(w: World) {
    Inv(w.store) && (forall id :: Named(w, id)) && (forall worker :: PendingLogged(w, worker))
  }

  lemma ApplyKeepsInv(s: Store, e: Event)
    requires Inv(s)
    ensures Inv(Apply(s, e))
  {
    hide Enabled, RowAfter, RowInv, OneActivePerKey, TicketInv;
    EventKeepsTickets(s, e);
    EventKeepsKeys(s, e);
    forall id | id in Apply(s, e).requests
      ensures RowInv(Apply(s, e).requests[id])
    {
      if id in s.requests {
        if Enabled(s, e) {
          EventKeepsRows(s, e, id);
        }
      } else {
        NewRequestInv(e.key, e.now);
      }
    }
  }

  /** How a row comes to be succeeded: it was before, or its worker completed it just now. */
  lemma SucceededBy(s: Store, e: Event, id: RequestId)
    requires Inv(s) && id in Apply(s, e).requests && Apply(s, e).requests[id].status.Succeeded?
    ensures id in s.requests
    ensures s.requests[id].status.Succeeded? ==> Apply(s, e).requests[id] == s.requests[id]
    ensures !s.requests[id].status.Succeeded? ==>
        && e.Complete? && Enabled(s, e) && s.tickets[e.worker].id == id
        && s.tickets[e.worker].attempts == s.requests[id].attempts
        && Apply(s, e).requests[id] == CompletedRow(s.requests[id], e.version, e.now) && s.requests[id].worker == Some(e.worker)
  {
    hide OneActivePerKey, KeyFree, Candidate;
  }

  lemma TicketsChange(s: Store, e: Event, worker: WorkerId)
    requires worker in s.tickets
    ensures worker in Apply(s, e).tickets
    ensures !(e.Claim? && Enabled(s, e) && e.worker == worker) ==> Apply(s, e).tickets[worker] == s.tickets[worker]
  {
    hide KeyFree, Candidate;
  }

  lemma StepKeepsNames(w: World, step: Step)
    requires WorldInv(w)
    ensures WorldInv(Next(w, step))
  {
    var r := Next(w, step);
    if Possible(w, step) {
      match step {
        case Publish(worker, version) =>
          forall id
            ensures Named(r, id)
          {
            assert Named(w, id);
          }
          forall other
            ensures PendingLogged(r, other)
          {
            assert PendingLogged(w, other);
          }
        case Do(e) =>
          ApplyKeepsInv(w.store, e);
          hide Inv, Apply, Enabled;
          forall id
            ensures Named(r, id)
          {
            assert Named(w, id);
            if id in r.store.requests && r.store.requests[id].status.Succeeded? {
              SucceededBy(w.store, e, id);
              if e.Complete? {
                assert PendingLogged(w, e.worker);
              }
            }
          }
          forall other
            ensures PendingLogged(r, other)
          {
            assert PendingLogged(w, other);
            if other in r.pending {
              TicketsChange(w.store, e, other);
            }
          }
      }
    }
  }

  lemma {:induction false} StepsKeepNames(w: World, steps: seq<Step>)
    requires WorldInv(w)
    ensures WorldInv(Steps(w, steps))
  {
    if steps != [] {
      hide WorldInv, Next;
      StepsKeepNames(w, steps[..|steps| - 1]);
      StepKeepsNames(Steps(w, steps[..|steps| - 1]), steps[|steps| - 1]);
    }
  }

  /** From an empty queue, whatever workers and maintenance do: a succeeded request names a version
      that its own worker published in the very claim that completed it. */
  lemma SuccessNamesItsPublication(steps: seq<Step>, id: RequestId)
    ensures var w := Steps(World(Store(map[], map[]), map[], []), steps);
      id in w.store.requests && w.store.requests[id].status.Succeeded? ==>
        var row := w.store.requests[id];
        && row.worker.Some? && row.version.Some?
        && Publication(id, row.worker.value, row.attempts, row.version.value) in w.log
  {
    EmptyWorld();
    StepsKeepNames(World(Store(map[], map[]), map[], []), steps);
    assert Named(Steps(World(Store(map[], map[]), map[], []), steps), id);
  }

  lemma EmptyWorld()
    ensures WorldInv(World(Store(map[], map[]), map[], []))
  {
  }

  // ---------------------------------------------------------------- one request

  /** How preparing the dataset ends. */
  datatype Preparation = Ready | ProviderDown(code: string) | Invalid | Broken

  /** What happens while the worker is on its request: the steps of others and of its heartbeat
      before and after publishing, whether a heartbeat raised, what the provider gave, the version
      publishing returned, and whether the last heartbeat after the work raised. */
  datatype Script = Script(
    approved: bool, during: seq<Step>, dropped: bool, prepared: Preparation, published: Option<string>,
    after: seq<Step>, droppedAfter: bool, now: int, exitFails: bool)

  datatype Report = ReportSucceeded(version: string) | ReportFailed(code: string)

  const LOST := ReportFailed("worker_lost")

  /** A heartbeat of the worker found its lease gone. */
  function LostIn(w: World, steps: seq<Step>, worker: WorkerId): bool {
    if steps == [] then false
    else
      var last := steps[|steps| - 1];
      || LostIn(w, steps[..|steps| - 1], worker)
      || (last.Do? && last.e.Renew? && last.e.worker == worker && !Enabled(Steps(w, steps[..|steps| - 1]).store, last.e))
  }

  function Finish(w: World, worker: WorkerId, script: Script, version: string): (World, Report) {
    var completed := Enabled(w.store, Complete(worker, version, script.now));
    var done := Next(w, Do(Complete(worker, version, script.now)));
    if !completed || script.exitFails
    then (Next(done, Do(RetryOrFail(worker, "INGESTION_FAILED", script.now))), ReportFailed("INGESTION_FAILED"))
    else (done, ReportSucceeded(version))
  }

  /** The world and the report after the worker is through with the request it claimed. */
  function ProcessOf(w: World, worker: WorkerId, script: Script): (World, Report) {
    if !script.approved then
      (Next(w, Do(FailRequest(worker, "PROVIDER_NOT_APPROVED", script.now))), ReportFailed("PROVIDER_NOT_APPROVED"))
    else
      var w1 := Steps(w, script.during);
      match script.prepared
      case ProviderDown(code) => (Next(w1, Do(RetryOrFail(worker, code, script.now))), ReportFailed(code))
      case Invalid => (Next(w1, Do(FailRequest(worker, "INGESTION_INVALID", script.now))), ReportFailed("INGESTION_INVALID"))
      case Broken => (Next(w1, Do(RetryOrFail(worker, "INGESTION_FAILED", script.now))), ReportFailed("INGESTION_FAILED"))
      case Ready =>
        if script.dropped || LostIn(w, script.during, worker) then (w1, LOST)
        else if script.published.None? then
          (Next(w1, Do(RetryOrFail(worker, "INGESTION_FAILED", script.now))), ReportFailed("INGESTION_FAILED"))
        else
          var w2 := Next(w1, Publish(worker, script.published.value));
          var w3 := Steps(w2, script.after);
          if script.droppedAfter || LostIn(w2, script.after, worker) then (w3, LOST)
          else Finish(w3, worker, script, script.published.value)
  }

  /** The queue as the worker's process sees it. */
  class Queue {
    var world: World

    method Take(steps: seq<Step>, worker: WorkerId) returns (lost: bool)
      modifies this
      ensures world == Steps(old(world), steps)
      ensures lost == LostIn(old(world), steps, worker)
    {
      lost := false;
      for i := 0 to |steps|
        invariant world == Steps(old(world), steps[..i])
        invariant lost == LostIn(old(world), steps[..i], worker)
      {
        assert steps[..i + 1][..i] == steps[..i];
        if steps[i].Do? && steps[i].e.Renew? && steps[i].e.worker == worker && !Enabled(world.store, steps[i].e) {
          lost := true;
        }
        world := Next(world, steps[i]);
      }
      assert steps[..|steps|] == steps;
    }

    method ProcessClaimedRequest(worker: WorkerId, script: Script) returns (report: Report)
      modifies this
      ensures (world, report) == ProcessOf(old(world), worker, script)
    {
      hide Next, Enabled;
      if !script.approved {
        world := Next(world, Do(FailRequest(worker, "PROVIDER_NOT_APPROVED", script.now)));
        return ReportFailed("PROVIDER_NOT_APPROVED");
      }
      var lost := Take(script.during, worker);
      match script.prepared {
        case ProviderDown(code) =>
          world := Next(world, Do(RetryOrFail(worker, code, script.now)));
          return ReportFailed(code);
        case Invalid =>
          world := Next(world, Do(FailRequest(worker, "INGESTION_INVALID", script.now)));
          return ReportFailed("INGESTION_INVALID");
        case Broken =>
          world := Next(world, Do(RetryOrFail(worker, "INGESTION_FAILED", script.now)));
          return ReportFailed("INGESTION_FAILED");
        case Ready =>
      }
      if script.dropped || lost {
        return LOST;
      }
      if script.published.None? {
        world := Next(world, Do(RetryOrFail(worker, "INGESTION_FAILED", script.now)));
        return ReportFailed("INGESTION_FAILED");
      }
      var version := script.published.value;
      world := Next(world, Publish(worker, version));
      lost := Take(script.after, worker);
      if script.droppedAfter || lost {
        return LOST;
      }
      var completed := Enabled(world.store, Complete(worker, version, script.now));
      world := Next(world, Do(Complete(worker, version, script.now)));
      if !completed || script.exitFails {
        world := Next(world, Do(RetryOrFail(worker, "INGESTION_FAILED", script.now)));
        return ReportFailed("INGESTION_FAILED");
      }
      report := ReportSucceeded(version);
    }
  }

  // ---------------------------------------------------------------- what a worker leaves behind

  /** Steps of others and of the worker's own heartbeat. */
  ghost predicate Background(steps: seq<Step>, worker: WorkerId) {
    forall k :: 0 <= k < |steps| ==> Foreign(steps[k], worker)
  }

  /** How often the worker published. */
  function Count(log: seq<Publication>, worker: WorkerId): nat {
    if log == [] then 0 else Count(log[..|log| - 1], worker) + (if log[|log| - 1].worker == worker then 1 else 0)
  }

  lemma CountSnoc(log: seq<Publication>, p: Publication, worker: WorkerId)
    ensures Count(log + [p], worker) == Count(log, worker) + (if p.worker == worker then 1 else 0)
  {
    assert (log + [p])[..|log|] == log;
  }

  /** Whatever the request has become, it was not the worker's own success. */
  ghost predicate NotOwn(w: World, id: RequestId, worker: WorkerId) {
    id in w.store.requests && (w.store.requests[id].status.Succeeded? ==> w.store.requests[id].worker != Some(worker))
  }

  /** What steps of others leave alone. */
  ghost predicate Untouched(w: World, r: World, worker: WorkerId) {
    && worker in w.store.tickets && worker in r.store.tickets && r.store.tickets[worker] == w.store.tickets[worker]
    && (worker in r.pending <==> worker in w.pending)
    && (worker in w.pending ==> r.pending[worker] == w.pending[worker])
    && w.log <= r.log && Count(r.log, worker) == Count(w.log, worker)
  }

  predicate Foreign(step: Step, worker: WorkerId) {
    match step
    case Publish(other, _) => other != worker
    case Do(e) => match e
      case Claim(_, other, _, _) => other != worker
      case Complete(other, _, _) => other != worker
      case RetryOrFail(other, _, _) => other != worker
      case FailRequest(other, _, _) => other != worker
      case _ => true
  }

  lemma ForeignStep(w: World, step: Step, worker: WorkerId, id: RequestId)
    requires WorldInv(w) && Foreign(step, worker) && worker in w.store.tickets && NotOwn(w, id, worker)
    ensures Untouched(w, Next(w, step), worker) && NotOwn(Next(w, step), id, worker)
  {
    var r := Next(w, step);
    if Possible(w, step) {
      match step {
        case Publish(other, version) =>
          CountSnoc(w.log, Publication(w.store.tickets[other].id, other, w.store.tickets[other].attempts, version), worker);
        case Do(e) =>
          TicketsChange(w.store, e, worker);
          assert id in r.store.requests;
          if r.store.requests[id].status.Succeeded? {
            SucceededBy(w.store, e, id);
          }
          hide Apply, Enabled, Inv;
      }
    }
  }

  lemma {:induction false} BackgroundKeeps(w: World, steps: seq<Step>, worker: WorkerId, id: RequestId)
    requires WorldInv(w) && Background(steps, worker) && worker in w.store.tickets && NotOwn(w, id, worker)
    ensures WorldInv(Steps(w, steps)) && Untouched(w, Steps(w, steps), worker) && NotOwn(Steps(w, steps), id, worker)
  {
    if steps != [] {
      var (init, last) := (steps[..|steps| - 1], steps[|steps| - 1]);
      assert Foreign(last, worker) && Background(init, worker);
      hide WorldInv, Next, NotOwn, Foreign, Background;
      BackgroundKeeps(w, init, worker, id);
      StepKeepsNames(Steps(w, init), last);
      ForeignStep(Steps(w, init), last, worker, id);
    }
  }

  /** The worker got as far as publishing. */
  predicate Publishes(w: World, worker: WorkerId, script: Script) {
    && script.approved && script.prepared.Ready? && script.published.Some?
    && !script.dropped && !LostIn(w, script.during, worker)
  }

  /** The world right after the worker published. */
  function Published(w: World, worker: WorkerId, script: Script): World
    requires script.published.Some?
  {
    Next(Steps(w, script.during), Publish(worker, script.published.value))
  }

  predicate HoldsNow(w: World, worker: WorkerId, now: int) {
    Working(w.store, worker) && HoldsLease(w.store.requests[w.store.tickets[worker].id], worker, now)
  }

  /** The worker still stands behind what it published when it is about to complete its request. */
  predicate Completes(w: World, worker: WorkerId, script: Script)
    requires script.published.Some?
  {
    && !script.droppedAfter && !LostIn(Published(w, worker, script), script.after, worker)
    && HoldsNow(Steps(Published(w, worker, script), script.after), worker, script.now)
  }

  predicate CompletedBy(w: World, id: RequestId, worker: WorkerId) {
    id in w.store.requests && w.store.requests[id].status.Succeeded? && w.store.requests[id].worker == Some(worker)
  }

  /** The last steps: the request ends completed exactly when the worker still held its lease;
      otherwise it is put back or failed if nobody took it, and left alone if somebody did. */
  lemma FinishLeaves(w: World, worker: WorkerId, script: Script, version: string)
    requires WorldInv(w) && Working(w.store, worker) && worker in w.pending && w.pending[worker] == version
    requires NotOwn(w, w.store.tickets[worker].id, worker)
    ensures var (id, (r, report)) := (w.store.tickets[worker].id, Finish(w, worker, script, version));
      && r.log == w.log && id in r.store.requests
      && (CompletedBy(r, id, worker) <==> HoldsNow(w, worker, script.now))
      && (CompletedBy(r, id, worker) ==> r.store.requests[id].version == Some(version))
      && (report.ReportSucceeded? <==> HoldsNow(w, worker, script.now) && !script.exitFails)
      && (!HoldsNow(w, worker, script.now) && Holds(w.store.requests[id], worker) ==>
            r.store.requests[id] == RetryRow(w.store.requests[id], w.store.tickets[worker].attempts, "INGESTION_FAILED", script.now))
      && (!Holds(w.store.requests[id], worker) ==> r.store.requests[id] == w.store.requests[id])
  {
    hide Inv, Named, PendingLogged, KeyFree, Candidate;
  }

  /** Giving the request back or failing it publishes nothing and completes nothing. */
  lemma GiveUpLeaves(w: World, worker: WorkerId, e: Event, id: RequestId)
    requires WorldInv(w) && NotOwn(w, id, worker)
    requires e.RetryOrFail? || e.FailRequest?
    ensures Next(w, Do(e)).log == w.log && NotOwn(Next(w, Do(e)), id, worker)
  {
    if Next(w, Do(e)).store.requests[id].status.Succeeded? {
      SucceededBy(w.store, e, id);
    }
    hide Apply, Inv;
  }

  /** Publishing leaves the row of a running request alone. */
  lemma PublishLeaves(w: World, worker: WorkerId, version: string, id: RequestId)
    requires WorldInv(w) && NotOwn(w, id, worker) && worker in w.store.tickets && worker !in w.pending
    ensures var r := Next(w, Publish(worker, version));
      && WorldInv(r) && NotOwn(r, id, worker) && r.store == w.store
      && worker in r.pending && r.pending[worker] == version
      && r.log == w.log + [Publication(w.store.tickets[worker].id, worker, w.store.tickets[worker].attempts, version)]
      && Count(r.log, worker) == Count(w.log, worker) + 1
  {
    StepKeepsNames(w, Publish(worker, version));
    CountSnoc(w.log, Publication(w.store.tickets[worker].id, worker, w.store.tickets[worker].attempts, version), worker);
    hide WorldInv;
  }

  /** What a worker leaves behind. It publishes at most once for a claim; it completes the request
      exactly when it published, no heartbeat reported a loss and it still held its lease, and then
      with the version it published. So a publication remains without a completion exactly when a
      heartbeat was lost after it or the lease ran out. Success is reported exactly for a completed
      request, unless the last heartbeat raised. */
  lemma WorkerLeaves(w: World, worker: WorkerId, script: Script)
    requires WorldInv(w) && Working(w.store, worker) && Holds(w.store.requests[w.store.tickets[worker].id], worker)
    requires worker !in w.pending && Background(script.during, worker) && Background(script.after, worker)
    ensures var (ticket, (r, report)) := (w.store.tickets[worker], ProcessOf(w, worker, script));
      && Count(r.log, worker) == Count(w.log, worker) + (if Publishes(w, worker, script) then 1 else 0)
      && (Publishes(w, worker, script) ==> Publication(ticket.id, worker, ticket.attempts, script.published.value) in r.log)
      && (CompletedBy(r, ticket.id, worker) <==> Publishes(w, worker, script) && Completes(w, worker, script))
      && (CompletedBy(r, ticket.id, worker) ==> r.store.requests[ticket.id].version == script.published)
      && (report.ReportSucceeded? <==> CompletedBy(r, ticket.id, worker) && !script.exitFails)
  {
    var id := w.store.tickets[worker].id;
    assert NotOwn(w, id, worker);
    hide *;
    if Publishes(w, worker, script) {
      PublisherLeaves(w, worker, script, id);
    } else {
      GiverUpLeaves(w, worker, script, id);
    }
    NotOwnIsNotCompleted(ProcessOf(w, worker, script).0, id, worker);
  }

  lemma NotOwnIsNotCompleted(w: World, id: RequestId, worker: WorkerId)
    ensures NotOwn(w, id, worker) ==> !CompletedBy(w, id, worker)
  {
  }

  /** A worker that did not publish changes no more than the fate of its request. */
  lemma GiverUpLeaves(w: World, worker: WorkerId, script: Script, id: RequestId)
    requires WorldInv(w) && worker in w.store.tickets && NotOwn(w, id, worker)
    requires Background(script.during, worker) && !Publishes(w, worker, script)
    ensures var (r, report) := ProcessOf(w, worker, script);
      Count(r.log, worker) == Count(w.log, worker) && NotOwn(r, id, worker) && report.ReportFailed?
  {
    hide WorldInv, Next, Steps, LostIn, Background, NotOwn, Count;
    GiveUpLeaves(w, worker, FailRequest(worker, "PROVIDER_NOT_APPROVED", script.now), id);
    BackgroundKeeps(w, script.during, worker, id);
    var w1 := Steps(w, script.during);
    GiveUpLeaves(w1, worker, FailRequest(worker, "INGESTION_INVALID", script.now), id);
    GiveUpLeaves(w1, worker, RetryOrFail(worker, "INGESTION_FAILED", script.now), id);
    if script.prepared.ProviderDown? {
      GiveUpLeaves(w1, worker, RetryOrFail(worker, script.prepared.code, script.now), id);
    }
  }

  lemma ProcessAfterPublishing(w: World, worker: WorkerId, script: Script)
    requires Publishes(w, worker, script)
    ensures var w3 := Steps(Published(w, worker, script), script.after);
      ProcessOf(w, worker, script) ==
        if script.droppedAfter || LostIn(Published(w, worker, script), script.after, worker) then (w3, LOST)
        else Finish(w3, worker, script, script.published.value)
  {
    hide Next, Steps, LostIn, Finish;
  }

  lemma PublisherLeaves(w: World, worker: WorkerId, script: Script, id: RequestId)
    requires WorldInv(w) && worker in w.store.tickets && w.store.tickets[worker].id == id && NotOwn(w, id, worker)
    requires worker !in w.pending && Background(script.during, worker) && Background(script.after, worker)
    requires Publishes(w, worker, script)
    ensures script.published.Some?
    ensures var (ticket, (r, report)) := (w.store.tickets[worker], ProcessOf(w, worker, script));
      && Count(r.log, worker) == Count(w.log, worker) + 1
      && Publication(ticket.id, worker, ticket.attempts, script.published.value) in r.log
      && (CompletedBy(r, ticket.id, worker) <==> Completes(w, worker, script))
      && (CompletedBy(r, ticket.id, worker) ==> r.store.requests[ticket.id].version == script.published)
      && (report.ReportSucceeded? <==> CompletedBy(r, ticket.id, worker) && !script.exitFails)
  {
    ProcessAfterPublishing(w, worker, script);
    hide ProcessOf, WorldInv, Next, Steps, LostIn, Background, Finish, Count, Working, HoldsNow, NotOwn;
    BackgroundKeeps(w, script.during, worker, id);
    PublishLeaves(Steps(w, script.during), worker, script.published.value, id);
    var w2 := Published(w, worker, script);
    BackgroundKeeps(w2, script.after, worker, id);
    var w3 := Steps(w2, script.after);
    NotOwnIsNotCompleted(w3, id, worker);
    StillWorking(w3, worker, id);
    FinishLeaves(w3, worker, script, script.published.value);
    StaysLogged(w2.log, w3.log, Publication(id, worker, w.store.tickets[worker].attempts, script.published.value));
  }

  lemma StaysLogged(log: seq<Publication>, later: seq<Publication>, p: Publication)
    requires log <= later && p in log
    ensures p in later
  {
  }

  lemma StillWorking(w: World, worker: WorkerId, id: RequestId)
    requires worker in w.store.tickets && w.store.tickets[worker].id == id && NotOwn(w, id, worker)
    ensures Working(w.store, worker)
  {
  }

  /** How a failure ends, by its cause, while the worker still holds its request: an unapproved provider
      and invalid data fail it for good; an unavailable provider or any other exception puts it back for a
      minute, or two at the second attempt, and fails it at the third. A lost heartbeat changes nothing.
      Each report names the cause. */
  lemma FailuresAreHandled(w: World, worker: WorkerId, script: Script)
    requires Working(w.store, worker)
    requires var before := if script.approved then Steps(w, script.during) else w;
      && Working(before.store, worker) && before.store.tickets[worker] == w.store.tickets[worker]
      && Holds(before.store.requests[w.store.tickets[worker].id], worker)
      && before.store.tickets[worker].attempts >= 1
    ensures var (ticket, (r, report)) := (w.store.tickets[worker], ProcessOf(w, worker, script));
      var lost := script.dropped || LostIn(w, script.during, worker);
      var final := !script.approved || script.prepared.Invalid?;
      var broken := script.prepared.Broken? || (script.prepared.Ready? && !lost && script.published.None?);
      && (script.approved && script.prepared.Ready? && lost ==>
            r == Steps(w, script.during) && report == ReportFailed("worker_lost"))
      && (final ==> report == ReportFailed(if script.approved then "INGESTION_INVALID" else "PROVIDER_NOT_APPROVED"))
      && (!final && script.prepared.ProviderDown? ==> report == ReportFailed(script.prepared.code))
      && (!final && broken ==> report == ReportFailed("INGESTION_FAILED"))
      && (final || script.prepared.ProviderDown? || broken ==>
            && ticket.id in r.store.requests && report.ReportFailed?
            && var row := r.store.requests[ticket.id];
               && row.worker.None? && row.lease.None? && row.errorCode == Some(report.code) && row.updatedAt == script.now
               && (if final || ticket.attempts >= 3 then row.status.Failed?
                   else row.status.Queued? && row.availableAt == script.now + 60 * ticket.attempts))
  {
    hide Steps, LostIn, KeyFree, Candidate;
  }

  /** The k-th step is a heartbeat of the worker, who no longer holds an unexpired lease by then. */
  ghost predicate MissedBeat(w: World, steps: seq<Step>, k: nat, worker: WorkerId)
    requires k < |steps|
  {
    var (s, step) := (Steps(w, steps[..k]).store, steps[k]);
    && step.Do? && step.e.Renew? && step.e.worker == worker
    && !(Working(s, worker) && HoldsLease(s.requests[s.tickets[worker].id], worker, step.e.now))
  }

  lemma MissedBefore(w: World, steps: seq<Step>, k: nat, worker: WorkerId)
    requires k < |steps| - 1
    ensures MissedBeat(w, steps[..|steps| - 1], k, worker) == MissedBeat(w, steps, k, worker)
  {
    assert steps[..|steps| - 1][..k] == steps[..k];
  }

  lemma LossOfLast(w: World, steps: seq<Step>, worker: WorkerId)
    requires steps != []
    ensures LostIn(w, steps, worker) <==> LostIn(w, steps[..|steps| - 1], worker) || MissedBeat(w, steps, |steps| - 1, worker)
  {
    hide Steps, HoldsLease, Working;
  }

  /** A loss is noticed exactly when some heartbeat of the worker itself came while it no longer held an
      unexpired lease on its request. */
  lemma {:induction false} LossIsNoticed(w: World, steps: seq<Step>, worker: WorkerId)
    ensures LostIn(w, steps, worker) <==> exists k: nat :: k < |steps| && MissedBeat(w, steps, k, worker)
  {
    if steps != [] {
      var n := |steps| - 1;
      LossOfLast(w, steps, worker);
      LossIsNoticed(w, steps[..n], worker);
      hide LostIn, MissedBeat;
      forall k: nat | k < n
        ensures MissedBeat(w, steps[..n], k, worker) == MissedBeat(w, steps, k, worker)
      {
        MissedBefore(w, steps, k, worker);
      }
      if k: nat :| k < n && MissedBeat(w, steps[..n], k, worker) {
        assert MissedBeat(w, steps, k, worker);
      }
    }
  }
}
