/** The market ingestion request queue (quant-worker/backtest/ingestion_repository.py), with the
    updates that retire requests (sync_provider_instruments.py, verify_market_ingestion.py). Each call
    is one transaction. A worker acts on the request it claimed last; its ticket remembers the
    attempt count it was given. */
module RequestProtocol {
  import opened Prelude

  const MAX_CLAIMS := 3

  type RequestId = nat
  type WorkerId = string

  /** What makes two requests the same wish. */
  datatype Key = Key(organization: string, user: string, instrument: string, timeframe: string)

  datatype Status = Queued | Running | Succeeded | Failed {
    predicate Active() { Queued? || Running? }
  }

  datatype Request = Request(
    key: Key, status: Status, attempts: nat, worker: Option<WorkerId>, lease: Option<int>,
    availableAt: int, createdAt: int, updatedAt: int, errorCode: Option<string>, version: Option<string>)

  datatype Ticket = Ticket(id: RequestId, attempts: nat)

  datatype Store = Store(requests: map<RequestId, Request>, tickets: map<WorkerId, Ticket>)

  datatype Event =
    | Enqueue(id: RequestId, key: Key, now: int)
    | Claim(id: RequestId, worker: WorkerId, now: int, leaseSeconds: int)
    | Renew(worker: WorkerId, now: int, leaseSeconds: int)
    | Complete(worker: WorkerId, version: string, now: int)
    | RetryOrFail(worker: WorkerId, code: string, now: int)
    | FailRequest(worker: WorkerId, code: string, now: int)
    | FailExhausted(now: int)
    | Requeue(ids: set<RequestId>, eligible: set<Key>, filter: Option<string>, now: int)
    | Retire(ids: set<RequestId>, code: string, now: int)

  // ---------------------------------------------------------------- guards

  predicate Holds(row: Request, worker: WorkerId) {
    row.status.Running? && row.worker == Some(worker)
  }

  predicate HoldsLease(row: Request, worker: WorkerId, now: int) {
    Holds(row, worker) && row.lease.Some? && now < row.lease.value
  }

  predicate Expired(row: Request, now: int) {
    row.status.Running? && row.lease.Some? && row.lease.value <= now
  }

  predicate Claimable(row: Request, now: int) {
    (row.status.Queued? && row.availableAt <= now) || (Expired(row, now) && row.attempts < MAX_CLAIMS)
  }

  predicate Exhausted(row: Request, now: int) {
    Expired(row, now) && row.attempts >= MAX_CLAIMS
  }

  /** No queued or running request for the key. */
  predicate KeyFree(requests: map<RequestId, Request>, key: Key) {
    forall id | id in requests :: !(requests[id].key == key && requests[id].status.Active())
  }

  /** A failed request that may be queued again, ignoring its rivals for the same key. */
  predicate Retryable(requests: map<RequestId, Request>, id: RequestId, eligible: set<Key>, code: Option<string>) {
    && id in requests
    && requests[id].status.Failed?
    && (code.None? || requests[id].errorCode == code)
    && requests[id].key in eligible
    && KeyFree(requests, requests[id].key)
  }

  predicate Older(requests: map<RequestId, Request>, a: RequestId, b: RequestId)
    requires a in requests && b in requests
  {
    requests[a].updatedAt < requests[b].updatedAt || (requests[a].updatedAt == requests[b].updatedAt && a <= b)
  }

  /** The latest retryable request of its key. */
  predicate Candidate(requests: map<RequestId, Request>, id: RequestId, eligible: set<Key>, code: Option<string>) {
    && Retryable(requests, id, eligible, code)
    && forall other | other in requests ::
        Retryable(requests, other, eligible, code) && requests[other].key == requests[id].key ==> Older(requests, other, id)
  }

  // ---------------------------------------------------------------- effects

  function BackoffMinutes(attempts: nat): nat {
    if attempts <= 1 then 1 else if attempts == 2 then 2 else if attempts == 3 then 4 else if attempts == 4 then 8 else 15
  }

  function RetryRow(row: Request, attempts: nat, code: string, now: int): Request {
    row.(status := if attempts >= MAX_CLAIMS then Failed else Queued,
         availableAt := if attempts >= MAX_CLAIMS then row.availableAt else now + BackoffMinutes(attempts) * 60,
         worker := None, lease := None, errorCode := Some(code), updatedAt := now)
  }

  function FailedRow(row: Request, code: string, now: int): Request {
    row.(status := Failed, worker := None, lease := None, errorCode := Some(code), updatedAt := now)
  }

  function ClaimedRow(row: Request, worker: WorkerId, now: int, leaseSeconds: int): Request {
    row.(status := Running, worker := Some(worker), lease := Some(now + leaseSeconds), attempts := row.attempts + 1,
         errorCode := None, updatedAt := now)
  }

  function CompletedRow(row: Request, version: string, now: int): Request {
    row.(status := Succeeded, version := Some(version), lease := None, errorCode := None, updatedAt := now)
  }

  function RequeuedRow(row: Request, now: int): Request {
    row.(status := Queued, availableAt := now, attempts := 0, worker := None, lease := None, errorCode := None, updatedAt := now)
  }

  /** The request the worker claimed last, if it still exists. */
  predicate Working(s: Store, worker: WorkerId) {
    worker in s.tickets && s.tickets[worker].id in s.requests
  }

  /** Whether the event's guard lets it change anything. */
  predicate Enabled(s: Store, e: Event) {
    match e
    case Enqueue(id, key, _) => id !in s.requests && KeyFree(s.requests, key)
    case Claim(id, _, now, _) => id in s.requests && Claimable(s.requests[id], now)
    case Renew(w, now, _) => Working(s, w) && HoldsLease(s.requests[s.tickets[w].id], w, now)
    case Complete(w, _, now) => Working(s, w) && HoldsLease(s.requests[s.tickets[w].id], w, now)
    case RetryOrFail(w, _, _) => Working(s, w) && Holds(s.requests[s.tickets[w].id], w)
    case FailRequest(w, _, _) => Working(s, w) && Holds(s.requests[s.tickets[w].id], w)
    case FailExhausted(_) => true
    case Requeue(ids, eligible, code, _) => forall id | id in ids :: Candidate(s.requests, id, eligible, code)
    case Retire(_, _, _) => true
  }

  /** The row of request `id` after an enabled event. */
  function RowAfter(s: Store, id: RequestId, e: Event): Request
    requires id in s.requests && Enabled(s, e)
  {
    var row := s.requests[id];
    match e
    case Enqueue(_, _, _) => row
    case Claim(eid, w, now, lease) => if eid == id then ClaimedRow(row, w, now, lease) else row
    case Renew(w, now, lease) => if s.tickets[w].id == id then row.(lease := Some(now + lease), updatedAt := now) else row
    case Complete(w, version, now) => if s.tickets[w].id == id then CompletedRow(row, version, now) else row
    case RetryOrFail(w, code, now) => if s.tickets[w].id == id then RetryRow(row, s.tickets[w].attempts, code, now) else row
    case FailRequest(w, code, now) => if s.tickets[w].id == id then FailedRow(row, code, now) else row
    case FailExhausted(now) => if Exhausted(row, now) then FailedRow(row, "worker_lost", now) else row
    case Requeue(ids, _, _, now) => if id in ids then RequeuedRow(row, now) else row
    case Retire(ids, code, now) => if id in ids && row.status.Active() then FailedRow(row, code, now) else row
  }

  function NewRequest(key: Key, now: int): Request {
    Request(key, Queued, 0, None, None, now, now, now, None, None)
  }

  function Apply(s: Store, e: Event): (r: Store)
    ensures s.requests.Keys <= r.requests.Keys
    ensures forall id :: id in s.requests ==> r.requests[id] == if Enabled(s, e) then RowAfter(s, id, e) else s.requests[id]
    ensures forall id :: id in r.requests && id !in s.requests ==>
        e.Enqueue? && Enabled(s, e) && id == e.id && r.requests[id] == NewRequest(e.key, e.now)
  {
    if !Enabled(s, e) then s
    else
      var rows := map id | id in s.requests :: RowAfter(s, id, e);
      match e
      case Enqueue(id, key, now) => s.(requests := rows[id := NewRequest(key, now)])
      case Claim(id, w, _, _) => Store(rows, s.tickets[w := Ticket(id, rows[id].attempts)])
      case _ => s.(requests := rows)
  }

  function History(events: seq<Event>): Store {
    if events == [] then Store(map[], map[]) else Apply(History(events[..|events| - 1]), events[|events| - 1])
  }

  // ---------------------------------------------------------------- the repository

  class RequestRepository {
    var requests: map<RequestId, Request>
    var tickets: map<WorkerId, Ticket>

    ghost function State(): Store
      reads this
    {
      Store(requests, tickets)
    }

    method RenewLease(worker: WorkerId, now: int, leaseSeconds: int) returns (renewed: bool)
      requires Working(State(), worker)
      modifies this
      ensures State() == Apply(old(State()), Renew(worker, now, leaseSeconds))
      ensures renewed <==> HoldsLease(old(requests)[old(tickets)[worker].id], worker, now)
    {
      var id := tickets[worker].id;
      renewed := HoldsLease(requests[id], worker, now);
      if renewed {
        requests := requests[id := requests[id].(lease := Some(now + leaseSeconds), updatedAt := now)];
      }
      assert requests == Apply(old(State()), Renew(worker, now, leaseSeconds)).requests;
    }

    method FailExhaustedRequests(now: int) returns (count: nat)
      modifies this
      ensures State() == Apply(old(State()), FailExhausted(now))
      ensures count == |set id | id in old(requests) && Exhausted(old(requests)[id], now)|
    {
      count := |set id | id in requests && Exhausted(requests[id], now)|;
      requests := map id | id in requests ::
        if Exhausted(requests[id], now) then FailedRow(requests[id], "worker_lost", now) else requests[id];
      assert requests == Apply(old(State()), FailExhausted(now)).requests;
    }

    /** The claimable request that became available, then was created, first. */
    method ClaimNextRequest(worker: WorkerId, now: int, leaseSeconds: int) returns (claimed: Option<Ticket>)
      modifies this
      ensures claimed.None? ==> State() == old(State()) && forall id :: id in requests ==> !Claimable(requests[id], now)
      ensures claimed.Some? ==> claimed.value.id in old(requests) && Claimable(old(requests)[claimed.value.id], now)
      ensures claimed.Some? ==> forall id :: id in old(requests) && Claimable(old(requests)[id], now) ==>
          old(requests)[claimed.value.id].availableAt <= old(requests)[id].availableAt
      ensures claimed.Some? ==> forall id :: id in old(requests) && Claimable(old(requests)[id], now) ==>
          (old(requests)[claimed.value.id].availableAt == old(requests)[id].availableAt ==>
             old(requests)[claimed.value.id].createdAt <= old(requests)[id].createdAt)
      ensures claimed.Some? ==> State() == Apply(old(State()), Claim(claimed.value.id, worker, now, leaseSeconds))
      ensures claimed.Some? ==> tickets[worker] == claimed.value
    {
      var candidates := set id | id in requests && Claimable(requests[id], now);
      var best: Option<RequestId> := None;
      var rest := candidates;
      while rest != {}
        invariant rest <= candidates
        invariant best.None? ==> rest == candidates
        invariant best.Some? ==> best.value in candidates
        invariant best.Some? ==> forall id :: id in candidates - rest ==> EarlierRequest(requests[best.value], requests[id])
        decreases rest
      {
        var id :| id in rest;
        if best.None? || EarlierRequest(requests[id], requests[best.value]) {
          best := Some(id);
        }
        rest := rest - {id};
      }
      forall id | id in requests && Claimable(requests[id], now)
        ensures best.Some?
      {
        assert id in candidates;
      }
      claimed := None;
      if best.Some? {
        var id := best.value;
        requests := requests[id := ClaimedRow(requests[id], worker, now, leaseSeconds)];
        claimed := Some(Ticket(id, requests[id].attempts));
        tickets := tickets[worker := claimed.value];
        assert requests == Apply(old(State()), Claim(id, worker, now, leaseSeconds)).requests;
      }
    }

    /** Fails, as the source raises, unless the worker still holds an unexpired lease. */
    method CompleteRequest(worker: WorkerId, version: string, now: int) returns (ok: bool)
      requires Working(State(), worker)
      modifies this
      ensures State() == Apply(old(State()), Complete(worker, version, now))
      ensures ok <==> HoldsLease(old(requests)[old(tickets)[worker].id], worker, now)
    {
      var id := tickets[worker].id;
      ok := HoldsLease(requests[id], worker, now);
      if ok {
        requests := requests[id := CompletedRow(requests[id], version, now)];
      }
      assert requests == Apply(old(State()), Complete(worker, version, now)).requests;
    }

    method RetryOrFailRequest(worker: WorkerId, code: string, now: int)
      requires Working(State(), worker)
      modifies this
      ensures State() == Apply(old(State()), RetryOrFail(worker, code, now))
    {
      var ticket := tickets[worker];
      if Holds(requests[ticket.id], worker) {
        requests := requests[ticket.id := RetryRow(requests[ticket.id], ticket.attempts, code, now)];
      }
      assert requests == Apply(old(State()), RetryOrFail(worker, code, now)).requests;
    }

    method FailClaimedRequest(worker: WorkerId, code: string, now: int)
      requires Working(State(), worker)
      modifies this
      ensures State() == Apply(old(State()), FailRequest(worker, code, now))
    {
      var id := tickets[worker].id;
      if Holds(requests[id], worker) {
        requests := requests[id := FailedRow(requests[id], code, now)];
      }
      assert requests == Apply(old(State()), FailRequest(worker, code, now)).requests;
    }

    /** Fails the queued and running requests among `ids`: those of inactive instruments, or outside
        the daily scope. Workers still on them lose their request. */
    method RetireRequests(ids: set<RequestId>, code: string, now: int) returns (count: nat)
      modifies this
      ensures State() == Apply(old(State()), Retire(ids, code, now))
      ensures count == |set id | id in old(requests) && id in ids && old(requests)[id].status.Active()|
    {
      count := |set id | id in requests && id in ids && requests[id].status.Active()|;
      requests := map id | id in requests ::
        if id in ids && requests[id].status.Active() then FailedRow(requests[id], code, now) else requests[id];
      assert requests == Apply(old(State()), Retire(ids, code, now)).requests;
    }

    /** One candidate per key, the `limit` oldest of them. */
    method RequeueFailedRequests(limit: nat, eligible: set<Key>, code: Option<string>, now: int) returns (ids: set<RequestId>)
      modifies this
      ensures State() == Apply(old(State()), Requeue(ids, eligible, code, now))
      ensures forall id :: id in ids ==> Candidate(old(requests), id, eligible, code)
      ensures |ids| <= limit
      ensures |ids| < limit ==> forall id :: id in old(requests) && Candidate(old(requests), id, eligible, code) ==> id in ids
      ensures forall a, b :: a in ids && b in old(requests) && b !in ids && Candidate(old(requests), b, eligible, code) ==>
          old(requests)[a].updatedAt <= old(requests)[b].updatedAt
    {
      hide Candidate;
      ids := OldestCandidates(requests, limit, eligible, code);
      ghost var event := Requeue(ids, eligible, code, now);
      assert Enabled(State(), event);
      requests := map id | id in requests :: if id in ids then RequeuedRow(requests[id], now) else requests[id];
      assert requests == Apply(old(State()), event).requests;
    }
  }

  predicate EarlierRequest(a: Request, b: Request) {
    a.availableAt < b.availableAt || (a.availableAt == b.availableAt && a.createdAt <= b.createdAt)
  }

  method OldestCandidates(requests: map<RequestId, Request>, limit: nat, eligible: set<Key>, code: Option<string>)
    returns (ids: set<RequestId>)
    ensures ids <= requests.Keys
    ensures forall id :: id in ids ==> Candidate(requests, id, eligible, code)
    ensures |ids| <= limit
    ensures |ids| < limit ==> forall id :: id in requests && Candidate(requests, id, eligible, code) ==> id in ids
    ensures forall a, b :: a in ids && b in requests && b !in ids && Candidate(requests, b, eligible, code) ==>
        Older(requests, a, b)
  {
    hide Candidate;
    var candidates := set id | id in requests && Candidate(requests, id, eligible, code);
    var rest := candidates;
    ids := {};
    while |ids| < limit && rest != {}
      invariant ids + rest == candidates && ids !! rest && |ids| <= limit
      invariant forall a, b :: a in ids && b in rest ==> Older(requests, a, b)
      decreases rest
    {
      var oldest := OldestOf(requests, rest);
      ids := ids + {oldest};
      rest := rest - {oldest};
    }
    assert forall id :: id in ids ==> id in candidates;
    assert forall b :: b in requests && Candidate(requests, b, eligible, code) ==> b in candidates;
  }

  method OldestOf(requests: map<RequestId, Request>, ids: set<RequestId>) returns (oldest: RequestId)
    requires ids != {} && ids <= requests.Keys
    ensures oldest in ids && forall id :: id in ids ==> Older(requests, oldest, id)
  {
    oldest :| oldest in ids;
    var rest := ids - {oldest};
    while rest != {}
      invariant rest <= ids && oldest in ids
      invariant forall id :: id in ids && id !in rest ==> Older(requests, oldest, id)
      decreases rest
    {
      var id :| id in rest;
      if Older(requests, id, oldest) {
        oldest := id;
      }
      rest := rest - {id};
    }
  }

  // ---------------------------------------------------------------- invariant

  ghost predicate RowInv(row: Request) {
    && (row.status.Queued? ==> row.attempts < MAX_CLAIMS && row.worker.None? && row.lease.None?)
    && (row.status.Running? ==> 1 <= row.attempts <= MAX_CLAIMS && row.worker.Some? && row.lease.Some?)
    && (row.status.Succeeded? ==> row.attempts <= MAX_CLAIMS && row.worker.Some? && row.version.Some?)
    && (row.status.Failed? ==> row.attempts <= MAX_CLAIMS && row.worker.None?)
  }

  /** A worker that still holds its request was given the attempt count the row shows. */
  ghost predicate TicketInv(s: Store) {
    forall w :: w in s.tickets && s.tickets[w].id in s.requests && Holds(s.requests[s.tickets[w].id], w) ==>
      s.tickets[w].attempts == s.requests[s.tickets[w].id].attempts
  }

  predicate ActiveIn(requests: map<RequestId, Request>, id: RequestId) {
    id in requests && requests[id].status.Active()
  }

  /** Never two queued or running requests for the same key. */
  ghost predicate OneActivePerKey(requests: map<RequestId, Request>) {
    forall a, b :: ActiveIn(requests, a) && ActiveIn(requests, b) && a != b ==> requests[a].key != requests[b].key
  }

  ghost predicate Inv(s: Store) {
    (forall id :: id in s.requests ==> RowInv(s.requests[id])) && TicketInv(s) && OneActivePerKey(s.requests)
  }

  lemma EventKeepsRows(s: Store, e: Event, id: RequestId)
    requires Inv(s) && Enabled(s, e) && id in s.requests
    ensures var (row, after) := (s.requests[id], RowAfter(s, id, e));
      && RowInv(after) && after.key == row.key
      && (row.status.Succeeded? ==> after == row)
      && (after.status.Active() && !row.status.Active() ==> e.Requeue? && id in e.ids)
  {
  }

  lemma EventKeepsTickets(s: Store, e: Event)
    requires Inv(s)
    ensures TicketInv(Apply(s, e))
  {
    hide RowInv, OneActivePerKey, Candidate, KeyFree;
  }

  lemma EventKeepsKeys(s: Store, e: Event)
    requires Inv(s)
    ensures OneActivePerKey(Apply(s, e).requests)
  {
    hide RowInv, TicketInv, RowAfter;
    var r := Apply(s, e);
    if Enabled(s, e) {
      forall a, b | ActiveIn(r.requests, a) && ActiveIn(r.requests, b) && a != b
        ensures r.requests[a].key != r.requests[b].key
      {
        if a in s.requests {
          EventKeepsRows(s, e, a);
        }
        if b in s.requests {
          EventKeepsRows(s, e, b);
        }
      }
    }
  }

  /** The invariant holds after every history. */
  lemma {:induction false} ReachableStores(events: seq<Event>)
    ensures Inv(History(events))
  {
    if events != [] {
      hide Enabled, RowAfter, RowInv, OneActivePerKey, TicketInv;
      var s, e := History(events[..|events| - 1]), events[|events| - 1];
      ReachableStores(events[..|events| - 1]);
      EventKeepsTickets(s, e);
      EventKeepsKeys(s, e);
      forall id | id in Apply(s, e).requests
        ensures RowInv(Apply(s, e).requests[id])
      {
        if id in s.requests {
          if Enabled(s, e) {
            EventKeepsRows(s, e, id);
          }
        } else {
          NewRequestInv(e.key, e.now);
        }
      }
    }
  }

  lemma NewRequestInv(key: Key, now: int)
    ensures RowInv(NewRequest(key, now))
  {
  }

  // ---------------------------------------------------------------- whole histories

  ghost predicate ClaimHappens(s: Store, e: Event, id: RequestId) {
    e.Claim? && e.id == id && Enabled(s, e)
  }

  ghost predicate RequeueHappens(s: Store, e: Event, id: RequestId) {
    e.Requeue? && id in e.ids && Enabled(s, e)
  }

  ghost predicate CompletionHappens(s: Store, e: Event, id: RequestId) {
    e.Complete? && Enabled(s, e) && s.tickets[e.worker].id == id
  }

  /** Claims of the request since it was last put back by a requeue. */
  ghost function EpochClaims(events: seq<Event>, id: RequestId): nat {
    if events == [] then 0
    else
      var s, e := History(events[..|events| - 1]), events[|events| - 1];
      if RequeueHappens(s, e, id) then 0
      else EpochClaims(events[..|events| - 1], id) + (if ClaimHappens(s, e, id) then 1 else 0)
  }

  ghost function Completions(events: seq<Event>, id: RequestId): nat {
    if events == [] then 0
    else
      var s, e := History(events[..|events| - 1]), events[|events| - 1];
      Completions(events[..|events| - 1], id) + (if CompletionHappens(s, e, id) then 1 else 0)
  }

  ghost function LatestClaimant(events: seq<Event>, id: RequestId): Option<WorkerId> {
    if events == [] then None
    else
      var s, e := History(events[..|events| - 1]), events[|events| - 1];
      if ClaimHappens(s, e, id) then Some(e.worker) else LatestClaimant(events[..|events| - 1], id)
  }

  /** The attempt counter counts the claims of the current epoch, at most three; the worker on a
      row is its latest claimant; a request completes at most once, exactly when it succeeded. */
  lemma {:induction false} EpochsAndCompletions(events: seq<Event>, id: RequestId)
    ensures id !in History(events).requests ==> EpochClaims(events, id) == 0 && Completions(events, id) == 0
    ensures id in History(events).requests ==> var row := History(events).requests[id];
      && EpochClaims(events, id) == row.attempts <= MAX_CLAIMS
      && (row.worker.Some? ==> row.worker == LatestClaimant(events, id))
      && Completions(events, id) == (if row.status.Succeeded? then 1 else 0)
  {
    hide Enabled, RowAfter, Inv;
    if events != [] {
      var shorter, e := events[..|events| - 1], events[|events| - 1];
      var s := History(shorter);
      EpochsAndCompletions(shorter, id);
      ReachableStores(shorter);
      if id in s.requests && Enabled(s, e) {
        EventCounts(s, e, id);
      } else if id !in s.requests {
        AbsentRequest(s, e, id);
      }
    }
  }

  lemma EventCounts(s: Store, e: Event, id: RequestId)
    requires Inv(s) && Enabled(s, e) && id in s.requests
    ensures var (row, after) := (s.requests[id], RowAfter(s, id, e));
      && after.attempts == (if RequeueHappens(s, e, id) then 0 else row.attempts + (if ClaimHappens(s, e, id) then 1 else 0))
      && after.attempts <= MAX_CLAIMS
      && (after.worker.Some? ==> after.worker == if ClaimHappens(s, e, id) then Some(e.worker) else row.worker)
      && (CompletionHappens(s, e, id) ==> !row.status.Succeeded? && after.status.Succeeded?)
      && (!CompletionHappens(s, e, id) ==> (row.status.Succeeded? <==> after.status.Succeeded?))
  {
  }

  lemma AbsentRequest(s: Store, e: Event, id: RequestId)
    requires id !in s.requests
    ensures !ClaimHappens(s, e, id) && !RequeueHappens(s, e, id) && !CompletionHappens(s, e, id)
  {
  }

  /** Whoever completes a request is its latest claimant and still holds an unexpired lease. */
  lemma OnlyTheLatestClaimantCompletes(events: seq<Event>, e: Event, id: RequestId)
    requires CompletionHappens(History(events), e, id)
    ensures LatestClaimant(events, id) == Some(e.worker)
    ensures var row := History(events).requests[id]; row.lease.Some? && e.now < row.lease.value
  {
    EpochsAndCompletions(events, id);
  }

  /** Success is final. */
  lemma {:induction false} SuccessIsFinal(events: seq<Event>, later: seq<Event>, id: RequestId)
    requires id in History(events).requests && History(events).requests[id].status.Succeeded?
    ensures id in History(events + later).requests
    ensures History(events + later).requests[id] == History(events).requests[id]
  {
    if later == [] {
      assert events + later == events;
    } else {
      hide Inv, RowInv, RowAfter, Enabled;
      var shorter := later[..|later| - 1];
      SuccessIsFinal(events, shorter, id);
      ReachableStores(events + shorter);
      assert (events + later)[..|events + later| - 1] == events + shorter;
      if Enabled(History(events + shorter), later[|later| - 1]) {
        EventKeepsRows(History(events + shorter), later[|later| - 1], id);
      }
    }
  }

  // ---------------------------------------------------------------- waiting and retrying

  /** A claim gives the worker the request for the whole lease: nobody can claim, fail as
      exhausted or requeue it before the lease ends. */
  lemma ClaimGivesLease(s: Store, id: RequestId, worker: WorkerId, now: int, leaseSeconds: int, later: int)
    requires Inv(s) && Enabled(s, Claim(id, worker, now, leaseSeconds)) && later < now + leaseSeconds
    ensures var row := Apply(s, Claim(id, worker, now, leaseSeconds)).requests[id];
      && HoldsLease(row, worker, later) && !Claimable(row, later) && !Exhausted(row, later)
  {
  }

  /** A failed attempt waits out its backoff, one minute after the first and two after the second;
      after the third the request is failed for good. */
  lemma RetryWaits(s: Store, worker: WorkerId, code: string, now: int, later: int)
    requires Inv(s) && Enabled(s, RetryOrFail(worker, code, now))
    ensures var id := s.tickets[worker].id;
      var (before, row) := (s.requests[id], Apply(s, RetryOrFail(worker, code, now)).requests[id]);
      && row.errorCode == Some(code)
      && (before.attempts >= MAX_CLAIMS ==> row.status.Failed? && !Claimable(row, later))
      && (before.attempts < MAX_CLAIMS ==> row.status.Queued?)
      && (before.attempts < MAX_CLAIMS ==>
            (Claimable(row, later) <==> now + (if before.attempts == 1 then 60 else 120) <= later))
  {
    hide OneActivePerKey, KeyFree, Candidate;
  }

  /** A requeued request starts over: at once claimable, with all three attempts. */
  lemma RequeueStartsOver(s: Store, ids: set<RequestId>, eligible: set<Key>, filter: Option<string>, now: int, id: RequestId)
    requires Inv(s) && Enabled(s, Requeue(ids, eligible, filter, now)) && id in ids
    ensures id in s.requests && s.requests[id].status.Failed?
    ensures var row := Apply(s, Requeue(ids, eligible, filter, now)).requests[id];
      row.attempts == 0 && (forall later :: Claimable(row, later) <==> now <= later)
  {
    assert Candidate(s.requests, id, eligible, filter);
    hide OneActivePerKey, KeyFree;
  }

  /** A retired request is failed whatever its worker does: nobody holds it, and only a requeue
      brings it back. */
  lemma RetiredIsFailed(s: Store, ids: set<RequestId>, code: string, now: int, id: RequestId, e: Event)
    requires Inv(s) && id in s.requests && id in ids && s.requests[id].status.Active()
    ensures var after := Apply(s, Retire(ids, code, now));
      && after.requests[id].status.Failed? && after.requests[id].errorCode == Some(code)
      && (forall w :: !Holds(after.requests[id], w))
      && (Apply(after, e).requests[id] != after.requests[id] ==> e.Requeue? && id in e.ids)
  {
    hide OneActivePerKey, KeyFree, Candidate;
  }

  // ---------------------------------------------------------------- who may do what with a request

  /** A queued request can be claimed from the time it is available. A running one is left to its worker
      until its lease ends; then it can be claimed again while it had fewer than three attempts, and
      afterwards only be failed as exhausted. No other request can be claimed or exhausted. */
  lemma LifeOfARequest(row: Request, now: int)
    requires RowInv(row)
    ensures row.status.Queued? ==> (Claimable(row, now) <==> row.availableAt <= now) && !Exhausted(row, now)
    ensures row.status.Running? ==>
        && (Claimable(row, now) <==> row.lease.value <= now && row.attempts < 3)
        && (Exhausted(row, now) <==> row.lease.value <= now && row.attempts == 3)
        && (forall w :: HoldsLease(row, w, now) <==> row.worker == Some(w) && now < row.lease.value)
    ensures !row.status.Active() ==> !Claimable(row, now) && !Exhausted(row, now) && forall w :: !HoldsLease(row, w, now)
  {
  }

  /** The request that a requeue takes for a key is the one that failed last, among those with the wanted
      code; the key must be eligible and have no active request. */
  lemma RequeueTakesTheLatest(requests: map<RequestId, Request>, id: RequestId, eligible: set<Key>, code: Option<string>)
    requires id in requests
    ensures var row := requests[id];
      Candidate(requests, id, eligible, code) <==>
        && row.status.Failed? && (code.Some? ==> row.errorCode == code) && row.key in eligible
        && forall other :: other in requests && requests[other].key == row.key ==>
            var rival := requests[other];
            && !rival.status.Queued? && !rival.status.Running?
            && (rival.status.Failed? && (code.Some? ==> rival.errorCode == code) ==>
                  rival.updatedAt < row.updatedAt || (rival.updatedAt == row.updatedAt && other <= id))
  {
    if Candidate(requests, id, eligible, code) {
      forall other | other in requests && requests[other].key == requests[id].key && requests[other].status.Failed?
        && (code.None? || requests[other].errorCode == code)
        ensures Older(requests, other, id)
      {
        assert Retryable(requests, other, eligible, code);
      }
    }
  }

  /** What no event changes about a request, and what every change leaves: its key and its creation stay,
      a result once stored stays, a request that is waiting or has failed has no worker, and each change
      is dated. */
  lemma EachChangeIsDated(s: Store, e: Event, id: RequestId)
    requires Inv(s) && id in s.requests
    ensures var (row, after) := (s.requests[id], Apply(s, e).requests[id]);
      && after.key == row.key && after.createdAt == row.createdAt
      && (after.version != row.version ==> e.Complete? && after.status.Succeeded? && after.version == Some(e.version))
      && (after.status.Failed? && !row.status.Failed? ==> after.worker.None? && after.lease.None? && after.errorCode.Some?)
      && (after.errorCode.Some? && after.errorCode != row.errorCode ==> !after.status.Running? && !after.status.Succeeded?)
      && (after.availableAt != row.availableAt ==>
            after.status.Queued? && (e.Requeue? ==> after.availableAt == e.now) && (!e.Requeue? ==> e.RetryOrFail? && after.availableAt > e.now))
      && (after != row ==> after.updatedAt == e.now)
      && (e.Claim? && after != row ==> after.errorCode.None? && after.lease == Some(e.now + e.leaseSeconds))
      && (e.Requeue? && after != row ==> after.errorCode.None? && after.attempts == 0)
  {
    hide OneActivePerKey, KeyFree, Candidate;
  }

  /** What renewing, completing and failing a request leave on its row. */
  lemma UpdatesOfTheHolder(s: Store, worker: WorkerId, version: string, code: string, now: int, leaseSeconds: int, later: int)
    requires Inv(s) && Working(s, worker) && HoldsLease(s.requests[s.tickets[worker].id], worker, now)
    ensures var (id, row) := (s.tickets[worker].id, s.requests[s.tickets[worker].id]);
      var renewed := Apply(s, Renew(worker, now, leaseSeconds)).requests[id];
      var completed := Apply(s, Complete(worker, version, now)).requests[id];
      var failed := Apply(s, FailRequest(worker, code, now)).requests[id];
      && (HoldsLease(renewed, worker, later) <==> later < now + leaseSeconds) && renewed.attempts == row.attempts
      && completed.status.Succeeded? && completed.version == Some(version) && completed.worker == Some(worker)
      && completed.lease.None? && completed.errorCode.None? && completed.attempts == row.attempts
      && failed.status.Failed? && failed.errorCode == Some(code) && failed.worker.None? && failed.lease.None?
  {
    hide OneActivePerKey, KeyFree, Candidate;
  }

  /** Exactly the exhausted requests are failed as lost, all others are left alone. */
  lemma ExhaustionIsExact(s: Store, now: int, id: RequestId)
    requires Inv(s) && id in s.requests
    ensures var (row, after) := (s.requests[id], Apply(s, FailExhausted(now)).requests[id]);
      if row.status.Running? && row.lease.value <= now && row.attempts == 3
      then after.status.Failed? && after.errorCode == Some("worker_lost") && after.worker.None?
      else after == row
  {
    hide OneActivePerKey, KeyFree, Candidate;
  }
}
