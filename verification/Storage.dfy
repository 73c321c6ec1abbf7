/** The manifest-last upload protocol of dataset batches (quant-worker/dataset_sync/storage.py).
    Uploaders interleave step by step; a put is atomic, may fail before or after it lands, and any
    uploader may stop and start over at any time. */
module Storage {
  import opened Prelude

  /** A stored object; the digest is the metadata the uploader attached. */
  datatype Object = Object(body: string, digest: string, complete: bool)

  datatype Item = Item(key: string, content: Object)

  /** The packages in manifest order, then the manifest itself. */
  datatype Batch = Batch(packages: seq<Item>, manifest: Item) {
    function Get(k: nat): Item
      requires k <= |packages|
    {
      if k < |packages| then packages[k] else manifest
    }
  }

  type Objects = map<string, Object>

  /** The comparison of an existing object: length and digest. */
  predicate Matches(a: Object, b: Object) {
    |a.body| == |b.body| && a.digest == b.digest
  }

  predicate Holds(objects: Objects, item: Item) {
    item.key in objects && Matches(objects[item.key], item.content)
  }

  // ---------------------------------------------------------------- one uploader alone

  class ObjectStore {
    var objects: Objects

    /** Head, put, verify. */
    method Upload(item: Item) returns (ok: bool)
      modifies this
      ensures ok <==> item.key !in old(objects) || Matches(old(objects)[item.key], item.content)
      ensures objects == if item.key in old(objects) then old(objects) else old(objects)[item.key := item.content]
    {
      if item.key in objects {
        return Matches(objects[item.key], item.content);
      }
      objects := objects[item.key := item.content];
      ok := item.key in objects && Matches(objects[item.key], item.content);
    }

    /** Uploads the packages in order and the manifest last. It never changes an existing object,
        and succeeds exactly when every item ends up stored. */
    method UploadBatch(batch: Batch) returns (ok: bool)
      modifies this
      ensures forall key :: key in old(objects) ==> key in objects && objects[key] == old(objects)[key]
      ensures ok ==> forall k :: 0 <= k <= |batch.packages| ==> Holds(objects, batch.Get(k))
      ensures !ok ==> exists k :: 0 <= k <= |batch.packages| && batch.Get(k).key in objects && !Holds(objects, batch.Get(k))
      ensures batch.manifest.key in objects && batch.manifest.key !in old(objects) && (forall p :: p in batch.packages ==> p.key != batch.manifest.key) ==>
          forall p :: p in batch.packages ==> Holds(objects, p)
    {
      for k := 0 to |batch.packages|
        invariant forall key :: key in old(objects) ==> key in objects && objects[key] == old(objects)[key]
        invariant forall j :: 0 <= j < k ==> Holds(objects, batch.packages[j])
        invariant forall key :: key in objects ==> key in old(objects) || exists j :: 0 <= j < k && batch.packages[j].key == key
      {
        ok := Upload(batch.packages[k]);
        if !ok {
          assert batch.Get(k) == batch.packages[k];
          return;
        }
      }
      ok := Upload(batch.manifest);
      assert batch.Get(|batch.packages|) == batch.manifest;
    }
  }

  // ---------------------------------------------------------------- interleaved uploaders

  datatype Phase = Heading(k: nat) | Putting(k: nat) | Verifying(k: nat) | Done | Stopped

  type Uploader = nat

  datatype World = World(objects: Objects, phases: map<Uploader, Phase>)

  /** One step of an uploader, a put that raises whether or not it landed, or a fresh start. */
  datatype Event = Act(who: Uploader) | PutFails(who: Uploader, landed: bool) | Restart(who: Uploader)

  /** The batch each uploader carries. */
  type Assignment = map<Uploader, Batch>

  function After(batch: Batch, k: nat): Phase {
    if k < |batch.packages| then Heading(k + 1) else Done
  }

  function Act1(objects: Objects, batch: Batch, phase: Phase): (Objects, Phase) {
    match phase
    case Heading(k) =>
      if k > |batch.packages| then (objects, Stopped)
      else if batch.Get(k).key !in objects then (objects, Putting(k))
      else if Holds(objects, batch.Get(k)) then (objects, After(batch, k))
      else (objects, Stopped)
    case Putting(k) =>
      if k > |batch.packages| then (objects, Stopped)
      else (objects[batch.Get(k).key := batch.Get(k).content], Verifying(k))
    case Verifying(k) =>
      if k <= |batch.packages| && Holds(objects, batch.Get(k)) then (objects, After(batch, k)) else (objects, Stopped)
    case _ => (objects, phase)
  }

  function Apply(a: Assignment, w: World, e: Event): World {
    if e.who !in a || e.who !in w.phases then w
    else
      var (batch, phase) := (a[e.who], w.phases[e.who]);
      match e
      case Act(who) =>
        var (objects, next) := Act1(w.objects, batch, phase);
        World(objects, w.phases[who := next])
      case PutFails(who, landed) =>
        if !phase.Putting? || phase.k > |batch.packages| then w
        else World(if landed then w.objects[batch.Get(phase.k).key := batch.Get(phase.k).content] else w.objects, w.phases[who := Stopped])
      case Restart(who) => w.(phases := w.phases[who := Heading(0)])
  }

  function Start(a: Assignment, objects: Objects): World {
    World(objects, map who | who in a :: Heading(0))
  }

  function History(a: Assignment, objects: Objects, events: seq<Event>): World {
    if events == [] then Start(a, objects) else Apply(a, History(a, objects, events[..|events| - 1]), events[|events| - 1])
  }

  /** Two writers of a package key write the same length and digest there. */
  ghost predicate Agree(a: Assignment, u: Uploader, j: nat, v: Uploader, k: nat)
    requires u in a && v in a && j < |a[u].packages| && k < |a[v].packages|
  {
    a[u].packages[j].key == a[v].packages[k].key ==> Matches(a[u].packages[j].content, a[v].packages[k].content)
  }

  /** Writers agree on packages; batches that share a manifest key name the same packages, and no
      manifest key is a package key. The manifests themselves may differ. */
  ghost predicate Agreement(a: Assignment) {
    && (forall u, v, j: nat, k: nat :: u in a && v in a && j < |a[u].packages| && k < |a[v].packages| ==> Agree(a, u, j, v, k))
    && (forall u, v :: u in a && v in a && a[u].manifest.key == a[v].manifest.key ==> a[u].packages == a[v].packages)
    && (forall u, v, k :: u in a && v in a && 0 <= k < |a[v].packages| ==> a[v].packages[k].key != a[u].manifest.key)
  }

  /** Uploaders of one batch also carry the same manifest. */
  ghost predicate ManifestsAgree(a: Assignment) {
    forall u, v :: u in a && v in a && a[u].manifest.key == a[v].manifest.key ==>
      Matches(a[u].manifest.content, a[v].manifest.content)
  }

  /** The first n packages of a batch are stored. */
  ghost predicate Stored(objects: Objects, batch: Batch, n: nat)
    requires n <= |batch.packages|
  {
    forall j :: 0 <= j < n ==> Holds(objects, batch.packages[j])
  }

  ghost predicate PhaseInv(a: Assignment, objects: Objects, batch: Batch, phase: Phase) {
    match phase
    case Heading(k) => k <= |batch.packages| && Stored(objects, batch, k)
    case Putting(k) => k <= |batch.packages| && Stored(objects, batch, k)
    case Verifying(k) => k <= |batch.packages| && Stored(objects, batch, k)
    case Done =>
      && Stored(objects, batch, |batch.packages|) && batch.manifest.key in objects
      && (ManifestsAgree(a) ==> Holds(objects, batch.manifest))
    case Stopped => true
  }

  /** A visible manifest means that every package it names is stored. */
  ghost predicate ManifestSafe(objects: Objects, batch: Batch) {
    batch.manifest.key in objects ==> Stored(objects, batch, |batch.packages|)
  }

  ghost predicate Safe(a: Assignment, objects: Objects) {
    forall u :: u in a ==> ManifestSafe(objects, a[u])
  }

  ghost predicate Inv(a: Assignment, w: World) {
    w.phases.Keys == a.Keys && Safe(a, w.objects) && forall u :: u in a ==> PhaseInv(a, w.objects, a[u], w.phases[u])
  }

  /** The store after uploader `u` put its item k. */
  function AfterPut(a: Assignment, objects: Objects, u: Uploader, k: nat): Objects
    requires u in a && k <= |a[u].packages|
  {
    objects[a[u].Get(k).key := a[u].Get(k).content]
  }

  lemma StoredStays(a: Assignment, objects: Objects, u: Uploader, k: nat, v: Uploader, n: nat)
    requires Agreement(a) && u in a && v in a && k <= |a[u].packages| && n <= |a[v].packages|
    requires Stored(objects, a[v], n)
    ensures Stored(AfterPut(a, objects, u, k), a[v], n)
  {
    forall j | 0 <= j < n
      ensures Holds(AfterPut(a, objects, u, k), a[v].packages[j])
    {
      assert Holds(objects, a[v].packages[j]);
      assert k < |a[u].packages| ==> Agree(a, u, k, v, j);
    }
  }

  /** A finished uploader's manifest survives puts of others that agree with it. */
  lemma ManifestStays(a: Assignment, objects: Objects, u: Uploader, k: nat, v: Uploader)
    requires Agreement(a) && u in a && v in a && k <= |a[u].packages| && a[v].manifest.key in objects
    ensures a[v].manifest.key in AfterPut(a, objects, u, k)
    ensures ManifestsAgree(a) && Holds(objects, a[v].manifest) ==> Holds(AfterPut(a, objects, u, k), a[v].manifest)
  {
  }

  lemma PhaseStays(a: Assignment, objects: Objects, u: Uploader, k: nat, v: Uploader, phase: Phase)
    requires Agreement(a) && u in a && v in a && k <= |a[u].packages| && PhaseInv(a, objects, a[v], phase)
    ensures PhaseInv(a, AfterPut(a, objects, u, k), a[v], phase)
  {
    hide Stored, Agreement, ManifestsAgree, AfterPut, Holds;
    match phase {
      case Heading(n) => StoredStays(a, objects, u, k, v, n);
      case Putting(n) => StoredStays(a, objects, u, k, v, n);
      case Verifying(n) => StoredStays(a, objects, u, k, v, n);
      case Done =>
        StoredStays(a, objects, u, k, v, |a[v].packages|);
        ManifestStays(a, objects, u, k, v);
      case Stopped =>
    }
  }

  /** Putting an item keeps all manifests safe: a manifest is put only after its packages. */
  lemma PutIsSafe(a: Assignment, objects: Objects, u: Uploader, k: nat)
    requires Agreement(a) && u in a && k <= |a[u].packages| && Safe(a, objects) && Stored(objects, a[u], k)
    ensures Safe(a, AfterPut(a, objects, u, k))
  {
    var after := AfterPut(a, objects, u, k);
    forall v | v in a
      ensures ManifestSafe(after, a[v])
    {
      if a[v].manifest.key in after {
        if a[v].manifest.key == a[u].Get(k).key {
          assert k == |a[u].packages| && a[v].packages == a[u].packages;
        } else {
          assert ManifestSafe(objects, a[v]);
        }
        StoredStays(a, objects, u, k, v, |a[v].packages|);
      }
    }
  }

  /** The invariant after uploader `u` put an item and moved to `next`. */
  lemma PutKeepsInv(a: Assignment, w: World, u: Uploader, k: nat, next: Phase)
    requires Agreement(a) && Inv(a, w) && u in a && k <= |a[u].packages| && Stored(w.objects, a[u], k)
    requires next == Verifying(k) || next == Stopped
    ensures Inv(a, World(AfterPut(a, w.objects, u, k), w.phases[u := next]))
  {
    hide Stored, Agreement, Safe, PhaseInv, AfterPut;
    var after := AfterPut(a, w.objects, u, k);
    PutIsSafe(a, w.objects, u, k);
    StoredStays(a, w.objects, u, k, u, k);
    forall v | v in a
      ensures PhaseInv(a, after, a[v], w.phases[u := next][v])
    {
      if v == u {
        NextPhase(a, after, a[u], k, next);
      } else {
        PhaseStays(a, w.objects, u, k, v, w.phases[v]);
      }
    }
  }

  lemma NextPhase(a: Assignment, objects: Objects, batch: Batch, k: nat, next: Phase)
    requires k <= |batch.packages| && Stored(objects, batch, k) && (next == Verifying(k) || next == Stopped)
    ensures PhaseInv(a, objects, batch, next)
  {
  }

  /** A step that only moves `u` keeps the invariant if its new phase is justified. */
  lemma MoveKeepsInv(a: Assignment, w: World, u: Uploader, next: Phase)
    requires Inv(a, w) && u in a && PhaseInv(a, w.objects, a[u], next)
    ensures Inv(a, w.(phases := w.phases[u := next]))
  {
    hide PhaseInv, Safe;
  }

  lemma StoredOneMore(a: Assignment, objects: Objects, batch: Batch, k: nat)
    requires k <= |batch.packages| && Stored(objects, batch, k) && Holds(objects, batch.Get(k))
    ensures PhaseInv(a, objects, batch, After(batch, k))
  {
  }

  lemma StepKeepsInv(a: Assignment, w: World, e: Event)
    requires Agreement(a) && Inv(a, w)
    ensures Inv(a, Apply(a, w, e))
  {
    if e.who in a {
      var (batch, phase) := (a[e.who], w.phases[e.who]);
      assert PhaseInv(a, w.objects, batch, phase);
      hide Agreement, Inv, Stored, Holds;
      match e {
        case Restart(u) => MoveKeepsInv(a, w, u, Heading(0));
        case PutFails(u, landed) =>
          if phase.Putting? {
            if landed {
              PutKeepsInv(a, w, u, phase.k, Stopped);
            } else {
              MoveKeepsInv(a, w, u, Stopped);
            }
          }
        case Act(u) => ActKeepsInv(a, w, u);
      }
    }
  }

  lemma ActKeepsInv(a: Assignment, w: World, u: Uploader)
    requires Agreement(a) && Inv(a, w) && u in a
    ensures Inv(a, Apply(a, w, Act(u)))
  {
    var (batch, phase) := (a[u], w.phases[u]);
    assert PhaseInv(a, w.objects, batch, phase);
    assert w.phases.Keys == a.Keys;
    hide Agreement, Inv, Stored, Holds;
    match phase {
      case Heading(k) =>
        if batch.Get(k).key !in w.objects {
          MoveKeepsInv(a, w, u, Putting(k));
        } else if Holds(w.objects, batch.Get(k)) {
          StoredOneMore(a, w.objects, batch, k);
          MoveKeepsInv(a, w, u, After(batch, k));
        } else {
          MoveKeepsInv(a, w, u, Stopped);
        }
      case Putting(k) => PutKeepsInv(a, w, u, k, Verifying(k));
      case Verifying(k) =>
        if Holds(w.objects, batch.Get(k)) {
          StoredOneMore(a, w.objects, batch, k);
          MoveKeepsInv(a, w, u, After(batch, k));
        } else {
          MoveKeepsInv(a, w, u, Stopped);
        }
      case _ => MoveKeepsInv(a, w, u, phase);
    }
  }

  /** Whatever the interleaving, failures and restarts: a visible manifest implies that every
      package it names is stored with its length and digest, and an uploader that finished left a
      complete batch. */
  lemma {:induction false} ManifestIsLast(a: Assignment, objects: Objects, events: seq<Event>)
    requires Agreement(a) && Safe(a, objects)
    ensures Inv(a, History(a, objects, events))
    ensures forall u :: u in a && a[u].manifest.key in History(a, objects, events).objects ==>
        forall k :: 0 <= k < |a[u].packages| ==> Holds(History(a, objects, events).objects, a[u].packages[k])
  {
    if events != [] {
      hide Agreement, Inv, Safe, Apply;
      ManifestIsLast(a, objects, events[..|events| - 1]);
      StepKeepsInv(a, History(a, objects, events[..|events| - 1]), events[|events| - 1]);
    }
    SafePackages(a, History(a, objects, events));
  }

  lemma SafePackages(a: Assignment, w: World)
    requires Inv(a, w)
    ensures forall u :: u in a && a[u].manifest.key in w.objects ==>
        forall k :: 0 <= k < |a[u].packages| ==> Holds(w.objects, a[u].packages[k])
  {
    forall u, k | u in a && a[u].manifest.key in w.objects && 0 <= k < |a[u].packages|
      ensures Holds(w.objects, a[u].packages[k])
    {
      assert ManifestSafe(w.objects, a[u]);
    }
  }

  // ---------------------------------------------------------------- downloads

  /** The verified download of one object against its manifest entry. */
  function Download(objects: Objects, item: Item, sha256: string -> string): Option<string> {
    if Holds(objects, item) && sha256(objects[item.key].body) == item.content.digest then Some(objects[item.key].body) else None
  }

  /** Every object carries the digest of its own body. */
  ghost predicate Honest(objects: Objects, sha256: string -> string) {
    forall key :: key in objects ==> sha256(objects[key].body) == objects[key].digest
  }

  ghost predicate HonestWriters(a: Assignment, sha256: string -> string) {
    forall u, k: nat :: u in a && k <= |a[u].packages| ==> sha256(a[u].Get(k).content.body) == a[u].Get(k).content.digest
  }

  lemma StepStaysHonest(a: Assignment, w: World, e: Event, sha256: string -> string)
    requires HonestWriters(a, sha256) && Honest(w.objects, sha256)
    ensures Honest(Apply(a, w, e).objects, sha256)
  {
  }

  lemma {:induction false} HistoryStaysHonest(a: Assignment, objects: Objects, events: seq<Event>, sha256: string -> string)
    requires HonestWriters(a, sha256) && Honest(objects, sha256)
    ensures Honest(History(a, objects, events).objects, sha256)
  {
    if events != [] {
      hide Apply, Honest, HonestWriters;
      HistoryStaysHonest(a, objects, events[..|events| - 1], sha256);
      StepStaysHonest(a, History(a, objects, events[..|events| - 1]), events[|events| - 1], sha256);
    }
  }

  /** With honest writers, a reader that sees the manifest can download every package, and a
      collision-free digest makes each one the exact body. */
  lemma VisibleBatchDownloads(a: Assignment, objects: Objects, events: seq<Event>, u: Uploader, k: nat, sha256: string -> string)
    requires Agreement(a) && Safe(a, objects) && HonestWriters(a, sha256) && Honest(objects, sha256)
    requires u in a && k < |a[u].packages| && a[u].manifest.key in History(a, objects, events).objects
    ensures var got := Download(History(a, objects, events).objects, a[u].packages[k], sha256);
      && got.Some? && |got.value| == |a[u].packages[k].content.body|
      && ((forall x, y :: sha256(x) == sha256(y) ==> x == y) ==> got.value == a[u].packages[k].content.body)
  {
    ManifestIsLast(a, objects, events);
    HistoryStaysHonest(a, objects, events, sha256);
    hide History, Agreement, Safe;
    assert Holds(History(a, objects, events).objects, a[u].packages[k]);
    assert a[u].Get(k) == a[u].packages[k];
  }

  // ---------------------------------------------------------------- exact packages

  /** Writers of a package key put the very same object there. */
  ghost predicate SamePackages(a: Assignment) {
    forall u, v, j, k :: u in a && v in a && 0 <= j < |a[u].packages| && 0 <= k < |a[v].packages| ==>
      (a[u].packages[j].key == a[v].packages[k].key ==> a[u].packages[j].content == a[v].packages[k].content)
  }

  /** What stands at a package key is that package. */
  ghost predicate Faithful(a: Assignment, objects: Objects) {
    forall u, k :: u in a && 0 <= k < |a[u].packages| && a[u].packages[k].key in objects ==>
      objects[a[u].packages[k].key] == a[u].packages[k].content
  }

  lemma StepStaysFaithful(a: Assignment, w: World, e: Event)
    requires Agreement(a) && SamePackages(a) && Faithful(a, w.objects)
    ensures Faithful(a, Apply(a, w, e).objects)
  {
    if e.who in a && e.who in w.phases && w.phases[e.who].Putting? && w.phases[e.who].k <= |a[e.who].packages| {
      PutStaysFaithful(a, w.objects, e.who, w.phases[e.who].k);
    }
    hide Faithful, SamePackages, Agreement;
  }

  lemma PutStaysFaithful(a: Assignment, objects: Objects, u: Uploader, k: nat)
    requires Agreement(a) && SamePackages(a) && Faithful(a, objects) && u in a && k <= |a[u].packages|
    ensures Faithful(a, AfterPut(a, objects, u, k))
  {
    hide Matches;
  }

  lemma {:induction false} HistoryStaysFaithful(a: Assignment, objects: Objects, events: seq<Event>)
    requires Agreement(a) && SamePackages(a) && Faithful(a, objects)
    ensures Faithful(a, History(a, objects, events).objects)
  {
    if events != [] {
      hide Apply, Agreement, SamePackages, Faithful;
      HistoryStaysFaithful(a, objects, events[..|events| - 1]);
      StepStaysFaithful(a, History(a, objects, events[..|events| - 1]), events[|events| - 1]);
    }
  }

  // ---------------------------------------------------------------- reading a manifest

  const MAX_MANIFEST_BYTES := 1000000

  datatype ManifestError = NotComplete | BadSize | BadChecksum | Unreadable | WrongBatch

  /** The text of a manifest: marked complete, not too large, and carrying its own digest. */
  function ReadManifest(objects: Objects, key: string, sha256: string -> string): Result<string, ManifestError> {
    if key !in objects || !objects[key].complete then Err(NotComplete)
    else if |objects[key].body| < 1 || |objects[key].body| > MAX_MANIFEST_BYTES then Err(BadSize)
    else if sha256(objects[key].body) != objects[key].digest then Err(BadChecksum)
    else Ok(objects[key].body)
  }

  /** The object is an item of the uploader's batch. */
  ghost predicate Carries(batch: Batch, key: string, content: Object) {
    exists k: nat :: k <= |batch.packages| && batch.Get(k).key == key && batch.Get(k).content == content
  }

  /** Every object was put by some uploader. */
  ghost predicate Written(a: Assignment, objects: Objects) {
    forall key :: key in objects ==> exists u :: u in a && Carries(a[u], key, objects[key])
  }

  lemma StepStaysWritten(a: Assignment, w: World, e: Event)
    requires Written(a, w.objects)
    ensures Written(a, Apply(a, w, e).objects)
  {
    if e.who in a && e.who in w.phases && w.phases[e.who].Putting? && w.phases[e.who].k <= |a[e.who].packages| {
      var item := a[e.who].Get(w.phases[e.who].k);
      assert Carries(a[e.who], item.key, item.content);
    }
    hide Carries;
  }

  lemma {:induction false} HistoryStaysWritten(a: Assignment, objects: Objects, events: seq<Event>)
    requires Written(a, objects)
    ensures Written(a, History(a, objects, events).objects)
  {
    if events != [] {
      hide Apply, Written;
      HistoryStaysWritten(a, objects, events[..|events| - 1]);
      StepStaysWritten(a, History(a, objects, events[..|events| - 1]), events[|events| - 1]);
    }
  }

  /** What stands at a manifest key is the manifest of some uploader with that key. */
  lemma ManifestIsSomeones(a: Assignment, objects: Objects, u: Uploader) returns (v: Uploader)
    requires Agreement(a) && Written(a, objects) && u in a && a[u].manifest.key in objects
    ensures v in a && a[v].manifest.key == a[u].manifest.key && objects[a[u].manifest.key] == a[v].manifest.content
  {
    var key := a[u].manifest.key;
    v :| v in a && Carries(a[v], key, objects[key]);
    var k: nat :| k <= |a[v].packages| && a[v].Get(k).key == key && a[v].Get(k).content == objects[key];
    assert k == |a[v].packages|;
  }

  // ---------------------------------------------------------------- why writers must agree

  ghost predicate DistinctKeys(batch: Batch) {
    forall j, k :: 0 <= j < k <= |batch.packages| ==> batch.Get(j).key != batch.Get(k).key
  }

  /** The store after an undisturbed uploader got through the first n items. */
  function Uploaded(objects: Objects, batch: Batch, n: nat): Objects
    requires n <= |batch.packages| + 1
  {
    if n == 0 then objects
    else
      var before := Uploaded(objects, batch, n - 1);
      if batch.Get(n - 1).key in before then before else before[batch.Get(n - 1).key := batch.Get(n - 1).content]
  }

  function Reached(batch: Batch, n: nat): Phase {
    if n == 0 then Heading(0) else After(batch, n - 1)
  }

  /** No stored object stands in the way of the first n items. */
  ghost predicate Clear(objects: Objects, batch: Batch, n: nat)
    requires n <= |batch.packages| + 1
  {
    forall k :: 0 <= k < n && batch.Get(k).key in objects ==> Holds(objects, batch.Get(k))
  }

  lemma {:induction false} UploadedLookup(objects: Objects, batch: Batch, n: nat, key: string)
    requires n <= |batch.packages| + 1 && DistinctKeys(batch)
    ensures key in objects ==> key in Uploaded(objects, batch, n) && Uploaded(objects, batch, n)[key] == objects[key]
    ensures forall k :: 0 <= k < n && batch.Get(k).key == key && key !in objects ==>
        key in Uploaded(objects, batch, n) && Uploaded(objects, batch, n)[key] == batch.Get(k).content
    ensures key in Uploaded(objects, batch, n) ==> key in objects || exists k :: 0 <= k < n && batch.Get(k).key == key
  {
    if n > 0 {
      UploadedLookup(objects, batch, n - 1, key);
      UploadedLookup(objects, batch, n - 1, batch.Get(n - 1).key);
    }
  }

  lemma HistorySnoc(a: Assignment, objects: Objects, events: seq<Event>, e: Event)
    ensures History(a, objects, events + [e]) == Apply(a, History(a, objects, events), e)
  {
    assert (events + [e])[..|events|] == events;
  }

  /** An uploader gets through one item that is absent or already stored. */
  lemma ItemRun(a: Assignment, objects: Objects, before: seq<Event>, u: Uploader, k: nat) returns (events: seq<Event>)
    requires var w := History(a, objects, before);
      && u in a && u in w.phases && k <= |a[u].packages| && w.phases[u] == Heading(k)
      && (a[u].Get(k).key in w.objects ==> Holds(w.objects, a[u].Get(k)))
    ensures var (w, item) := (History(a, objects, before), a[u].Get(k));
      History(a, objects, events) ==
        World(if item.key in w.objects then w.objects else w.objects[item.key := item.content], w.phases[u := After(a[u], k)])
  {
    hide History;
    var (w, item) := (History(a, objects, before), a[u].Get(k));
    HistorySnoc(a, objects, before, Act(u));
    events := before + [Act(u)];
    if item.key !in w.objects {
      HistorySnoc(a, objects, events, Act(u));
      events := events + [Act(u)];
      HistorySnoc(a, objects, events, Act(u));
      events := events + [Act(u)];
    }
    assert History(a, objects, events).phases == w.phases[u := After(a[u], k)];
  }

  /** An undisturbed uploader gets through its items. */
  lemma {:induction false} SoloRun(a: Assignment, objects: Objects, before: seq<Event>, u: Uploader, n: nat) returns (events: seq<Event>)
    requires var w := History(a, objects, before);
      && u in a && u in w.phases && n <= |a[u].packages| + 1 && w.phases[u] == Heading(0)
      && DistinctKeys(a[u]) && Clear(w.objects, a[u], n)
    ensures var w := History(a, objects, before);
      History(a, objects, events) == World(Uploaded(w.objects, a[u], n), w.phases[u := Reached(a[u], n)])
  {
    hide History;
    var w := History(a, objects, before);
    if n == 0 {
      events := before;
      assert w.phases == w.phases[u := Heading(0)];
    } else {
      var shorter := SoloRun(a, objects, before, u, n - 1);
      UploadedLookup(w.objects, a[u], n - 1, a[u].Get(n - 1).key);
      events := ItemRun(a, objects, shorter, u, n - 1);
      assert History(a, objects, events).phases == w.phases[u := Reached(a[u], n)];
    }
  }

  /** The first item of `v` that conflicts with `u`, and the package of `u` it conflicts with. */
  ghost predicate FirstConflict(a: Assignment, u: Uploader, j: nat, v: Uploader, k: nat)
    requires u in a && v in a
  {
    && j < |a[u].packages| && k <= |a[v].packages|
    && a[u].Get(j).key == a[v].Get(k).key && !Matches(a[v].Get(k).content, a[u].Get(j).content)
    && forall i, l :: 0 <= i < k && 0 <= l < |a[u].packages| && a[u].Get(l).key == a[v].Get(i).key ==>
         Matches(a[v].Get(i).content, a[u].Get(l).content)
  }

  lemma {:induction false} FindFirstConflict(a: Assignment, u: Uploader, v: Uploader, j: nat, k: nat) returns (l: nat, i: nat)
    requires u in a && v in a && j < |a[u].packages| && k <= |a[v].packages|
    requires a[u].Get(j).key == a[v].Get(k).key && !Matches(a[v].Get(k).content, a[u].Get(j).content)
    ensures FirstConflict(a, u, l, v, i)
    decreases k
  {
    l, i := j, k;
    if !FirstConflict(a, u, j, v, k) {
      var i2, l2 :| 0 <= i2 < k && 0 <= l2 < |a[u].packages| && a[u].Get(l2).key == a[v].Get(i2).key
                 && !Matches(a[v].Get(i2).content, a[u].Get(l2).content);
      l, i := FindFirstConflict(a, u, v, l2, i2);
    }
  }

  /** Whenever an item of one batch does not match a package of another under the same key, some
      history makes a manifest visible and then overwrites its package: both uploaders look before
      either writes. */
  lemma {:induction false} ConflictBreaksManifest(a: Assignment, u: Uploader, v: Uploader, j: nat, k: nat)
    requires u in a && v in a && u != v && DistinctKeys(a[u]) && DistinctKeys(a[v])
    requires forall i :: 0 <= i < |a[v].packages| ==> a[v].packages[i].key != a[u].manifest.key
    requires j < |a[u].packages| && k <= |a[v].packages|
    requires a[u].Get(j).key == a[v].Get(k).key && !Matches(a[v].Get(k).content, a[u].Get(j).content)
    ensures exists events :: !ManifestSafe(History(a, map[], events).objects, a[u])
  {
    var l, i := FindFirstConflict(a, u, v, j, k);
    var key := a[v].Get(i).key;
    hide History;
    StartWorld(a);
    var looked := SoloRun(a, map[], [], v, i);
    UploadedLookup(map[], a[v], i, key);
    HistorySnoc(a, map[], looked, Act(v));
    looked := looked + [Act(v)];
    var w := History(a, map[], looked);
    assert w.phases[v] == Putting(i) && w.phases[u] == Heading(0);
    StillClear(a, u, l, v, i);
    var finished := SoloRun(a, map[], looked, u, |a[u].packages| + 1);
    ManifestUploaded(w.objects, a[u]);
    HistorySnoc(a, map[], finished, Act(v));
    var events := finished + [Act(v)];
    var objects := History(a, map[], events).objects;
    assert objects == History(a, map[], finished).objects[key := a[v].Get(i).content];
    assert a[u].packages[l] == a[u].Get(l) && !Holds(objects, a[u].packages[l]);
    assert !ManifestSafe(objects, a[u]);
  }

  lemma StartWorld(a: Assignment)
    ensures History(a, map[], []) == Start(a, map[])
  {
  }

  lemma ManifestUploaded(objects: Objects, batch: Batch)
    requires DistinctKeys(batch)
    ensures batch.manifest.key in Uploaded(objects, batch, |batch.packages| + 1)
  {
    assert batch.Get(|batch.packages|) == batch.manifest;
    UploadedLookup(objects, batch, |batch.packages| + 1, batch.manifest.key);
  }

  /** The items before the first conflict leave the way of `u` clear. */
  lemma StillClear(a: Assignment, u: Uploader, l: nat, v: Uploader, i: nat)
    requires u in a && v in a && DistinctKeys(a[v]) && FirstConflict(a, u, l, v, i)
    requires forall n :: 0 <= n < |a[v].packages| ==> a[v].packages[n].key != a[u].manifest.key
    ensures Clear(Uploaded(map[], a[v], i), a[u], |a[u].packages| + 1)
  {
    var objects := Uploaded(map[], a[v], i);
    forall n | 0 <= n <= |a[u].packages| && a[u].Get(n).key in objects
      ensures Holds(objects, a[u].Get(n))
    {
      UploadedLookup(map[], a[v], i, a[u].Get(n).key);
      var m :| 0 <= m < i && a[v].Get(m).key == a[u].Get(n).key;
      assert a[v].Get(m) == a[v].packages[m];
    }
  }

  /** Packages are not marked complete, so a reader takes nothing but a manifest for a manifest. */
  lemma PackageIsNoManifest(a: Assignment, objects: Objects, events: seq<Event>, key: string, sha256: string -> string)
    requires Written(a, objects) && forall u, k :: u in a && 0 <= k < |a[u].packages| ==> !a[u].packages[k].content.complete
    requires forall u :: u in a ==> a[u].manifest.key != key
    ensures ReadManifest(History(a, objects, events).objects, key, sha256) == Err(NotComplete)
  {
    HistoryStaysWritten(a, objects, events);
    var after := History(a, objects, events).objects;
    if key in after {
      var u :| u in a && Carries(a[u], key, after[key]);
    }
    hide History;
  }

  /** A put that raises stops its uploader; the object may have landed, the manifest included. */
  lemma FailedPutMayLand(a: Assignment, w: World, u: Uploader, k: nat, landed: bool)
    requires u in a && u in w.phases && w.phases[u] == Putting(k) && k <= |a[u].packages|
    ensures var after := Apply(a, w, PutFails(u, landed));
      && after.phases == w.phases[u := Stopped]
      && after.objects == if landed then w.objects[a[u].Get(k).key := a[u].Get(k).content] else w.objects
  {
  }
}
