/** Versions of one dataset (quant-worker/backtest/publication.py, dataset_sync/importer.py and
    publish_adjusted_datasets.py). Every event is one transaction under the dataset's row lock; a
    checksum stands for the content it summarises. */
module Publication {
  import opened Prelude

  type VersionId = nat

  datatype Version = Version(id: VersionId, number: nat, checksum: string, active: bool)

  /** Versions stand in publication order; `adjusted` is the total-return policy. */
  datatype Dataset = Dataset(adjusted: bool, versions: seq<Version>, nextId: VersionId)

  /** `Publish` is a publication whose comparison with the active version happened earlier. */
  datatype Event =
    | Publish(checksum: string)
    | PublishIfChanged(checksum: string)
    | Deactivate
    | Prune(keep: VersionId, referenced: set<VersionId>)

  function MaxNumber(versions: seq<Version>): nat {
    if versions == [] then 0
    else
      var m := MaxNumber(versions[..|versions| - 1]);
      if versions[|versions| - 1].number > m then versions[|versions| - 1].number else m
  }

  /** The last published active version. */
  function Active(versions: seq<Version>): Option<Version> {
    if versions == [] then None
    else if versions[|versions| - 1].active then Some(versions[|versions| - 1])
    else Active(versions[..|versions| - 1])
  }

  function Deactivated(versions: seq<Version>): (r: seq<Version>)
    ensures |r| == |versions| && forall i :: 0 <= i < |r| ==> r[i] == versions[i].(active := false)
  {
    seq(|versions|, i requires 0 <= i < |versions| => versions[i].(active := false))
  }

  function Published(d: Dataset, checksum: string): Dataset {
    d.(versions := Deactivated(d.versions) + [Version(d.nextId, MaxNumber(d.versions) + 1, checksum, true)], nextId := d.nextId + 1)
  }

  /** A superseded version that no run refers to. */
  predicate Prunable(v: Version, keep: VersionId, referenced: set<VersionId>) {
    !v.active && v.id != keep && v.id !in referenced
  }

  function Pruned(versions: seq<Version>, keep: VersionId, referenced: set<VersionId>): seq<Version> {
    if versions == [] then []
    else if Prunable(versions[|versions| - 1], keep, referenced) then Pruned(versions[..|versions| - 1], keep, referenced)
    else Pruned(versions[..|versions| - 1], keep, referenced) + [versions[|versions| - 1]]
  }

  predicate Changed(d: Dataset, checksum: string) {
    Active(d.versions).None? || Active(d.versions).value.checksum != checksum
  }

  /** Only adjusted datasets are deactivated, only raw datasets are pruned. */
  function Apply(d: Dataset, e: Event): Dataset {
    match e
    case Publish(checksum) => Published(d, checksum)
    case PublishIfChanged(checksum) => if Changed(d, checksum) then Published(d, checksum) else d
    case Deactivate => if d.adjusted then d.(versions := Deactivated(d.versions)) else d
    case Prune(keep, referenced) => if d.adjusted then d else d.(versions := Pruned(d.versions, keep, referenced))
  }

  function History(adjusted: bool, events: seq<Event>): Dataset {
    if events == [] then Dataset(adjusted, [], 0) else Apply(History(adjusted, events[..|events| - 1]), events[|events| - 1])
  }

  // ---------------------------------------------------------------- the store

  function Retained(versions: seq<Version>, keep: VersionId, referenced: set<VersionId>): nat {
    if versions == [] then 0
    else
      var v := versions[|versions| - 1];
      Retained(versions[..|versions| - 1], keep, referenced) + (if !v.active && v.id != keep && v.id in referenced then 1 else 0)
  }

  class DatasetStore {
    const adjusted: bool
    var versions: seq<Version>
    var nextId: VersionId

    ghost function State(): Dataset
      reads this
    {
      Dataset(adjusted, versions, nextId)
    }

    method PublishWhenChanged(checksum: string) returns (same: bool, version: Version)
      modifies this
      ensures State() == Apply(old(State()), PublishIfChanged(checksum))
      ensures same <==> !Changed(old(State()), checksum)
      ensures Active(versions) == Some(version) && version.checksum == checksum
    {
      var active := Active(versions);
      if active.Some? && active.value.checksum == checksum {
        return true, active.value;
      }
      var number := MaxNumber(versions) + 1;
      var i := 0;
      var before := versions;
      while i < |versions|
        invariant 0 <= i <= |versions| == |before| && nextId == old(nextId)
        invariant forall k :: 0 <= k < i ==> versions[k] == before[k].(active := false)
        invariant forall k :: i <= k < |versions| ==> versions[k] == before[k]
      {
        versions := versions[i := versions[i].(active := false)];
        i := i + 1;
      }
      assert versions == Deactivated(before);
      version := Version(nextId, number, checksum, true);
      versions := versions + [version];
      nextId := nextId + 1;
      same := false;
    }

    /** Deletes superseded versions one by one; a foreign key keeps the referenced ones. */
    method PruneSuperseded(keep: VersionId, referenced: set<VersionId>) returns (pruned: nat, retained: nat)
      requires !adjusted
      modifies this
      ensures State() == Apply(old(State()), Prune(keep, referenced))
      ensures pruned == |old(versions)| - |versions| && retained == Retained(old(versions), keep, referenced)
    {
      var all := versions;
      pruned, retained := 0, 0;
      var kept: seq<Version> := [];
      for i := 0 to |all|
        invariant versions == all && nextId == old(nextId)
        invariant kept == Pruned(all[..i], keep, referenced) && pruned == i - |kept|
        invariant retained == Retained(all[..i], keep, referenced)
      {
        assert all[..i + 1][..i] == all[..i];
        var v := all[i];
        if v.active || v.id == keep {
          kept := kept + [v];
        } else if v.id in referenced {
          retained := retained + 1;
          kept := kept + [v];
        } else {
          pruned := pruned + 1;
        }
      }
      assert all[..|all|] == all;
      versions := kept;
    }
  }

  // ---------------------------------------------------------------- invariant

  ghost predicate Numbered(versions: seq<Version>) {
    forall i, j :: 0 <= i < j < |versions| ==> versions[i].number < versions[j].number && versions[i].id < versions[j].id
  }

  /** Numbers and ids grow in publication order, only the last version can be active, and the last
      version of a raw dataset always is. */
  ghost predicate Inv(d: Dataset) {
    && Numbered(d.versions)
    && (forall i :: 0 <= i < |d.versions| ==> d.versions[i].number >= 1 && d.versions[i].id < d.nextId)
    && (forall i :: 0 <= i < |d.versions| && d.versions[i].active ==> i == |d.versions| - 1)
    && (!d.adjusted && d.versions != [] ==> d.versions[|d.versions| - 1].active)
  }

  lemma {:induction false} MaxIsLast(versions: seq<Version>)
    requires Numbered(versions)
    ensures MaxNumber(versions) == if versions == [] then 0 else versions[|versions| - 1].number
  {
    if |versions| > 1 {
      MaxIsLast(versions[..|versions| - 1]);
    }
  }

  lemma {:induction false} PrunedVersions(versions: seq<Version>, keep: VersionId, referenced: set<VersionId>)
    requires Numbered(versions)
    ensures Numbered(Pruned(versions, keep, referenced))
    ensures forall v :: v in Pruned(versions, keep, referenced) <==> v in versions && !Prunable(v, keep, referenced)
  {
    if versions != [] {
      var (init, last) := (versions[..|versions| - 1], versions[|versions| - 1]);
      assert versions == init + [last];
      PrunedVersions(init, keep, referenced);
      assert forall v :: v in init ==> v.number < last.number && v.id < last.id;
    }
  }

  lemma PublishedInv(d: Dataset, checksum: string)
    requires Inv(d)
    ensures Inv(Published(d, checksum))
  {
    MaxIsLast(d.versions);
    hide MaxNumber;
  }

  lemma DeactivatedInv(d: Dataset)
    requires Inv(d) && d.adjusted
    ensures Inv(d.(versions := Deactivated(d.versions)))
  {
  }

  lemma EventKeepsInv(d: Dataset, e: Event)
    requires Inv(d)
    ensures Inv(Apply(d, e)) && Apply(d, e).adjusted == d.adjusted
  {
    match e {
      case Publish(checksum) => PublishedInv(d, checksum);
      case PublishIfChanged(checksum) => PublishedInv(d, checksum);
      case Deactivate =>
        if d.adjusted {
          DeactivatedInv(d);
        }
      case Prune(keep, referenced) =>
        if !d.adjusted {
          PrunedVersions(d.versions, keep, referenced);
          PruneKeepsLast(d, keep, referenced);
        }
    }
  }

  lemma PruneKeepsLast(d: Dataset, keep: VersionId, referenced: set<VersionId>)
    requires Inv(d) && !d.adjusted
    ensures var kept := Pruned(d.versions, keep, referenced);
      && (d.versions == [] ==> kept == [])
      && (d.versions != [] ==> kept != [] && kept[|kept| - 1] == d.versions[|d.versions| - 1])
      && (forall i :: 0 <= i < |kept| && kept[i].active ==> i == |kept| - 1)
      && (forall i :: 0 <= i < |kept| ==> kept[i].number >= 1 && kept[i].id < d.nextId)
  {
    var kept := Pruned(d.versions, keep, referenced);
    PrunedVersions(d.versions, keep, referenced);
    forall i | 0 <= i < |kept|
      ensures kept[i] in d.versions
    {
      assert kept[i] in kept;
    }
  }

  lemma {:induction false} ReachableDatasets(adjusted: bool, events: seq<Event>)
    ensures Inv(History(adjusted, events)) && History(adjusted, events).adjusted == adjusted
  {
    if events != [] {
      ReachableDatasets(adjusted, events[..|events| - 1]);
      EventKeepsInv(History(adjusted, events[..|events| - 1]), events[|events| - 1]);
    }
  }

  // ---------------------------------------------------------------- what holds in every history

  lemma {:induction false} ActiveIs(versions: seq<Version>, v: Version)
    requires v in versions && v.active
    requires forall i :: 0 <= i < |versions| && versions[i].active ==> i == |versions| - 1
    ensures Active(versions) == Some(v)
  {
  }

  lemma {:induction false} ActiveOf(versions: seq<Version>)
    ensures Active(versions).Some? ==> Active(versions).value in versions && Active(versions).value.active
    ensures Active(versions).None? ==> forall v :: v in versions ==> !v.active
  {
    if versions != [] && !versions[|versions| - 1].active {
      ActiveOf(versions[..|versions| - 1]);
      assert versions == versions[..|versions| - 1] + [versions[|versions| - 1]];
    }
  }

  /** After any history at most one version is active, it has the highest number, and a raw dataset
      that was ever published has one. */
  lemma OneActiveAndHighest(adjusted: bool, events: seq<Event>)
    ensures var versions := History(adjusted, events).versions;
      && (forall v, w :: v in versions && w in versions && v.active && w.active ==> v == w)
      && (forall v, w :: v in versions && w in versions && v.active ==> w.number <= v.number)
      && (forall v :: v in versions && v.active ==> Active(versions) == Some(v))
      && (!adjusted && versions != [] ==> Active(versions).Some?)
  {
    ReachableDatasets(adjusted, events);
    var versions := History(adjusted, events).versions;
    forall v | v in versions && v.active
      ensures Active(versions) == Some(v)
    {
      ActiveIs(versions, v);
    }
  }

  predicate Issues(d: Dataset, e: Event) {
    e.Publish? || (e.PublishIfChanged? && Changed(d, e.checksum))
  }

  /** The version numbers handed out so far, in order. */
  ghost function Issued(adjusted: bool, events: seq<Event>): seq<nat> {
    if events == [] then []
    else
      var (d, earlier) := (History(adjusted, events[..|events| - 1]), Issued(adjusted, events[..|events| - 1]));
      if Issues(d, events[|events| - 1]) then earlier + [MaxNumber(d.versions) + 1] else earlier
  }

  ghost predicate Increasing(s: seq<nat>) {
    forall i, j :: 0 <= i < j < |s| ==> s[i] < s[j]
  }

  /** The stored numbers are issued numbers, and the highest stored one was issued last. */
  ghost predicate Accounted(issued: seq<nat>, d: Dataset) {
    && Increasing(issued)
    && (forall v :: v in d.versions ==> v.number in issued)
    && MaxNumber(d.versions) == (if issued == [] then 0 else issued[|issued| - 1])
  }

  lemma IncreasingSnoc(s: seq<nat>, x: nat)
    requires Increasing(s) && (s != [] ==> s[|s| - 1] < x)
    ensures Increasing(s + [x])
  {
  }

  lemma AccountedStep(issued: seq<nat>, d: Dataset, e: Event)
    requires Inv(d) && Accounted(issued, d)
    ensures Accounted(if Issues(d, e) then issued + [MaxNumber(d.versions) + 1] else issued, Apply(d, e))
  {
    hide Apply, Inv, Issues, MaxNumber, Increasing;
    NumbersAfter(d, e);
    var next := MaxNumber(d.versions) + 1;
    var more := if Issues(d, e) then issued + [next] else issued;
    IncreasingSnoc(issued, next);
    forall v | v in Apply(d, e).versions
      ensures v.number in more
    {
      if !(Issues(d, e) && v.number == next) {
        var w :| w in d.versions && w.number == v.number;
        assert v.number in issued;
      } else {
        assert more[|issued|] == next;
      }
    }
  }

  /** Numbers are handed out in strictly growing order, also across prunes and deactivations, and
      every stored version carries one of them; the highest one is always still stored. */
  lemma {:induction false} NumbersAreNeverReused(adjusted: bool, events: seq<Event>)
    ensures Accounted(Issued(adjusted, events), History(adjusted, events))
  {
    if events != [] {
      var (init, e) := (events[..|events| - 1], events[|events| - 1]);
      hide Apply, Inv, Accounted;
      NumbersAreNeverReused(adjusted, init);
      ReachableDatasets(adjusted, init);
      AccountedStep(Issued(adjusted, init), History(adjusted, init), e);
    }
  }

  lemma MaxAfter(d: Dataset, e: Event)
    requires Inv(d)
    ensures MaxNumber(Apply(d, e).versions) == MaxNumber(d.versions) + (if Issues(d, e) then 1 else 0)
  {
    EventKeepsInv(d, e);
    MaxIsLast(d.versions);
    MaxIsLast(Apply(d, e).versions);
    if e.Prune? && !d.adjusted {
      PruneKeepsLast(d, e.keep, e.referenced);
    }
    hide MaxNumber, Numbered, Pruned, Active;
  }

  lemma NumbersAfter(d: Dataset, e: Event)
    requires Inv(d)
    ensures MaxNumber(Apply(d, e).versions) == MaxNumber(d.versions) + (if Issues(d, e) then 1 else 0)
    ensures forall v :: v in Apply(d, e).versions ==>
        (exists w :: w in d.versions && w.number == v.number) || (Issues(d, e) && v.number == MaxNumber(d.versions) + 1)
  {
    hide *;
    MaxAfter(d, e);
    forall v | v in Apply(d, e).versions
      ensures (exists w :: w in d.versions && w.number == v.number) || (Issues(d, e) && v.number == MaxNumber(d.versions) + 1)
    {
      var w := Origin(d, e, v);
    }
  }

  /** Where a version of the next state comes from: an old version, or this publication. */
  lemma Origin(d: Dataset, e: Event, v: Version) returns (w: Version)
    requires Inv(d) && v in Apply(d, e).versions
    ensures if w in d.versions then v == w.(active := v.active)
            else Issues(d, e) && v == w && v.id == d.nextId && v.number == MaxNumber(d.versions) + 1
  {
    var after := Apply(d, e).versions;
    var i :| 0 <= i < |after| && after[i] == v;
    if e.Prune? && !d.adjusted {
      PrunedVersions(d.versions, e.keep, e.referenced);
      w := v;
    } else if i < |d.versions| {
      w := d.versions[i];
      assert d.versions[i] in d.versions;
    } else {
      w := v;
      assert forall k :: 0 <= k < |d.versions| ==> d.versions[k].id < d.nextId;
    }
  }

  lemma SameId(versions: seq<Version>, v: Version, w: Version)
    requires Numbered(versions) && v in versions && w in versions && v.id == w.id
    ensures v == w
  {
  }

  /** A stored version never changes its number or its content. */
  lemma {:induction false} VersionsAreImmutable(adjusted: bool, events: seq<Event>, later: seq<Event>, v: Version, w: Version)
    requires v in History(adjusted, events).versions && w in History(adjusted, events + later).versions && v.id == w.id
    ensures v.number == w.number && v.checksum == w.checksum
  {
    hide Apply, Inv;
    ReachableDatasets(adjusted, events);
    if later == [] {
      assert events + later == events;
      SameId(History(adjusted, events).versions, v, w);
    } else {
      var (init, e) := (later[..|later| - 1], later[|later| - 1]);
      assert (events + later)[..|events + later| - 1] == events + init;
      var d := History(adjusted, events + init);
      ReachableDatasets(adjusted, events + init);
      IdsGrow(adjusted, events, init);
      StoredIdsAreOld(History(adjusted, events), v);
      hide History;
      var before := Origin(d, e, w);
      if before in d.versions {
        VersionsAreImmutable(adjusted, events, init, v, before);
      }
    }
  }

  lemma StoredIdsAreOld(d: Dataset, v: Version)
    requires Inv(d) && v in d.versions
    ensures v.id < d.nextId
  {
  }

  lemma {:induction false} IdsGrow(adjusted: bool, events: seq<Event>, later: seq<Event>)
    ensures History(adjusted, events).nextId <= History(adjusted, events + later).nextId
  {
    if later == [] {
      assert events + later == events;
    } else {
      assert (events + later)[..|events + later| - 1] == events + later[..|later| - 1];
      IdsGrow(adjusted, events, later[..|later| - 1]);
    }
  }

  /** Publishing the active content again changes nothing. */
  lemma RepublishChangesNothing(d: Dataset, e: Event, checksum: string)
    requires Inv(d) && (e == Publish(checksum) || e == PublishIfChanged(checksum))
    ensures Apply(Apply(d, e), PublishIfChanged(checksum)) == Apply(d, e)
  {
  }

  function Superseded(versions: seq<Version>, keep: VersionId): nat {
    if versions == [] then 0
    else Superseded(versions[..|versions| - 1], keep) + (if !versions[|versions| - 1].active && versions[|versions| - 1].id != keep then 1 else 0)
  }

  lemma {:induction false} PruneCounts(versions: seq<Version>, keep: VersionId, referenced: set<VersionId>)
    ensures |versions| - |Pruned(versions, keep, referenced)| + Retained(versions, keep, referenced) == Superseded(versions, keep)
  {
    if versions != [] {
      PruneCounts(versions[..|versions| - 1], keep, referenced);
    }
  }

  /** Pruning deletes exactly the superseded versions nothing refers to; the active version stays,
      and every superseded version is counted once, as pruned or as retained. */
  lemma PruneIsExact(d: Dataset, keep: VersionId, referenced: set<VersionId>)
    requires Inv(d) && !d.adjusted
    ensures var after := Apply(d, Prune(keep, referenced));
      && Active(after.versions) == Active(d.versions)
      && (forall v :: v in after.versions <==> v in d.versions && !(!v.active && v.id != keep && v.id !in referenced))
      && |d.versions| - |after.versions| + Retained(d.versions, keep, referenced) == Superseded(d.versions, keep)
  {
    PruneKeepsLast(d, keep, referenced);
    PrunedVersions(d.versions, keep, referenced);
    PruneCounts(d.versions, keep, referenced);
  }

  /** A publication adds one active version with its content and leaves the others inactive; publishing if
      changed does so exactly when the active content is another, and never for equal content. */
  lemma PublicationAdds(d: Dataset, checksum: string)
    requires Inv(d)
    ensures var after := Apply(d, Publish(checksum)).versions;
      && |after| == |d.versions| + 1 && after[|d.versions|].active && after[|d.versions|].checksum == checksum
      && (forall i :: 0 <= i < |d.versions| ==> after[i] == d.versions[i].(active := false))
    ensures var same := exists v :: v in d.versions && v.active && v.checksum == checksum;
      Apply(d, PublishIfChanged(checksum)) == if same then d else Apply(d, Publish(checksum))
  {
    ActiveOf(d.versions);
    if v :| v in d.versions && v.active {
      ActiveIs(d.versions, v);
    }
    hide MaxNumber, Active;
  }

  /** Deactivating an adjusted dataset keeps every version, none of them active; raw datasets are never
      deactivated and adjusted ones never pruned. */
  lemma DeactivationIsComplete(d: Dataset, keep: VersionId, referenced: set<VersionId>)
    ensures var after := Apply(d, Deactivate);
      && (d.adjusted ==>
            && |after.versions| == |d.versions|
            && forall i :: 0 <= i < |d.versions| ==> after.versions[i] == d.versions[i].(active := false))
      && (!d.adjusted ==> after == d)
    ensures d.adjusted ==> Apply(d, Prune(keep, referenced)) == d
  {
  }
}
