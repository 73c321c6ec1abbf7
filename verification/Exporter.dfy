/** Export batches (quant-worker/dataset_sync/exporter.py): their object keys contain the content,
    which is what makes the upload protocol safe. */
module Exporter {
  import opened Prelude
  import opened Storage
  import Csv
  import Package

  type VersionId = string

  /** A stored dataset version: one asset's daily bars. Versions never change. */
  datatype Dataset = Dataset(symbol: string, bars: seq<Package.Row>)

  /** One run of the exporter: the second it started in, the moment, and the versions it selected. */
  datatype Export = Export(stamp: string, exportedAt: int, versions: seq<VersionId>)

  /** What a manifest says about a package. */
  datatype Listed = Listed(key: string, size: nat, digest: string)

  /** A manifest: its batch and its packages in order. */
  datatype Manifest = Manifest(batchId: string, packages: seq<Listed>)

  /** The environment: stored versions, the csv writer, safe file names, the digests of version
      lists, of canonical bars and of bodies, and the writer and the parser of manifests. */
  datatype Context = Context(
    dataset: VersionId -> Dataset, dialect: Csv.Dialect, safeName: string -> string,
    versionsDigest: seq<VersionId> -> string, checksum: Dataset -> string, sha256: string -> string,
    listing: Export -> string, parse: string -> Option<Manifest>)

  const ROOT := "operations/dataset-sync/"

  function Entries(dataset: Dataset): (r: seq<Package.Entry>)
    ensures |r| == |dataset.bars|
    ensures forall i :: 0 <= i < |r| ==> r[i] == Package.Entry(dataset.symbol, "1d", dataset.bars[i])
  {
    seq(|dataset.bars|, i requires 0 <= i < |dataset.bars| => Package.Entry(dataset.symbol, "1d", dataset.bars[i]))
  }

  function Body(x: Context, dataset: Dataset): string {
    Package.PackageText(x.dialect, Package.Normalized(Entries(dataset)))
  }

  function BatchId(x: Context, e: Export): string {
    e.stamp + "-" + x.versionsDigest(e.versions)
  }

  function PackageKey(x: Context, batchId: string, dataset: Dataset): string {
    (ROOT + batchId + "/datasets/" + x.safeName(dataset.symbol) + "-") + x.checksum(dataset) + ".csv.gz"
  }

  function ManifestKey(prefix: string, batchId: string): string {
    (prefix + "/") + batchId + "/manifest.json"
  }

  function PackageItem(x: Context, batchId: string, dataset: Dataset): Item {
    Item(PackageKey(x, batchId, dataset), Object(Body(x, dataset), x.sha256(Body(x, dataset)), false))
  }

  function PackageItems(x: Context, batchId: string, versions: seq<VersionId>): (r: seq<Item>)
    ensures |r| == |versions|
    ensures forall i :: 0 <= i < |r| ==> r[i] == PackageItem(x, batchId, x.dataset(versions[i]))
  {
    seq(|versions|, i requires 0 <= i < |versions| => PackageItem(x, batchId, x.dataset(versions[i])))
  }

  function Build(x: Context, prefix: string, e: Export): Batch {
    Batch(PackageItems(x, BatchId(x, e), e.versions),
          Item(ManifestKey(prefix, BatchId(x, e)), Object(x.listing(e), x.sha256(x.listing(e)), true)))
  }

  /** Uploaders that carry exported batches into one store. */
  function Exported(x: Context, prefix: string, exports: map<Uploader, Export>): (a: Assignment)
    ensures a.Keys == exports.Keys
    ensures forall u :: u in exports ==> a[u] == Build(x, prefix, exports[u])
  {
    map u | u in exports :: Build(x, prefix, exports[u])
  }

  /** Stamps and digests have their fixed widths, and no two different things in play share a digest. */
  ghost predicate SoundDigests(x: Context, exports: map<Uploader, Export>) {
    && (forall u :: u in exports ==> |exports[u].stamp| == 16)
    && (forall d :: |x.checksum(d)| == 64)
    && (forall u, v :: u in exports && v in exports ==>
          (x.versionsDigest(exports[u].versions) == x.versionsDigest(exports[v].versions) ==> exports[u].versions == exports[v].versions))
    && (forall u, v, j, k :: u in exports && v in exports && 0 <= j < |exports[u].versions| && 0 <= k < |exports[v].versions| ==>
          SameContent(x, exports[u].versions[j], exports[v].versions[k]))
  }

  ghost predicate SameContent(x: Context, one: VersionId, other: VersionId) {
    x.checksum(x.dataset(one)) == x.checksum(x.dataset(other)) ==> x.dataset(one) == x.dataset(other)
  }

  // ---------------------------------------------------------------- keys

  lemma SplitAt(a: string, s: string, b: string, t: string)
    requires a + s == b + t
    ensures |s| == |t| ==> a == b && s == t
    ensures |a| == |b| ==> a == b && s == t
  {
    assert (a + s)[..|a|] == a && (a + s)[|a|..] == s;
    assert (b + t)[..|b|] == b && (b + t)[|b|..] == t;
  }

  /** A package key determines the checksum it was made with. */
  lemma KeyHoldsChecksum(x: Context, one: string, first: Dataset, other: string, second: Dataset)
    requires |x.checksum(first)| == |x.checksum(second)|
    requires PackageKey(x, one, first) == PackageKey(x, other, second)
    ensures x.checksum(first) == x.checksum(second)
  {
    var (head1, head2) := (ROOT + one + "/datasets/" + x.safeName(first.symbol) + "-",
                           ROOT + other + "/datasets/" + x.safeName(second.symbol) + "-");
    SplitAt(head1 + x.checksum(first), ".csv.gz", head2 + x.checksum(second), ".csv.gz");
    SplitAt(head1, x.checksum(first), head2, x.checksum(second));
  }

  lemma ManifestKeyHoldsBatch(prefix: string, one: string, other: string)
    requires ManifestKey(prefix, one) == ManifestKey(prefix, other)
    ensures one == other
  {
    SplitAt(prefix + "/" + one, "/manifest.json", prefix + "/" + other, "/manifest.json");
    SplitAt(prefix + "/", one, prefix + "/", other);
  }

  lemma BatchHoldsVersions(x: Context, one: Export, other: Export)
    requires |one.stamp| == |other.stamp| && BatchId(x, one) == BatchId(x, other)
    ensures one.stamp == other.stamp && x.versionsDigest(one.versions) == x.versionsDigest(other.versions)
  {
    SplitAt(one.stamp + "-", x.versionsDigest(one.versions), other.stamp + "-", x.versionsDigest(other.versions));
    SplitAt(one.stamp, "-", other.stamp, "-");
  }

  lemma NoManifestIsAPackage(x: Context, prefix: string, one: string, other: string, dataset: Dataset)
    ensures PackageKey(x, one, dataset) != ManifestKey(prefix, other)
  {
    var (package, manifest) := (PackageKey(x, one, dataset), ManifestKey(prefix, other));
    assert package[|package| - 1] == 'z' && manifest[|manifest| - 1] == 'n';
  }

  // ---------------------------------------------------------------- exported batches agree

  lemma PackagesAgree(x: Context, prefix: string, exports: map<Uploader, Export>, u: Uploader, j: nat, v: Uploader, k: nat)
    requires SoundDigests(x, exports) && u in exports && v in exports
    requires j < |exports[u].versions| && k < |exports[v].versions|
    requires Build(x, prefix, exports[u]).packages[j].key == Build(x, prefix, exports[v]).packages[k].key
    ensures Build(x, prefix, exports[u]).packages[j].content == Build(x, prefix, exports[v]).packages[k].content
  {
    var (first, second) := (x.dataset(exports[u].versions[j]), x.dataset(exports[v].versions[k]));
    hide PackageKey, Body, BatchId;
    KeyHoldsChecksum(x, BatchId(x, exports[u]), first, BatchId(x, exports[v]), second);
    assert SameContent(x, exports[u].versions[j], exports[v].versions[k]);
  }

  lemma ManifestsName(x: Context, prefix: string, exports: map<Uploader, Export>, u: Uploader, v: Uploader)
    requires SoundDigests(x, exports) && u in exports && v in exports
    requires Build(x, prefix, exports[u]).manifest.key == Build(x, prefix, exports[v]).manifest.key
    ensures Build(x, prefix, exports[u]).packages == Build(x, prefix, exports[v]).packages
    ensures exports[u].stamp == exports[v].stamp
  {
    hide PackageItems, ManifestKey, BatchId;
    ManifestKeyHoldsBatch(prefix, BatchId(x, exports[u]), BatchId(x, exports[v]));
    BatchHoldsVersions(x, exports[u], exports[v]);
  }

  /** Any number of uploaders of any exported batches agree: equal package keys mean equal
      packages, and a manifest key belongs to one list of packages. */
  lemma ExportsAgree(x: Context, prefix: string, exports: map<Uploader, Export>)
    requires SoundDigests(x, exports)
    ensures Agreement(Exported(x, prefix, exports)) && SamePackages(Exported(x, prefix, exports))
  {
    var a := Exported(x, prefix, exports);
    hide PackageItem, ManifestKey, PackageKey, Body, BatchId, SoundDigests, Matches;
    forall u, v, j: nat, k: nat | u in a && v in a && j < |a[u].packages| && k < |a[v].packages| && a[u].packages[j].key == a[v].packages[k].key
      ensures a[u].packages[j].content == a[v].packages[k].content
    {
      PackagesAgree(x, prefix, exports, u, j, v, k);
    }
    forall u, v | u in a && v in a && a[u].manifest.key == a[v].manifest.key
      ensures a[u].packages == a[v].packages
    {
      ManifestsName(x, prefix, exports, u, v);
    }
    forall u, v, k | u in a && v in a && 0 <= k < |a[v].packages|
      ensures a[v].packages[k].key != a[u].manifest.key
    {
      PackageItemKey(x, BatchId(x, exports[v]), x.dataset(exports[v].versions[k]));
      NoManifestIsAPackage(x, prefix, BatchId(x, exports[v]), BatchId(x, exports[u]), x.dataset(exports[v].versions[k]));
    }
    assert forall o: Object :: Matches(o, o) by {
      MatchesItself();
    }
  }

  lemma PackageItemKey(x: Context, batchId: string, dataset: Dataset)
    ensures PackageItem(x, batchId, dataset).key == PackageKey(x, batchId, dataset)
  {
  }

  lemma MatchesItself()
    ensures forall o: Object :: Matches(o, o)
  {
  }

  /** Uploaders of one run of the exporter, retries included, also carry the same manifest. */
  lemma RetriesCarryOneManifest(x: Context, prefix: string, exports: map<Uploader, Export>)
    requires SoundDigests(x, exports)
    requires forall u, v :: u in exports && v in exports && exports[u].stamp == exports[v].stamp ==> exports[u] == exports[v]
    ensures ManifestsAgree(Exported(x, prefix, exports))
  {
    var a := Exported(x, prefix, exports);
    forall u, v | u in a && v in a && a[u].manifest.key == a[v].manifest.key
      ensures Matches(a[u].manifest.content, a[v].manifest.content)
    {
      ManifestsName(x, prefix, exports, u, v);
    }
  }

  // ---------------------------------------------------------------- what readers get

  /** Whatever exporters run, fail, retry and interleave from an empty store: a visible manifest
      implies that each package it names is stored exactly and downloads verified. */
  lemma ExportedBatchesAreComplete(
      x: Context, prefix: string, exports: map<Uploader, Export>, events: seq<Event>, u: Uploader, k: nat)
    requires SoundDigests(x, exports) && u in exports && k < |exports[u].versions|
    requires ManifestKey(prefix, BatchId(x, exports[u])) in History(Exported(x, prefix, exports), map[], events).objects
    ensures var (objects, item) := (History(Exported(x, prefix, exports), map[], events).objects, Build(x, prefix, exports[u]).packages[k]);
      && item.key in objects && objects[item.key] == item.content
      && Download(objects, item, x.sha256) == Some(Body(x, x.dataset(exports[u].versions[k])))
  {
    var a := Exported(x, prefix, exports);
    var item := a[u].packages[k];
    assert Safe(a, map[]) && Faithful(a, map[]);
    assert item.content == Object(Body(x, x.dataset(exports[u].versions[k])), x.sha256(Body(x, x.dataset(exports[u].versions[k]))), false);
    hide History, Agreement, SamePackages, Safe, SoundDigests, Body, PackageKey, ManifestKey, BatchId, PackageItem, Inv;
    ExportsAgree(x, prefix, exports);
    ManifestIsLast(a, map[], events);
    HistoryStaysFaithful(a, map[], events);
    assert Holds(History(a, map[], events).objects, item);
  }

  /** From bars to bars: once the manifest is visible, a reader that downloads and decodes a
      package gets exactly the exported bars, if they are what the codec can carry. */
  lemma ExportedBarsArrive(
      x: Context, prefix: string, exports: map<Uploader, Export>, events: seq<Event>, u: Uploader, k: nat)
    requires SoundDigests(x, exports) && u in exports && k < |exports[u].versions|
    requires ManifestKey(prefix, BatchId(x, exports[u])) in History(Exported(x, prefix, exports), map[], events).objects
    requires 0 < |x.dataset(exports[u].versions[k]).bars| <= Package.MAX_DATASET_ROWS
    ensures var (dataset, objects) := (x.dataset(exports[u].versions[k]), History(Exported(x, prefix, exports), map[], events).objects);
      var (rows, digest) := (Package.Normalized(Entries(dataset)), Package.EncodeOf(x.dialect, Entries(dataset)));
      var got := Download(objects, Build(x, prefix, exports[u]).packages[k], x.sha256);
      && got.Some? && digest.Ok?
      && (Package.DecodeOf(got.value, digest.value, dataset.symbol, Package.MAX_DATASET_ROWS) == Ok(rows) <==>
            Package.AllFaithful(x.dialect, rows) && Package.StrictlyIncreasing(rows))
  {
    hide *;
    var dataset := x.dataset(exports[u].versions[k]);
    ExportedBatchesAreComplete(x, prefix, exports, events, u, k);
    BodyIsEncoded(x, dataset);
    Package.RoundTripIff(x.dialect, Entries(dataset));
  }

  lemma BodyIsEncoded(x: Context, dataset: Dataset)
    requires 0 < |dataset.bars| <= Package.MAX_DATASET_ROWS
    ensures Package.Encodable(Entries(dataset)) && Entries(dataset)[0].asset == dataset.symbol
    ensures Package.EncodeOf(x.dialect, Entries(dataset)).Ok?
    ensures Package.EncodeOf(x.dialect, Entries(dataset)).value.text == Body(x, dataset)
  {
    hide Package.PackageText, Package.Normalized;
  }

  function ListedOf(items: seq<Item>): (r: seq<Listed>)
    ensures |r| == |items|
    ensures forall i :: 0 <= i < |r| ==> r[i] == Listed(items[i].key, |items[i].content.body|, items[i].content.digest)
  {
    seq(|items|, i requires 0 <= i < |items| => Listed(items[i].key, |items[i].content.body|, items[i].content.digest))
  }

  function ManifestOf(x: Context, prefix: string, e: Export): Manifest {
    Manifest(BatchId(x, e), ListedOf(Build(x, prefix, e).packages))
  }

  /** The written manifests parse to what they list. */
  ghost predicate ManifestsParse(x: Context, prefix: string, exports: map<Uploader, Export>) {
    forall u :: u in exports ==> x.parse(x.listing(exports[u])) == Some(ManifestOf(x, prefix, exports[u]))
  }

  /** Reading the manifest of a batch: it must parse and belong to the batch it was asked for. */
  function ReadBatch(x: Context, prefix: string, objects: Objects, batchId: string): Result<Manifest, ManifestError> {
    var text := ReadManifest(objects, ManifestKey(prefix, batchId), x.sha256);
    if text.Err? then Err(text.error)
    else
      var manifest := x.parse(text.value);
      if manifest.None? then Err(Unreadable)
      else if manifest.value.batchId != batchId then Err(WrongBatch)
      else Ok(manifest.value)
  }

  /** The verified download of a listed package. */
  function DownloadListed(x: Context, objects: Objects, listed: Listed): Option<string> {
    if listed.key in objects && |objects[listed.key].body| == listed.size && objects[listed.key].digest == listed.digest
       && x.sha256(objects[listed.key].body) == listed.digest
    then Some(objects[listed.key].body) else None
  }

  /** What a reader needs to know of the stored manifest of a batch. */
  lemma StoredManifest(x: Context, prefix: string, exports: map<Uploader, Export>, events: seq<Event>, u: Uploader)
    returns (v: Uploader)
    requires SoundDigests(x, exports) && u in exports
    requires ManifestKey(prefix, BatchId(x, exports[u])) in History(Exported(x, prefix, exports), map[], events).objects
    ensures v in exports && BatchId(x, exports[v]) == BatchId(x, exports[u])
    ensures Build(x, prefix, exports[v]).packages == Build(x, prefix, exports[u]).packages
    ensures History(Exported(x, prefix, exports), map[], events).objects[ManifestKey(prefix, BatchId(x, exports[u]))]
         == Object(x.listing(exports[v]), x.sha256(x.listing(exports[v])), true)
  {
    var a := Exported(x, prefix, exports);
    assert Written(a, map[]);
    hide History, Agreement, SamePackages, PackageItems, ManifestKey, BatchId, Written, SoundDigests;
    ExportsAgree(x, prefix, exports);
    HistoryStaysWritten(a, map[], events);
    v := ManifestIsSomeones(a, History(a, map[], events).objects, u);
    ManifestsName(x, prefix, exports, v, u);
    ManifestKeyHoldsBatch(prefix, BatchId(x, exports[v]), BatchId(x, exports[u]));
  }

  lemma ReadStored(x: Context, prefix: string, exports: map<Uploader, Export>, objects: Objects, u: Uploader, v: Uploader)
    requires ManifestsParse(x, prefix, exports) && u in exports && v in exports
    requires BatchId(x, exports[v]) == BatchId(x, exports[u])
    requires Build(x, prefix, exports[v]).packages == Build(x, prefix, exports[u]).packages
    requires var key := ManifestKey(prefix, BatchId(x, exports[u]));
      key in objects && objects[key] == Object(x.listing(exports[v]), x.sha256(x.listing(exports[v])), true)
    ensures var read := ReadBatch(x, prefix, objects, BatchId(x, exports[u]));
      && (read.Ok? <==> 1 <= |x.listing(exports[v])| <= MAX_MANIFEST_BYTES)
      && (read.Ok? ==> read.value == ManifestOf(x, prefix, exports[u]))
  {
    hide ManifestKey, BatchId, PackageItems, Body;
  }

  /** Whatever exporters run, fail and interleave from an empty store: a reader that gets a manifest
      at all gets exactly what the batch lists, and every listed package downloads verified. It gets
      one exactly when some uploader put it and it is not too large. */
  lemma ReaderGetsTheBatch(x: Context, prefix: string, exports: map<Uploader, Export>, events: seq<Event>, u: Uploader)
    requires SoundDigests(x, exports) && ManifestsParse(x, prefix, exports) && u in exports
    ensures var objects := History(Exported(x, prefix, exports), map[], events).objects;
      var (key, read) := (ManifestKey(prefix, BatchId(x, exports[u])), ReadBatch(x, prefix, objects, BatchId(x, exports[u])));
      && (read.Ok? <==> key in objects && 1 <= |objects[key].body| <= MAX_MANIFEST_BYTES)
      && (read.Ok? ==> read.value == ManifestOf(x, prefix, exports[u]))
      && (read.Ok? ==> forall k :: 0 <= k < |read.value.packages| ==>
            DownloadListed(x, objects, read.value.packages[k]) == Some(Body(x, x.dataset(exports[u].versions[k]))))
  {
    var objects := History(Exported(x, prefix, exports), map[], events).objects;
    var read := ReadBatch(x, prefix, objects, BatchId(x, exports[u]));
    if ManifestKey(prefix, BatchId(x, exports[u])) in objects {
      hide History, SoundDigests, ManifestKey, BatchId, Body, PackageKey, ReadBatch, ManifestsParse;
      var v := StoredManifest(x, prefix, exports, events, u);
      ReadStored(x, prefix, exports, objects, u, v);
      if read.Ok? {
        forall k | 0 <= k < |read.value.packages|
          ensures DownloadListed(x, objects, read.value.packages[k]) == Some(Body(x, x.dataset(exports[u].versions[k])))
        {
          ExportedBatchesAreComplete(x, prefix, exports, events, u, k);
          assert Build(x, prefix, exports[u]).packages[k] == PackageItem(x, BatchId(x, exports[u]), x.dataset(exports[u].versions[k]));
        }
      }
    }
  }

  /** A download gives the stored text exactly if its length and its digest, recorded and computed, are
      the listed ones. */
  lemma DownloadIsVerified(x: Context, objects: Objects, listed: Listed, text: string)
    ensures DownloadListed(x, objects, listed) == Some(text) <==>
        && listed.key in objects && objects[listed.key].body == text
        && |text| == listed.size && objects[listed.key].digest == listed.digest && x.sha256(text) == listed.digest
  {
  }
}
