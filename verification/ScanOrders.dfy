/** A whole scan, from the listing to the jobs: which objects lead to jobs, in which order and how often. */
module ScanOrders {
  import opened Sequences
  import opened Sections
  import opened MetadataStores
  import opened S = Scanners
  import opened ScanTheorems

  /** `p` picks places below `n`, each later one further on. */
  ghost predicate Picks(p: seq<nat>, n: nat) {
    && (forall k :: 0 <= k < |p| ==> p[k] < n)
    && forall k, l :: 0 <= k < l < |p| ==> p[k] < p[l]
  }

  lemma PicksOneMore(p: seq<nat>, n: nat)
    requires Picks(p, n)
    ensures Picks(p, n + 1) && Picks(p + [n], n + 1)
  {
  }

  // ---- from the listing to the files ----

  /** The file an object stands for. */
  ghost predicate FileOf(cfg: S.Config, bucket: string, o: Object, item: Item) {
    && cfg.supported(o.key)
    && item.key == o.key && item.uri == "s3://" + bucket + "/" + o.key
    && item.lastModified == o.lastModified && item.fileName == cfg.nameOf(o.key)
  }

  ghost predicate FilesAt(cfg: S.Config, bucket: string, objects: seq<Object>, items: seq<Item>, p: seq<nat>) {
    && |p| == |items| && Picks(p, |objects|)
    && (forall k :: 0 <= k < |p| ==> FileOf(cfg, bucket, objects[p[k]], items[k]))
    && forall i: nat :: i < |objects| && cfg.supported(objects[i].key) ==> i in p
  }

  lemma FileAdded(cfg: S.Config, bucket: string, objects: seq<Object>, items: seq<Item>, p: seq<nat>, o: Object, item: Item)
    requires FilesAt(cfg, bucket, objects, items, p) && FileOf(cfg, bucket, o, item)
    ensures FilesAt(cfg, bucket, objects + [o], items + [item], p + [|objects|])
  {
    PicksOneMore(p, |objects|);
    forall i: nat | i < |objects + [o]| && cfg.supported((objects + [o])[i].key)
      ensures i in p + [|objects|]
    {
      if i < |objects| { assert i in p; }
    }
  }

  lemma FileSkipped(cfg: S.Config, bucket: string, objects: seq<Object>, items: seq<Item>, p: seq<nat>, o: Object)
    requires FilesAt(cfg, bucket, objects, items, p) && !cfg.supported(o.key)
    ensures FilesAt(cfg, bucket, objects + [o], items, p)
  {
    PicksOneMore(p, |objects|);
  }

  lemma {:induction false} ItemsPicked(cfg: S.Config, bucket: string, objects: seq<Object>) returns (p: seq<nat>)
    ensures FilesAt(cfg, bucket, objects, ItemsOf(cfg, bucket, objects), p)
  {
    if objects == [] {
      p := [];
    } else {
      var n := |objects| - 1;
      var items := ItemsOf(cfg, bucket, objects[..n]);
      p := ItemsPicked(cfg, bucket, objects[..n]);
      assert objects == objects[..n] + [objects[n]];
      if cfg.supported(objects[n].key) {
        FileAdded(cfg, bucket, objects[..n], items, p, objects[n], ItemOf(cfg, bucket, objects[n]));
        p := p + [n];
      } else {
        FileSkipped(cfg, bucket, objects[..n], items, p, objects[n]);
        assert items + [] == items;
      }
    }
  }

  /** Of all pages together, in their order, exactly the objects with a supported suffix are discovered. */
  lemma DiscoveredAre(cfg: S.Config, bucket: string, pages: seq<seq<Object>>) returns (p: seq<nat>)
    ensures FilesAt(cfg, bucket, Flatten(pages), Discovered(cfg, bucket, pages), p)
  {
    DiscoveredOfAll(cfg, bucket, pages);
    p := ItemsPicked(cfg, bucket, Flatten(pages));
  }

  // ---- from the files to the jobs ----

  ghost predicate JobsAt(cfg: S.Config, docs: Documents, items: seq<Item>, prefix: string, now: int, jobs: seq<Job>, p: seq<nat>) {
    && |p| == |jobs| && Picks(p, |items|)
    && (forall k :: 0 <= k < |p| ==> EmittedFor(cfg, docs, items[p[k]], prefix, now, jobs[k]))
    && forall i: nat :: i < |items| && NeedsIngest(cfg, docs, items[i], now) ==> i in p
  }

  ghost predicate FindsRecords(cfg: S.Config, docs: Documents, found: map<string, DocumentRecord>, items: seq<Item>) {
    forall i :: 0 <= i < |items| ==> Lookup(found, items[i].uri) == RecordFor(cfg, docs, items[i].uri)
  }

  lemma JobAdded(cfg: S.Config, docs: Documents, items: seq<Item>, prefix: string, now: int, jobs: seq<Job>, p: seq<nat>,
                 item: Item, job: Job)
    requires JobsAt(cfg, docs, items, prefix, now, jobs, p) && EmittedFor(cfg, docs, item, prefix, now, job)
    ensures JobsAt(cfg, docs, items + [item], prefix, now, jobs + [job], p + [|items|])
  {
    PicksOneMore(p, |items|);
    forall i: nat | i < |items + [item]| && NeedsIngest(cfg, docs, (items + [item])[i], now)
      ensures i in p + [|items|]
    {
      if i < |items| { assert i in p; }
    }
  }

  lemma JobSkipped(cfg: S.Config, docs: Documents, items: seq<Item>, prefix: string, now: int, jobs: seq<Job>, p: seq<nat>,
                   item: Item)
    requires JobsAt(cfg, docs, items, prefix, now, jobs, p) && !NeedsIngest(cfg, docs, item, now)
    ensures JobsAt(cfg, docs, items + [item], prefix, now, jobs, p)
  {
    PicksOneMore(p, |items|);
  }

  lemma JobFor(cfg: S.Config, docs: Documents, item: Item, prefix: string, now: int)
    requires KeyedDocs(cfg.docIdOf, docs) && NeedsIngest(cfg, docs, item, now)
    ensures EmittedFor(cfg, docs, item, prefix, now, JobOf(cfg, RecordFor(cfg, docs, item.uri), item, prefix))
  {
  }

  lemma {:induction false} JobsPicked(cfg: S.Config, docs: Documents, found: map<string, DocumentRecord>, items: seq<Item>,
                                      prefix: string, now: int) returns (p: seq<nat>)
    requires KeyedDocs(cfg.docIdOf, docs) && FindsRecords(cfg, docs, found, items)
    ensures JobsAt(cfg, docs, items, prefix, now, JobsOf(cfg, found, items, prefix, now), p)
  {
    if items == [] {
      p := [];
    } else {
      var n := |items| - 1;
      var jobs := JobsOf(cfg, found, items[..n], prefix, now);
      p := JobsPicked(cfg, docs, found, items[..n], prefix, now);
      NeedsIngestIff(cfg, docs, items[n], now);
      assert items == items[..n] + [items[n]];
      if NeedsIngest(cfg, docs, items[n], now) {
        JobFor(cfg, docs, items[n], prefix, now);
        JobAdded(cfg, docs, items[..n], prefix, now, jobs, p, items[n], JobOf(cfg, RecordFor(cfg, docs, items[n].uri), items[n], prefix));
        p := p + [n];
      } else {
        JobSkipped(cfg, docs, items[..n], prefix, now, jobs, p, items[n]);
        assert jobs + [] == jobs;
      }
    }
  }

  /** A scan emits one job for each file that needs one, in the order of the files, and no other. */
  lemma JobsAre(cfg: S.Config, docs: Documents, items: seq<Item>, prefix: string, now: int) returns (p: seq<nat>)
    requires S.ValidConfig(cfg) && docs.Valid() && KeyedDocs(cfg.docIdOf, docs) && RealUris(items)
    ensures JobsAt(cfg, docs, items, prefix, now, ScanJobs(cfg, docs, items, prefix, now), p)
  {
    var found := ByPath(docs.Values(), WantedOf(items));
    forall i | 0 <= i < |items|
      ensures Lookup(found, items[i].uri) == RecordFor(cfg, docs, items[i].uri)
    {
      assert Uris(items)[i] in Uris(items);
      FoundIsTheRecord(cfg, docs, WantedOf(items), items[i].uri);
    }
    p := JobsPicked(cfg, docs, found, items, prefix, now);
  }

  // ---- both together ----

  /** From a listing that names each key once: an object leads to a job exactly when its suffix is supported and
      its file has no record, or one that is outdated. */
  lemma ObjectEmittedIff(cfg: S.Config, docs: Documents, bucket: string, prefix: string, pages: seq<seq<Object>>, now: int, i: nat)
    requires S.ValidConfig(cfg) && docs.Valid() && KeyedDocs(cfg.docIdOf, docs)
    requires DistinctKeys(Flatten(pages)) && i < |Flatten(pages)|
    ensures var o := Flatten(pages)[i]; var uri := "s3://" + bucket + "/" + o.key; var x := cfg.docIdOf(uri);
            EmitsFile(cfg, docs, Discovered(cfg, bucket, pages), prefix, now, uri) <==>
              && cfg.supported(o.key)
              && (x in docs.vals && docs.vals[x].filePath == uri ==>
                    Outdated(docs.vals[x], o.lastModified, cfg.staleSeconds, now))
  {
    var objects, items := Flatten(pages), Discovered(cfg, bucket, pages);
    var o := objects[i];
    var p := DiscoveredAre(cfg, bucket, pages);
    ListingIsDistinct(cfg, bucket, pages);
    var uri := "s3://" + bucket + "/" + o.key;
    if cfg.supported(o.key) {
      assert i in p;
      var k :| 0 <= k < |p| && p[k] == i;
      assert FileOf(cfg, bucket, objects[p[k]], items[k]);
      FileEmittedIff(cfg, docs, items, prefix, now, k);
    } else if EmitsFile(cfg, docs, items, prefix, now, uri) {
      var job :| ScanEmits(cfg, docs, items, prefix, now, job) && job.fileUri == uri;
      ScanEmitsExactly(cfg, docs, items, prefix, now, job);
      var k :| 0 <= k < |items| && EmittedFor(cfg, docs, items[k], prefix, now, job);
      assert FileOf(cfg, bucket, objects[p[k]], items[k]);
      UrisTellKeysApart(bucket, objects[p[k]].key, o.key);
    }
  }
}
