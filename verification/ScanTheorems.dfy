/** Scanner, claim and ingest runs agree about which files are to be ingested. */
module ScanTheorems {
  import opened Sequences
  import opened Sections
  import opened MetadataStores
  import opened IngestRuns
  import opened IngestInvariants
  import opened IngestSystems
  import opened S = Scanners
  import D = Dispatchers

  // ---- which jobs a scan emits ----

  ghost predicate Emits(cfg: S.Config, found: map<string, DocumentRecord>, item: Item, prefix: string, now: int, job: Job) {
    && ShouldIngest(Lookup(found, item.uri), item.lastModified, cfg.staleSeconds, now)
    && job == JobOf(cfg, Lookup(found, item.uri), item, prefix)
  }

  ghost predicate SomeEmits(cfg: S.Config, found: map<string, DocumentRecord>, items: seq<Item>, prefix: string, now: int, job: Job) {
    exists i :: 0 <= i < |items| && Emits(cfg, found, items[i], prefix, now, job)
  }

  lemma SomeEmitsNext(cfg: S.Config, found: map<string, DocumentRecord>, items: seq<Item>, item: Item, prefix: string, now: int, job: Job)
    ensures SomeEmits(cfg, found, items + [item], prefix, now, job)
            <==> SomeEmits(cfg, found, items, prefix, now, job) || Emits(cfg, found, item, prefix, now, job)
  {
    if i :| 0 <= i < |items| && Emits(cfg, found, items[i], prefix, now, job) {
      assert Emits(cfg, found, (items + [item])[i], prefix, now, job);
    }
    if Emits(cfg, found, item, prefix, now, job) { assert Emits(cfg, found, (items + [item])[|items|], prefix, now, job); }
  }

  lemma {:induction false} JobsSpec(cfg: S.Config, found: map<string, DocumentRecord>, items: seq<Item>, prefix: string, now: int, job: Job)
    ensures job in JobsOf(cfg, found, items, prefix, now) <==> SomeEmits(cfg, found, items, prefix, now, job)
  {
    if items != [] {
      var n := |items| - 1;
      JobsSpec(cfg, found, items[..n], prefix, now, job);
      SomeEmitsNext(cfg, found, items[..n], items[n], prefix, now, job);
      assert items == items[..n] + [items[n]];
    }
  }

  /** A scan of the listing `items` emits the job. */
  ghost predicate ScanEmits(cfg: S.Config, docs: Documents, items: seq<Item>, prefix: string, now: int, job: Job) {
    docs.Valid() && job in ScanJobs(cfg, docs, items, prefix, now)
  }

  // ---- records are found under their own path ----

  /** A record either stands for the file its identifier was made from, or is a stub without a path, which is
      neither INDEXING nor INDEXED. */
  ghost predicate KeyedRecord(docIdOf: string -> string, doc: DocumentRecord) {
    if doc.filePath == "" then !doc.status.Indexing? && !doc.status.Indexed? else doc.id == docIdOf(doc.filePath)
  }

  ghost predicate KeyedDocs(docIdOf: string -> string, docs: Documents) {
    forall x :: x in docs.vals ==> docs.vals[x].id == x && KeyedRecord(docIdOf, docs.vals[x])
  }

  ghost predicate KeyedJob(docIdOf: string -> string, job: Job) {
    job.fileUri != "" && job.docId == docIdOf(job.fileUri)
  }

  /** The scanner finds a file's record exactly when there is one, whichever other files it asks for. */
  lemma FoundIsTheRecord(cfg: S.Config, docs: Documents, wanted: set<string>, uri: string)
    requires S.ValidConfig(cfg) && docs.Valid() && KeyedDocs(cfg.docIdOf, docs) && uri in wanted && uri != ""
    ensures var x := cfg.docIdOf(uri);
            Lookup(ByPath(docs.Values(), wanted), uri)
            == if x in docs.vals && docs.vals[x].filePath == uri then Some(docs.vals[x]) else None
  {
    var records := docs.Values();
    var found := ByPath(records, wanted);
    ByPathSpec(records, wanted, uri);
    var x := cfg.docIdOf(uri);
    if uri in found {
      var i :| 0 <= i < |records| && records[i] == found[uri] && records[i].filePath == uri;
      assert docs.order[i] in docs.order;
      assert docs.order[i] in docs.vals && docs.vals[docs.order[i]] == records[i];
    }
    if x in docs.vals && docs.vals[x].filePath == uri {
      var i :| 0 <= i < |docs.order| && docs.order[i] == x;
      assert records[i] == docs.vals[x];
    }
  }

  lemma {:induction false} ItemsHaveUris(cfg: S.Config, bucket: string, objects: seq<Object>, i: nat)
    requires i < |ItemsOf(cfg, bucket, objects)|
    ensures ItemsOf(cfg, bucket, objects)[i].uri != ""
  {
    var n := |objects| - 1;
    if i < |ItemsOf(cfg, bucket, objects[..n])| { ItemsHaveUris(cfg, bucket, objects[..n], i); }
  }

  ghost predicate RealUris(items: seq<Item>) {
    forall i :: 0 <= i < |items| ==> items[i].uri != ""
  }

  lemma {:induction false} DiscoveredAreReal(cfg: S.Config, bucket: string, pages: seq<seq<Object>>)
    ensures RealUris(Discovered(cfg, bucket, pages))
  {
    if pages != [] {
      var n := |pages| - 1;
      DiscoveredAreReal(cfg, bucket, pages[..n]);
      forall i | 0 <= i < |ItemsOf(cfg, bucket, pages[n])|
        ensures ItemsOf(cfg, bucket, pages[n])[i].uri != ""
      {
        ItemsHaveUris(cfg, bucket, pages[n], i);
      }
    }
  }

  /** The record a scan consults for a file. */
  function RecordFor(cfg: S.Config, docs: Documents, uri: string): Option<DocumentRecord> {
    var x := cfg.docIdOf(uri);
    if x in docs.vals && docs.vals[x].filePath == uri then Some(docs.vals[x]) else None
  }

  /** A record that a scan does not leave alone: FAILED or PENDING, INDEXING for at least the configured time or
      with no such time configured, or INDEXED in a version known to be older than the file. */
  predicate Outdated(doc: DocumentRecord, lastModified: int, staleSeconds: nat, now: int) {
    || doc.status == Failed || doc.status == Pending
    || (doc.status == Indexing && (staleSeconds == 0 || now - doc.updatedAt >= staleSeconds))
    || (doc.status == Indexed && doc.s3LastModified.Some? && doc.s3LastModified.value < lastModified)
  }

  /** The file has no record under its identifier and path, or one that is outdated. */
  predicate NeedsIngest(cfg: S.Config, docs: Documents, item: Item, now: int) {
    var x := cfg.docIdOf(item.uri);
    x in docs.vals && docs.vals[x].filePath == item.uri ==> Outdated(docs.vals[x], item.lastModified, cfg.staleSeconds, now)
  }

  lemma NeedsIngestIff(cfg: S.Config, docs: Documents, item: Item, now: int)
    ensures NeedsIngest(cfg, docs, item, now) <==>
            ShouldIngest(RecordFor(cfg, docs, item.uri), item.lastModified, cfg.staleSeconds, now)
  {
  }

  /** A scan emits a job for exactly the files that need one, and the job's document is the file's. */
  lemma ScanEmitsExactly(cfg: S.Config, docs: Documents, items: seq<Item>, prefix: string, now: int, job: Job)
    requires S.ValidConfig(cfg) && docs.Valid() && KeyedDocs(cfg.docIdOf, docs) && RealUris(items)
    ensures ScanEmits(cfg, docs, items, prefix, now, job) <==>
              exists i :: 0 <= i < |items| && EmittedFor(cfg, docs, items[i], prefix, now, job)
  {
    var found := ByPath(docs.Values(), WantedOf(items));
    JobsSpec(cfg, found, items, prefix, now, job);
    forall i | 0 <= i < |items|
      ensures Emits(cfg, found, items[i], prefix, now, job) <==> EmittedFor(cfg, docs, items[i], prefix, now, job)
    {
      assert Uris(items)[i] in Uris(items);
      FoundIsTheRecord(cfg, docs, WantedOf(items), items[i].uri);
      NeedsIngestIff(cfg, docs, items[i], now);
    }
  }

  ghost predicate EmittedFor(cfg: S.Config, docs: Documents, item: Item, prefix: string, now: int, job: Job) {
    && NeedsIngest(cfg, docs, item, now)
    && job == Job(cfg.docIdOf(item.uri), item.uri, "vi", DocumentType(cfg, item.key, prefix),
                  Some(item.lastModified), Some(item.fileName))
  }

  /** Every job a scan emits can be claimed at any later time, as long as its record is not touched. */
  lemma EmittedIsClaimable(cfg: S.Config, docs: Documents, items: seq<Item>, prefix: string, now: int, job: Job,
                           docs': Documents, later: int)
    requires S.ValidConfig(cfg) && docs.Valid() && KeyedDocs(cfg.docIdOf, docs) && RealUris(items)
    requires ScanEmits(cfg, docs, items, prefix, now, job)
    requires now <= later && docs'.Get(job.docId) == docs.Get(job.docId)
    ensures Claimable(docs', job.docId, cfg.staleSeconds, later)
    ensures KeyedJob(cfg.docIdOf, job)
  {
    ScanEmitsExactly(cfg, docs, items, prefix, now, job);
    var i :| 0 <= i < |items| && EmittedFor(cfg, docs, items[i], prefix, now, job);
    var x := job.docId;
    NeedsIngestIff(cfg, docs, items[i], now);
    assert x in docs.vals ==> KeyedRecord(cfg.docIdOf, docs.vals[x]);
    ClaimableStays(docs, docs', x, cfg.staleSeconds, now, later);
  }

  // ---- the loop closes: what runs leave behind, scans understand ----

  ghost predicate KeyedJobs(docIdOf: string -> string, jobs: seq<Job>) {
    forall i :: 0 <= i < |jobs| ==> KeyedJob(docIdOf, jobs[i])
  }

  /** The dispatcher is only given jobs that scans emitted. */
  ghost predicate FromScans(docIdOf: string -> string, es: seq<IngestSystems.Event>) {
    forall i :: 0 <= i < |es| && es[i].Dispatch? && es[i].e.EvEnqueue? ==> KeyedJobs(docIdOf, es[i].e.jobs)
  }

  ghost predicate KeyedSystem(docIdOf: string -> string, s: System) {
    && KeyedDocs(docIdOf, s.w.docs)
    && KeyedJobs(docIdOf, s.d.queue)
    && (s.d.held.Some? ==> KeyedJob(docIdOf, s.d.held.value))
    && forall i :: 0 <= i < |s.runs| ==> KeyedJob(docIdOf, s.runs[i].job)
  }

  lemma {:induction false} EnqueueKeepsKeyed(docIdOf: string -> string, lim: D.Limits, d: D.State, jobs: seq<Job>)
    requires KeyedJobs(docIdOf, d.queue) && KeyedJobs(docIdOf, jobs)
    ensures KeyedJobs(docIdOf, D.EnqueueAll(lim, d, jobs).queue)
  {
    if jobs != [] { EnqueueKeepsKeyed(docIdOf, lim, d, jobs[..|jobs| - 1]); }
  }

  lemma DispatchKeepsKeyed(docIdOf: string -> string, cfg: IngestSystems.Config, s: System, e: D.Event)
    requires KeyedSystem(docIdOf, s) && IngestSystems.Enabled(s, Dispatch(e))
    requires e.EvEnqueue? ==> KeyedJobs(docIdOf, e.jobs)
    ensures KeyedSystem(docIdOf, IngestSystems.Step(cfg, s, Dispatch(e)))
  {
    if e.EvEnqueue? {
      EnqueueKeepsKeyed(docIdOf, cfg.limits, s.d, e.jobs);
      EnqueueKeepsTasks(cfg.limits, s.d, e.jobs);
    }
  }

  /** What a call does to the records. */
  lemma EffectKeepsKeyed(docIdOf: string -> string, cfg: Settings, w: World, r: Run, now: int, k: nat)
    requires KeyedDocs(docIdOf, w.docs) && KeyedJob(docIdOf, r.job)
    requires r.pc.Marking? || r.pc.Confirming? ==> Has(w.docs.Get(r.job.docId), Indexing)
    ensures KeyedDocs(docIdOf, Effect(cfg, w, r, now, k).docs)
  {
  }

  lemma StageKeepsKeyed(docIdOf: string -> string, cfg: Settings, r: Run, supply: Supply)
    requires KeyedJob(docIdOf, r.job)
    ensures KeyedJob(docIdOf, Stage(cfg, r, supply).job)
  {
  }

  lemma RunStepKeepsKeyed(docIdOf: string -> string, cfg: Settings, w: World, r: Run, a: Action)
    requires KeyedDocs(docIdOf, w.docs) && KeyedJob(docIdOf, r.job) && RunEnabled(r, a)
    requires r.pc.Marking? || r.pc.Confirming? ==> Has(w.docs.Get(r.job.docId), Indexing)
    ensures KeyedDocs(docIdOf, RunStep(cfg, w, r, a).w.docs)
    ensures KeyedJob(docIdOf, RunStep(cfg, w, r, a).r.job)
  {
    match a
    case Go(now, supply) =>
      EffectKeepsKeyed(docIdOf, cfg, w, r, now, Whole(w, r));
      StageKeepsKeyed(docIdOf, cfg, r, supply);
    case Raise(now, k) => EffectKeepsKeyed(docIdOf, cfg, w, r, now, k);
    case Cancel =>
  }

  lemma KeyedKept(docIdOf: string -> string, cfg: IngestSystems.Config, s: System, e: IngestSystems.Event)
    requires IngestSystems.Inv(cfg, s) && KeyedSystem(docIdOf, s) && IngestSystems.Enabled(s, e)
    requires e.Dispatch? && e.e.EvEnqueue? ==> KeyedJobs(docIdOf, e.e.jobs)
    ensures KeyedSystem(docIdOf, IngestSystems.Step(cfg, s, e))
  {
    match e
    case Dispatch(e) => DispatchKeepsKeyed(docIdOf, cfg, s, e);
    case Advance(i, a) =>
      assert TaskOk(cfg, s, i);
      RunStepKeepsKeyed(docIdOf, cfg.settings, s.w, s.runs[i], a);
  }

  lemma {:induction false} RunKeepsKeyed(docIdOf: string -> string, cfg: IngestSystems.Config, s: System, es: seq<IngestSystems.Event>)
    requires IngestSystems.Inv(cfg, s) && KeyedSystem(docIdOf, s) && FromScans(docIdOf, es)
    ensures IngestSystems.Exec(cfg, s, es).Some? ==> KeyedSystem(docIdOf, IngestSystems.Exec(cfg, s, es).value)
    decreases |es|
  {
    if es != [] && IngestSystems.Enabled(s, es[0]) {
      IngestSystems.InvKept(cfg, s, es[0]);
      KeyedKept(docIdOf, cfg, s, es[0]);
      RunKeepsKeyed(docIdOf, cfg, IngestSystems.Step(cfg, s, es[0]), es[1..]);
    }
  }

  lemma ReachedKeyed(docIdOf: string -> string, cfg: IngestSystems.Config, es: seq<IngestSystems.Event>, s: System)
    requires IngestSystems.Reached(cfg, es, s) && FromScans(docIdOf, es)
    ensures KeyedDocs(docIdOf, s.w.docs) && s.w.docs.Valid()
  {
    IngestSystems.ReachedInv(cfg, [], Boot(cfg));
    RunKeepsKeyed(docIdOf, cfg, Boot(cfg), es);
    IngestSystems.ReachedInv(cfg, es, s);
  }

  /** Scanner and claim agree in every reachable state: what a scan emits can be claimed then and later. */
  lemma ScansAreClaimable(scan: S.Config, cfg: IngestSystems.Config, es: seq<IngestSystems.Event>, s: System,
                          bucket: string, prefix: string, pages: seq<seq<Object>>, now: int, job: Job, docs': Documents, later: int)
    requires S.ValidConfig(scan) && IngestSystems.Reached(cfg, es, s) && FromScans(scan.docIdOf, es)
    requires ScanEmits(scan, s.w.docs, Discovered(scan, bucket, pages), prefix, now, job)
    requires now <= later && docs'.Get(job.docId) == s.w.docs.Get(job.docId)
    ensures Claimable(docs', job.docId, scan.staleSeconds, later)
    ensures KeyedJob(scan.docIdOf, job)
  {
    ReachedKeyed(scan.docIdOf, cfg, es, s);
    DiscoveredAreReal(scan, bucket, pages);
    EmittedIsClaimable(scan, s.w.docs, Discovered(scan, bucket, pages), prefix, now, job, docs', later);
  }

  ghost predicate DistinctUris(items: seq<Item>) {
    forall i, j :: 0 <= i < j < |items| ==> items[i].uri != items[j].uri
  }

  /** S3 lists each key once, over all pages. */
  ghost predicate DistinctKeys(objects: seq<Object>) {
    forall i, j :: 0 <= i < j < |objects| ==> objects[i].key != objects[j].key
  }

  lemma {:induction false} ItemsOfConcat(cfg: S.Config, bucket: string, a: seq<Object>, b: seq<Object>)
    ensures ItemsOf(cfg, bucket, a + b) == ItemsOf(cfg, bucket, a) + ItemsOf(cfg, bucket, b)
  {
    if b == [] {
      assert a + b == a;
    } else {
      assert (a + b)[..|a + b| - 1] == a + b[..|b| - 1];
      ItemsOfConcat(cfg, bucket, a, b[..|b| - 1]);
    }
  }

  lemma {:induction false} DiscoveredOfAll(cfg: S.Config, bucket: string, pages: seq<seq<Object>>)
    ensures Discovered(cfg, bucket, pages) == ItemsOf(cfg, bucket, Flatten(pages))
  {
    if pages != [] {
      var n := |pages| - 1;
      DiscoveredOfAll(cfg, bucket, pages[..n]);
      ItemsOfConcat(cfg, bucket, Flatten(pages[..n]), pages[n]);
    }
  }

  lemma {:induction false} ItemsComeFromObjects(cfg: S.Config, bucket: string, objects: seq<Object>, i: nat)
    requires i < |ItemsOf(cfg, bucket, objects)|
    ensures exists o :: 0 <= o < |objects| && ItemsOf(cfg, bucket, objects)[i].uri == UriOf(bucket, objects[o].key)
  {
    var n := |objects| - 1;
    var before := ItemsOf(cfg, bucket, objects[..n]);
    if i < |before| {
      ItemsComeFromObjects(cfg, bucket, objects[..n], i);
      var o :| 0 <= o < n && before[i].uri == UriOf(bucket, objects[..n][o].key);
      assert ItemsOf(cfg, bucket, objects)[i].uri == UriOf(bucket, objects[o].key);
    } else {
      assert ItemsOf(cfg, bucket, objects)[i].uri == UriOf(bucket, objects[n].key);
    }
  }

  lemma UrisTellKeysApart(bucket: string, a: string, b: string)
    requires UriOf(bucket, a) == UriOf(bucket, b)
    ensures a == b
  {
    var pre := "s3://" + bucket + "/";
    assert (pre + a)[|pre|..] == a && (pre + b)[|pre|..] == b;
  }

  lemma {:induction false} ItemsAreDistinct(cfg: S.Config, bucket: string, objects: seq<Object>)
    requires DistinctKeys(objects)
    ensures DistinctUris(ItemsOf(cfg, bucket, objects))
  {
    if objects != [] {
      var n := |objects| - 1;
      var before := ItemsOf(cfg, bucket, objects[..n]);
      ItemsAreDistinct(cfg, bucket, objects[..n]);
      forall i | 0 <= i < |before|
        ensures before[i].uri != UriOf(bucket, objects[n].key)
      {
        ItemsComeFromObjects(cfg, bucket, objects[..n], i);
        var o :| 0 <= o < n && before[i].uri == UriOf(bucket, objects[..n][o].key);
        if before[i].uri == UriOf(bucket, objects[n].key) { UrisTellKeysApart(bucket, objects[o].key, objects[n].key); }
      }
    }
  }

  /** A listing that names each key once discovers each file once. */
  lemma ListingIsDistinct(cfg: S.Config, bucket: string, pages: seq<seq<Object>>)
    requires DistinctKeys(Flatten(pages))
    ensures DistinctUris(Discovered(cfg, bucket, pages)) && RealUris(Discovered(cfg, bucket, pages))
  {
    DiscoveredOfAll(cfg, bucket, pages);
    ItemsAreDistinct(cfg, bucket, Flatten(pages));
    DiscoveredAreReal(cfg, bucket, pages);
  }

  ghost predicate EmitsFile(cfg: S.Config, docs: Documents, items: seq<Item>, prefix: string, now: int, uri: string) {
    exists job :: ScanEmits(cfg, docs, items, prefix, now, job) && job.fileUri == uri
  }

  /** Of a listing without repetitions, the files emitted are those that need ingesting. */
  lemma FileEmittedIff(cfg: S.Config, docs: Documents, items: seq<Item>, prefix: string, now: int, i: nat)
    requires S.ValidConfig(cfg) && docs.Valid() && KeyedDocs(cfg.docIdOf, docs) && RealUris(items) && DistinctUris(items)
    requires i < |items|
    ensures EmitsFile(cfg, docs, items, prefix, now, items[i].uri) <==> NeedsIngest(cfg, docs, items[i], now)
  {
    var item := items[i];
    var own := Job(cfg.docIdOf(item.uri), item.uri, "vi", DocumentType(cfg, item.key, prefix),
                   Some(item.lastModified), Some(item.fileName));
    ScanEmitsExactly(cfg, docs, items, prefix, now, own);
    if NeedsIngest(cfg, docs, item, now) {
      assert EmittedFor(cfg, docs, items[i], prefix, now, own);
      assert own.fileUri == item.uri;
    }
    if EmitsFile(cfg, docs, items, prefix, now, item.uri) {
      var job :| ScanEmits(cfg, docs, items, prefix, now, job) && job.fileUri == item.uri;
      ScanEmitsExactly(cfg, docs, items, prefix, now, job);
      var j :| 0 <= j < |items| && EmittedFor(cfg, docs, items[j], prefix, now, job);
      assert items[j].uri == items[i].uri;
    }
  }

  /** Once a file's document is INDEXED, the file is emitted again exactly when it is newer than the version
      the last completed run was given. */
  lemma IndexedAgainOnlyIfNewer(scan: S.Config, cfg: IngestSystems.Config, es: seq<IngestSystems.Event>, s: System,
                                items: seq<Item>, prefix: string, now: int, i: nat)
    requires S.ValidConfig(scan) && IngestSystems.Reached(cfg, es, s) && FromScans(scan.docIdOf, es)
    requires RealUris(items) && DistinctUris(items) && i < |items|
    requires Has(s.w.docs.Get(scan.docIdOf(items[i].uri)), Indexed)
    ensures scan.docIdOf(items[i].uri) in s.done
    ensures var indexed := s.done[scan.docIdOf(items[i].uri)].job.s3LastModified;
            EmitsFile(scan, s.w.docs, items, prefix, now, items[i].uri) <==>
            indexed.Some? && items[i].lastModified > indexed.value
  {
    var x := scan.docIdOf(items[i].uri);
    ReachedKeyed(scan.docIdOf, cfg, es, s);
    FileEmittedIff(scan, s.w.docs, items, prefix, now, i);
    IndexedVersion(cfg, es, s, x);
    IndexedRecordFound(scan, s.w.docs, items[i].uri);
  }

  lemma IndexedRecordFound(scan: S.Config, docs: Documents, uri: string)
    requires S.ValidConfig(scan) && KeyedDocs(scan.docIdOf, docs) && Has(docs.Get(scan.docIdOf(uri)), Indexed)
    ensures RecordFor(scan, docs, uri) == docs.Get(scan.docIdOf(uri))
  {
    assert KeyedRecord(scan.docIdOf, docs.vals[scan.docIdOf(uri)]);
  }
}
