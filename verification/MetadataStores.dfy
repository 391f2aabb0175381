/** `InMemoryMetadataStore` of app/infrastructure/repositories/memory_metadata_store.py and the staleness
    policy of app/domain/documents/policies.py. Times are whole seconds of one clock. */
module MetadataStores {
  import opened Sequences
  import opened OrderedDicts
  import opened Sections

  datatype Status = Pending | Indexing | Indexed | Failed

  datatype DocumentRecord = DocumentRecord(
    id: string,
    filePath: string,
    fileName: Option<string>,
    documentType: string,
    language: string,
    status: Status,
    sectionCount: Option<nat>,
    markdownUri: Option<string>,
    sourceUri: Option<string>,
    s3LastModified: Option<int>,
    uploadedAt: int,
    processedAt: Option<int>,
    updatedAt: int)

  type Documents = OrderedDict<string, DocumentRecord>

  datatype JobEntry = JobEntry(docId: string, status: Status, sectionCount: nat, startedAt: int, finishedAt: Option<int>)

  // ---- staleness ----

  /** `is_stale_indexing`: stuck in INDEXING for at least the configured time. */
  predicate IsStale(doc: DocumentRecord, staleSeconds: nat, now: int) {
    doc.status.Indexing? && (staleSeconds == 0 || now - doc.updatedAt >= staleSeconds)
  }

  predicate Claimable(docs: Documents, docId: string, staleSeconds: nat, now: int) {
    docId in docs.vals && docs.vals[docId].status.Indexing? ==> IsStale(docs.vals[docId], staleSeconds, now)
  }

  // ---- what the methods do ----

  /** A record with only these fields given; the model's validator fills in the source. */
  function NewRecord(docId: string, filePath: string, status: Status, now: int): DocumentRecord {
    DocumentRecord(docId, filePath, None, "general", "vi", status, None, None, Some(filePath), None, now, None, now)
  }

  function WithStatus(docs: Documents, docId: string, status: Status, now: int): Documents {
    if docId in docs.vals then docs.Set(docId, docs.vals[docId].(status := status))
    else docs.Set(docId, NewRecord(docId, "", status, now))
  }

  function OrName(a: Option<string>, b: Option<string>): Option<string> {
    if a.Some? && a.value != "" then a else b
  }

  function Claim(docs: Documents, job: Job, now: int): Documents {
    if job.docId !in docs.vals then
      docs.Set(job.docId,
               NewRecord(job.docId, job.fileUri, Indexing, now).(
               fileName := job.fileName, documentType := job.documentType, language := job.language,
               s3LastModified := job.s3LastModified))
    else
      var existing := docs.vals[job.docId];
      docs.Set(job.docId,
               existing.(
               filePath := job.fileUri,
               fileName := OrName(job.fileName, existing.fileName),
               documentType := job.documentType,
               language := job.language,
               status := Indexing,
               s3LastModified := if job.s3LastModified.Some? then job.s3LastModified else existing.s3LastModified,
               updatedAt := now))
  }

  function Processed(docs: Documents, docId: string, sectionCount: nat, processedAt: int, now: int): Documents {
    if docId in docs.vals then
      docs.Set(docId, docs.vals[docId].(sectionCount := Some(sectionCount), processedAt := Some(processedAt), updatedAt := now))
    else docs
  }

  function Entry(docId: string, status: Status, sectionCount: nat, now: int): JobEntry {
    JobEntry(docId, status, sectionCount, now, if status.Indexed? || status.Failed? then Some(now) else None)
  }

  /** The records under the wanted paths; of two records with one path the later in the dictionary wins. */
  function ByPath(records: seq<DocumentRecord>, wanted: set<string>): map<string, DocumentRecord> {
    if records == [] then map[]
    else
      var last := records[|records| - 1];
      var before := ByPath(records[..|records| - 1], wanted);
      if last.filePath in wanted then before[last.filePath := last] else before
  }

  // ---- properties ----

  /** Waiting never makes a document unclaimable. */
  lemma ClaimableStays(docs: Documents, docs': Documents, docId: string, staleSeconds: nat, now: int, later: int)
    requires now <= later && docs.Get(docId) == docs'.Get(docId)
    requires Claimable(docs, docId, staleSeconds, now)
    ensures Claimable(docs', docId, staleSeconds, later)
  {
    assert docId in docs.vals <==> docId in docs'.vals;
  }

  /** After a claim a second one succeeds, as long as the record is not touched, exactly when the claim has
      become stale. */
  lemma ClaimHoldsUntilStale(docs: Documents, job: Job, staleSeconds: nat, now: int, later: int)
    requires now <= later
    ensures Claimable(Claim(docs, job, now), job.docId, staleSeconds, later) <==> later - now >= staleSeconds
  {
    assert Claim(docs, job, now).vals[job.docId].updatedAt == now;
  }

  /** The record of a document after a claim: what the job says replaces what the record said, except that a missing
      file name or version leaves the known one; the upload time, if there is one, stays. */
  lemma ClaimTells(docs: Documents, job: Job, now: int)
    ensures job.docId in Claim(docs, job, now).vals
    ensures var doc := Claim(docs, job, now).vals[job.docId];
            && doc.status == Indexing && doc.updatedAt == now
            && doc.filePath == job.fileUri && doc.documentType == job.documentType && doc.language == job.language
            && (job.fileName.Some? && job.fileName.value != "" ==> doc.fileName == job.fileName)
            && (job.s3LastModified.Some? ==> doc.s3LastModified == job.s3LastModified)
    ensures job.docId in docs.vals ==>
              var was, doc := docs.vals[job.docId], Claim(docs, job, now).vals[job.docId];
              && doc.id == was.id && doc.uploadedAt == was.uploadedAt && doc.processedAt == was.processedAt
              && doc.sectionCount == was.sectionCount && doc.markdownUri == was.markdownUri && doc.sourceUri == was.sourceUri
              && (job.fileName.None? || job.fileName.value == "" ==> doc.fileName == was.fileName)
              && (job.s3LastModified.None? ==> doc.s3LastModified == was.s3LastModified)
    ensures job.docId !in docs.vals ==>
              var doc := Claim(docs, job, now).vals[job.docId];
              && doc.id == job.docId && doc.uploadedAt == now && doc.processedAt == None && doc.sectionCount == None
              && doc.markdownUri == None && doc.sourceUri == Some(job.fileUri)
              && doc.fileName == job.fileName && doc.s3LastModified == job.s3LastModified
    ensures forall x :: x != job.docId ==> Claim(docs, job, now).Get(x) == docs.Get(x)
  {
  }

  /** A status written for a document without a record makes a record without a path, which no scan takes for a
      file's; otherwise it changes nothing but the status. */
  lemma StatusTells(docs: Documents, docId: string, status: Status, now: int)
    ensures docId in WithStatus(docs, docId, status, now).vals
    ensures var doc := WithStatus(docs, docId, status, now).vals[docId];
            && doc.status == status
            && (docId in docs.vals ==> doc == docs.vals[docId].(status := status))
            && (docId !in docs.vals ==> doc.id == docId && doc.filePath == "" && doc.uploadedAt == doc.updatedAt == now
                                        && doc.documentType == "general" && doc.language == "vi")
    ensures forall x :: x != docId ==> WithStatus(docs, docId, status, now).Get(x) == docs.Get(x)
  {
  }

  lemma {:induction false} ByPathSpec(records: seq<DocumentRecord>, wanted: set<string>, path: string)
    ensures path in ByPath(records, wanted) <==>
            path in wanted && exists i :: 0 <= i < |records| && records[i].filePath == path
    ensures path in ByPath(records, wanted) ==>
              exists i :: 0 <= i < |records| && records[i] == ByPath(records, wanted)[path] && records[i].filePath == path
                          && forall j :: i < j < |records| ==> records[j].filePath != path
  {
    if records != [] {
      var n := |records| - 1;
      ByPathSpec(records[..n], wanted, path);
      var before := ByPath(records[..n], wanted);
      if records[n].filePath == path && path in wanted {
        assert ByPath(records, wanted)[path] == records[n];
      } else if path in before {
        var i :| 0 <= i < n && records[..n][i] == before[path] && records[..n][i].filePath == path
                 && forall j :: i < j < n ==> records[..n][j].filePath != path;
        assert records[i] == records[..n][i];
        forall j | i < j < |records|
          ensures records[j].filePath != path
        {
          if j < n { assert records[..n][j] == records[j]; }
        }
      } else {
        forall i | 0 <= i < |records|
          ensures !(path in wanted && records[i].filePath == path)
        {
          if i < n { assert records[..n][i] == records[i]; }
        }
      }
    }
  }

  class InMemoryMetadataStore {
    var documents: Documents
    var jobs: seq<JobEntry>

    constructor ()
      ensures documents == Empty() && jobs == []
    {
      documents := Empty();
      jobs := [];
    }

    method Upsert(doc: DocumentRecord)
      modifies this`documents
      ensures documents == old(documents).Set(doc.id, doc)
    {
      documents := documents.Set(doc.id, doc);
    }

    method UpdateStatus(docId: string, status: Status, now: int)
      modifies this`documents
      ensures documents == WithStatus(old(documents), docId, status, now)
    {
      if docId in documents.vals {
        documents := documents.Set(docId, documents.vals[docId].(status := status));
      } else {
        documents := documents.Set(docId, NewRecord(docId, "", status, now));
      }
    }

    method GetDocument(docId: string) returns (doc: Option<DocumentRecord>)
      ensures doc.Some? <==> docId in documents.vals
      ensures doc.Some? ==> doc.value == documents.vals[docId]
    {
      doc := documents.Get(docId);
    }

    method GetByFilePaths(filePaths: seq<string>) returns (found: map<string, DocumentRecord>)
      requires documents.Valid()
      ensures found == ByPath(documents.Values(), set p | p in filePaths)
    {
      var wanted := set p | p in filePaths;
      var values := documents.Values();
      found := map[];
      for i := 0 to |values|
        invariant found == ByPath(values[..i], wanted)
      {
        assert values[..i + 1][..i] == values[..i];
        if values[i].filePath in wanted {
          found := found[values[i].filePath := values[i]];
        }
      }
      assert values[..|values|] == values;
    }

    /** Refuses exactly while a claim is held that has not become stale, and then changes nothing. */
    method TryClaimIngest(job: Job, staleSeconds: nat, now: int) returns (claimed: bool)
      modifies this`documents
      ensures claimed <==> Claimable(old(documents), job.docId, staleSeconds, now)
      ensures documents == if claimed then Claim(old(documents), job, now) else old(documents)
    {
      var existing := documents.Get(job.docId);
      if existing.Some? && existing.value.status.Indexing? && !IsStale(existing.value, staleSeconds, now) {
        return false;
      }
      if existing.None? {
        var fresh_ := NewRecord(job.docId, job.fileUri, Indexing, now).(
          fileName := job.fileName, documentType := job.documentType, language := job.language,
          s3LastModified := job.s3LastModified);
        documents := documents.Set(job.docId, fresh_);
      } else {
        var doc := existing.value;
        documents := documents.Set(
          job.docId,
          doc.(
          filePath := job.fileUri,
          fileName := OrName(job.fileName, doc.fileName),
          documentType := job.documentType,
          language := job.language,
          status := Indexing,
          s3LastModified := if job.s3LastModified.Some? then job.s3LastModified else doc.s3LastModified,
          updatedAt := now));
      }
      claimed := true;
    }

    method RecordJob(docId: string, status: Status, sectionCount: nat, now: int)
      modifies this`jobs
      ensures jobs == old(jobs) + [Entry(docId, status, sectionCount, now)]
    {
      jobs := jobs + [JobEntry(docId, status, sectionCount, now, if status in {Indexed, Failed} then Some(now) else None)];
    }

    method UpdateProcessed(docId: string, sectionCount: nat, processedAt: int, now: int)
      modifies this`documents
      ensures documents == Processed(old(documents), docId, sectionCount, processedAt, now)
    {
      if docId !in documents.vals {
        return;
      }
      documents := documents.Set(
        docId,
        documents.vals[docId].(sectionCount := Some(sectionCount), processedAt := Some(processedAt), updatedAt := now));
    }
  }
}
