/** What a search shows of the documents that were ingested. */
module SearchOutcomes {
  import opened Sequences
  import opened HeadingSplitter
  import opened SplitterTheorems
  import opened Sections
  import opened Cosine
  import opened VectorStores
  import opened MetadataStores
  import opened Searches
  import opened SearchAnswers
  import opened IngestRuns
  import opened IngestInvariants
  import opened IngestSystems
  import opened IndexedContents

  // ---- search and ingest together ----

  ghost predicate Finds(d: Store, root: real -> real, vector: Vector, threshold: real, topK: nat, r: SearchResult) {
    d.Valid() && r in BestAboveThreshold(root, vector, threshold, topK, d.Values())
  }

  /** The result is piece `k` of the document's last completed run. */
  ghost predicate ShowsPiece(root: real -> real, vector: Vector, x: string, c: Completed, k: nat, r: SearchResult) {
    && k < |Split(c.markdown)| && k < |c.sections|
    && r.sectionId == SectionId(x, k)
    && r.content == Split(c.markdown)[k].content
    && r.score == Similarity(root, vector, c.sections[k].embedding)
  }

  lemma SplitContentsAreFull(text: string, k: nat)
    requires k < |Split(text)|
    ensures Split(text)[k].content != ""
  {
    var pre, bs := OutlineOf(text);
    ContentsOfSplit(pre, bs);
    assert Contents(Split(text))[k] == Split(text)[k].content;
  }

  lemma StoredOfDocument(d: Store, i: nat, x: string)
    requires d.Valid() && i < |d.Values()| && d.Values()[i].docId == x
    ensures d.Values()[i] in SectionsIn(d, x)
  {
    FilterMembers(d.Values(), OfDoc(x));
    assert OfDoc(x)(d.Values()[i]);
  }

  /** Whatever is being ingested meanwhile and whatever failed before: a search result for an INDEXED document
      is a piece of the markdown that document's last completed run split, under its section id and with the
      score of its own vector. */
  lemma ResultsShowCompletedRuns(cfg: Config, es: seq<Event>, s: System, root: real -> real, vector: Vector,
                                 threshold: real, topK: nat, r: SearchResult)
    requires Reached(cfg, es, s) && SplitsByHeading(cfg.settings)
    requires Finds(s.w.vectors, root, vector, threshold, topK, r)
    requires Has(s.w.docs.Get(r.documentId), Indexed)
    ensures r.documentId in s.done
    ensures exists k: nat :: ShowsPiece(root, vector, r.documentId, s.done[r.documentId], k, r)
  {
    var z := SectionShown(s.w.vectors, root, vector, threshold, topK, r);
    IndexedDocument(cfg, es, s, r.documentId);
    var k := ShownAs(cfg.settings, root, vector, r.documentId, s.done[r.documentId], z, r);
  }

  /** The stored section a result stands for; it belongs to the result's document. */
  lemma SectionShown(d: Store, root: real -> real, vector: Vector, threshold: real, topK: nat, r: SearchResult) returns (z: Section)
    requires Finds(d, root, vector, threshold, topK, r)
    ensures r == ResultFor(root, vector, z) && z in SectionsIn(d, r.documentId)
  {
    var i := IndexShown(root, vector, threshold, topK, d.Values(), r);
    z := d.Values()[i];
    StoredOfDocument(d, i, r.documentId);
  }

  lemma IndexShown(root: real -> real, vector: Vector, threshold: real, topK: nat, stored: seq<Section>, r: SearchResult)
    returns (i: nat)
    requires r in BestAboveThreshold(root, vector, threshold, topK, stored)
    ensures i < |stored| && r == ResultFor(root, vector, stored[i]) && stored[i].docId == r.documentId
  {
    ResultsComeFromTheStore(root, vector, threshold, topK, stored, r);
    i :| 0 <= i < |stored| && r == ResultFor(root, vector, stored[i]);
  }

  lemma ShownAs(cfg: Settings, root: real -> real, vector: Vector, x: string, c: Completed, z: Section, r: SearchResult)
    returns (k: nat)
    requires SplitsByHeading(cfg) && Faithful(cfg, x, c) && z in c.sections && r == ResultFor(root, vector, z)
    ensures ShowsPiece(root, vector, x, c, k, r)
  {
    k :| k < |c.sections| && c.sections[k] == z;
    PieceShown(cfg, root, vector, x, c, k);
  }

  lemma IndexedDocument(cfg: Config, es: seq<Event>, s: System, x: string)
    requires Reached(cfg, es, s) && Has(s.w.docs.Get(x), Indexed)
    ensures s.w.vectors.Valid() && x in s.done
    ensures SectionsIn(s.w.vectors, x) == s.done[x].sections && Faithful(cfg.settings, x, s.done[x])
  {
    ReachedInv(cfg, es, s);
    assert Consistent(cfg.settings, ViewOf(s.w, x), s.done, x);
  }

  lemma PieceShown(cfg: Settings, root: real -> real, vector: Vector, x: string, c: Completed, k: nat)
    requires SplitsByHeading(cfg) && Faithful(cfg, x, c) && k < |c.sections|
    ensures ShowsPiece(root, vector, x, c, k, ResultFor(root, vector, c.sections[k]))
  {
    assert |c.sections| == |Split(c.markdown)| && c.sections[k].content == Split(c.markdown)[k].content;
    SplitContentsAreFull(c.markdown, k);
    assert c.sections[k].id == SectionId(x, k) && |SectionId(x, k)| > 0;
    ResultFields(root, vector, c.sections[k]);
  }

  /** The result has the section's fields, and of the document what its record says. */
  ghost predicate ShowsRecord(doc: DocumentRecord, z: Section, r: SearchResult) {
    && r.sectionId == z.id && r.caption == z.caption && r.content == z.content && r.headingPath == z.headingPath
    && r.markdownUri == doc.markdownUri && r.sourceUri == Some(doc.filePath)
    && doc.fileName.Some? && r.documentName == (if doc.fileName.value != "" then doc.fileName.value else r.documentId)
  }

  /** And a search result for an INDEXED document shows one of its stored sections, with the file name and the addresses
      that its record holds. */
  lemma ResultsShowTheRecord(cfg: Config, es: seq<Event>, s: System, root: real -> real, vector: Vector,
                             threshold: real, topK: nat, r: SearchResult)
    requires Reached(cfg, es, s) && SplitsByHeading(cfg.settings)
    requires Finds(s.w.vectors, root, vector, threshold, topK, r)
    requires Has(s.w.docs.Get(r.documentId), Indexed)
    ensures exists z :: z in SectionsIn(s.w.vectors, r.documentId) && ShowsRecord(s.w.docs.vals[r.documentId], z, r)
  {
    var x := r.documentId;
    var z := SectionShown(s.w.vectors, root, vector, threshold, topK, r);
    IndexedDocument(cfg, es, s, x);
    var k :| 0 <= k < |SectionsIn(s.w.vectors, x)| && SectionsIn(s.w.vectors, x)[k] == z;
    RecordAndSectionsAgree(cfg, es, s, x, k);
    FullSection(cfg.settings, x, s.done[x], k);
    IndexedIsShown(root, vector, z);
  }

  lemma FullSection(cfg: Settings, x: string, c: Completed, k: nat)
    requires SplitsByHeading(cfg) && Faithful(cfg, x, c) && k < |c.sections|
    ensures c.sections[k].id != "" && c.sections[k].content != "" && c.sections[k].docId == x
  {
    assert |c.sections| == |Split(c.markdown)| && c.sections[k].content == Split(c.markdown)[k].content;
    SplitContentsAreFull(c.markdown, k);
    assert c.sections[k].id == SectionId(x, k) && |SectionId(x, k)| > 0;
  }
}
