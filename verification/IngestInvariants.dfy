/** What every step of an ingest run keeps: for its own document, and for all others. */
module IngestInvariants {
  import opened Sequences
  import opened OrderedDicts
  import opened Texts
  import opened HeadingSplitter
  import opened Sections
  import opened VectorStores
  import opened MetadataStores
  import opened IngestRuns
  import Normaliser
  import SectionEmbedders

  ghost predicate WorldOk(w: World) {
    && w.docs.Valid()
    && Filed(w.vectors)
    && forall x :: x in w.docs.vals ==> w.docs.vals[x].id == x
  }

  /** All a world holds about one document: its record, its sections, its log entries. */
  datatype View = View(doc: Option<DocumentRecord>, stored: seq<Section>, entries: seq<JobEntry>)

  ghost function ViewOf(w: World, x: string): View
    requires w.vectors.Valid()
  {
    View(w.docs.Get(x), SectionsIn(w.vectors, x), EntriesOf(w.jobs, x))
  }

  // ---- the two stores agree ----

  datatype Quality = Good | Poor

  /** Text is good if it is in normal form and not blank. */
  function QualityOf(t: string): Quality {
    if Normaliser.NormalForm(t) && !Blank(t) then Good else Poor
  }

  /** A completed run's sections are what splitting its normalised markdown gives, captioned and embedded. */
  ghost predicate Faithful(cfg: Settings, x: string, c: Completed) {
    && c.job.docId == x
    && QualityOf(c.markdown) == Good
    && Worked(c.sections, cfg.split(c.markdown), x)
    && AllEmbedded(cfg, c.sections)
  }

  ghost predicate MatchesPieces(ss: seq<Section>, ps: seq<Piece>) {
    && |ss| == |ps|
    && forall i :: 0 <= i < |ss| ==> ss[i].content == ps[i].content && ss[i].headingPath == ps[i].path
  }

  /** A document marked INDEXED has exactly the sections of its last completed run, and the record tells
      their number and which version of the file they come from. */
  ghost predicate Consistent(cfg: Settings, v: View, done: map<string, Completed>, x: string) {
    Has(v.doc, Indexed) ==>
      && x in done && Faithful(cfg, x, done[x])
      && v.stored == done[x].sections
      && v.doc.value.sectionCount == Some(|done[x].sections|)
      && v.doc.value.s3LastModified == done[x].job.s3LastModified
      && Named(cfg, v.doc.value, done[x].job, FirstUri(done[x].sections))
  }

  // ---- what a run may rely on ----

  predicate Has(doc: Option<DocumentRecord>, status: Status) {
    doc.Some? && doc.value.status == status
  }

  function FirstUri(ss: seq<Section>): Option<string> { if ss != [] then ss[0].markdownUri else None }

  /** The record names the file, its type and language and where its text is kept. */
  predicate Named(cfg: Settings, doc: DocumentRecord, job: Job, markdownUri: Option<string>) {
    && doc.filePath == job.fileUri && doc.sourceUri == Some(job.fileUri) && doc.markdownUri == markdownUri
    && doc.fileName == Some(if job.fileName.Some? && job.fileName.value != "" then job.fileName.value else cfg.nameOf(job.fileUri))
    && doc.documentType == job.documentType && doc.language == job.language
  }

  predicate Described(cfg: Settings, doc: Option<DocumentRecord>, r: Run) {
    && Has(doc, Indexing)
    && doc.value.sectionCount == Some(|r.sections|)
    && doc.value.s3LastModified == r.job.s3LastModified
    && Named(cfg, doc.value, r.job, FirstUri(r.sections))
  }

  /** Sections as they come from the pieces of a text, numbered for the document. */
  ghost predicate Worked(ss: seq<Section>, ps: seq<Piece>, docId: string) {
    ss != [] && MatchesPieces(ss, ps) && NumberedFor(ss, docId)
  }

  ghost predicate AllEmbedded(cfg: Settings, ss: seq<Section>) {
    forall i :: 0 <= i < |ss| ==> |ss[i].embedding| == cfg.embeddingDim
  }

  ghost predicate TextOk(cfg: Settings, r: Run) {
    && (3 <= Rank(r.pc) <= 14 ==> QualityOf(r.markdown) == Good)
    && (5 <= Rank(r.pc) <= 14 ==> r.pieces == cfg.split(r.markdown))
  }

  ghost predicate SectionsOk(r: Run) { 5 <= Rank(r.pc) <= 14 ==> Worked(r.sections, r.pieces, r.job.docId) }

  ghost predicate VectorsOk(cfg: Settings, r: Run) { 7 <= Rank(r.pc) <= 14 ==> AllEmbedded(cfg, r.sections) }

  /** What the run has computed so far. */
  ghost predicate DataOk(cfg: Settings, r: Run) {
    TextOk(cfg, r) && SectionsOk(r) && VectorsOk(cfg, r)
  }

  /** What the stores hold about the run's document, call by call. */
  ghost predicate StoresOk(cfg: Settings, v: View, done: map<string, Completed>, r: Run) {
    && (1 <= Rank(r.pc) <= 12 ==> Has(v.doc, Indexing))
    && (8 <= Rank(r.pc) <= 10 ==> r.existing == v.doc)
    && (9 <= Rank(r.pc) <= 11 ==> v.stored == [])
    && (11 <= Rank(r.pc) <= 12 ==> Described(cfg, v.doc, r))
    && (r.pc.Confirming? ==> v.stored == Indexable(cfg, r))
    && (r.pc.Stamping? || r.pc.Logging? || r.pc == Over(Succeeded) ==>
          Has(v.doc, Indexed) && r.job.docId in done && done[r.job.docId] == Completion(cfg, r))
    && (r.pc.Logging? || r.pc == Over(Succeeded) ==> v.doc.Some? && v.doc.value.processedAt.Some?)
    && (r.pc == Over(Raised) ==> Has(v.doc, Failed))
    && (r.pc == Over(Cancelled) ==> Has(v.doc, Indexing))
  }

  ghost predicate MaybeIndexedEntry(es: seq<JobEntry>) {
    es == [] || (|es| == 1 && es[0].status.Indexed?)
  }

  /** What the run has written into the job log. */
  ghost predicate LogOk(v: View, r: Run) {
    (!r.pc.Claiming? ==> v.entries == r.before + r.logged) && EntriesOk(r)
  }

  ghost predicate EntriesOk(r: Run) {
    && (Rank(r.pc) <= 14 || r.pc == Over(Skipped) || r.pc == Over(Cancelled) ==> r.logged == [])
    && (r.pc.FailLogging? ==> MaybeIndexedEntry(r.logged))
    && (r.pc.FailMarking? || r.pc == Over(Raised) ==>
          |r.logged| > 0 && MaybeIndexedEntry(r.logged[..|r.logged| - 1]) && r.logged[|r.logged| - 1].status.Failed?)
    && (r.pc == Over(Succeeded) ==>
          |r.logged| == 1 && r.logged[0].status.Indexed? && r.logged[0].sectionCount == |r.sections|)
  }

  ghost predicate RunOk(cfg: Settings, v: View, done: map<string, Completed>, r: Run) {
    DataOk(cfg, r) && StoresOk(cfg, v, done, r) && LogOk(v, r)
  }

  // ---- the data ----

  lemma NormalizedIsGood(t: string)
    requires Strip(Normaliser.Normalize(t)) != []
    ensures QualityOf(Normaliser.Normalize(t)) == Good
  {
    Normaliser.NormalizeIsNormal(t);
    NoInkIsBlank(Normaliser.Normalize(t));
  }

  lemma ParseKeepsText(cfg: Settings, r: Run, supply: Supply)
    ensures TextOk(cfg, Parsed(r, supply))
  {
    if Strip(Normaliser.Normalize(supply.text)) != [] { NormalizedIsGood(supply.text); }
  }

  /** The text stays good as long as nobody changes it. */
  lemma TextKept(cfg: Settings, r: Run, r': Run)
    requires TextOk(cfg, r)
    requires
      || Rank(r'.pc) > 14 || Rank(r'.pc) < 3
      || (3 <= Rank(r.pc) <= 14 && r'.markdown == r.markdown && (5 <= Rank(r'.pc) ==> 5 <= Rank(r.pc) && r'.pieces == r.pieces))
    ensures TextOk(cfg, r')
  {
  }

  lemma CaptionStage(cfg: Settings, ss: seq<Section>, ps: seq<Piece>, docId: string, captions: seq<string>)
    requires Worked(ss, ps, docId) && |captions| == |ss|
    ensures Worked(CaptionedAll(cfg, ss, captions), ps, docId)
  {
  }

  lemma EmbedStage(cfg: Settings, ss: seq<Section>, ps: seq<Piece>, docId: string, vectors: seq<Vector>)
    requires Worked(ss, ps, docId) && |vectors| == |ss| && AllOfDimension(vectors, cfg.embeddingDim)
    ensures var embedded := SectionEmbedders.EmbeddedUpTo(ss, vectors, |ss|, cfg.embedModel);
            Worked(embedded, ps, docId) && AllEmbedded(cfg, embedded)
  {
  }

  lemma StageKeepsText(cfg: Settings, r: Run, supply: Supply)
    requires TextOk(cfg, r) && 1 <= Rank(r.pc) <= 6
    ensures TextOk(cfg, Stage(cfg, r, supply))
  {
    if r.pc.Parsing? {
      ParseKeepsText(cfg, r, supply);
    } else if r.pc.Splitting? {
      SplitKeepsText(cfg, r);
    } else {
      TextKept(cfg, r, Stage(cfg, r, supply));
    }
  }

  lemma SplitKeepsText(cfg: Settings, r: Run)
    requires TextOk(cfg, r) && r.pc.Splitting?
    ensures TextOk(cfg, SplitUp(cfg, r)) && SectionsOk(SplitUp(cfg, r))
  {
  }

  lemma CaptionKeepsSections(cfg: Settings, r: Run, captions: seq<string>)
    requires SectionsOk(r) && r.pc.Captioning?
    ensures SectionsOk(CaptionsPut(cfg, r, captions))
  {
    if |captions| == |r.sections| { CaptionStage(cfg, r.sections, r.pieces, r.job.docId, captions); }
  }

  lemma EmbedKeepsSections(cfg: Settings, r: Run, vectors: seq<Vector>)
    requires SectionsOk(r) && r.pc.Embedding?
    ensures SectionsOk(VectorsPut(cfg, r, vectors)) && VectorsOk(cfg, VectorsPut(cfg, r, vectors))
  {
    if |vectors| == |r.sections| && AllOfDimension(vectors, cfg.embeddingDim) {
      EmbedStage(cfg, r.sections, r.pieces, r.job.docId, vectors);
    }
  }

  lemma StageKeepsSections(cfg: Settings, r: Run, supply: Supply)
    requires DataOk(cfg, r) && 1 <= Rank(r.pc) <= 6
    ensures SectionsOk(Stage(cfg, r, supply)) && VectorsOk(cfg, Stage(cfg, r, supply))
  {
    if r.pc.Splitting? {
      SplitKeepsText(cfg, r);
    } else if r.pc.Captioning? {
      CaptionKeepsSections(cfg, r, supply.captions);
    } else if r.pc.Embedding? {
      EmbedKeepsSections(cfg, r, supply.vectors);
    }
  }

  lemma StageKeepsData(cfg: Settings, r: Run, supply: Supply)
    requires DataOk(cfg, r) && 1 <= Rank(r.pc) <= 6
    ensures DataOk(cfg, Stage(cfg, r, supply))
  {
    StageKeepsText(cfg, r, supply);
    StageKeepsSections(cfg, r, supply);
  }

  lemma StageKeepsHistory(cfg: Settings, r: Run, supply: Supply)
    requires 1 <= Rank(r.pc) <= 6
    ensures Stage(cfg, r, supply).job.docId == r.job.docId
    ensures Stage(cfg, r, supply).pc.FailLogging? || Rank(Stage(cfg, r, supply).pc) == Rank(r.pc) + 1
    ensures Stage(cfg, r, supply).before == r.before && Stage(cfg, r, supply).logged == r.logged
  {
  }

  /** Stamping and enriching only add metadata. */
  lemma IndexableKeeps(cfg: Settings, r: Run)
    ensures forall i :: 0 <= i < |r.sections| ==>
              Indexable(cfg, r)[i] == r.sections[i].(metadata := Indexable(cfg, r)[i].metadata)
  {
  }

  lemma CompletionIsFaithful(cfg: Settings, r: Run)
    requires DataOk(cfg, r) && 7 <= Rank(r.pc) <= 14
    ensures Faithful(cfg, r.job.docId, Completion(cfg, r))
  {
    IndexableKeeps(cfg, r);
  }

  // ---- effects ----

  lemma EntriesAppend(jobs: seq<JobEntry>, e: JobEntry, y: string)
    ensures EntriesOf(jobs + [e], y) == EntriesOf(jobs, y) + if e.docId == y then [e] else []
  {
    FilterConcat(jobs, [e], EntryFor(y));
    assert Filter([e], EntryFor(y)) == if e.docId == y then [e] else [];
  }

  lemma InsertPart(cfg: Settings, w: World, r: Run, k: nat, y: string)
    requires WorldOk(w) && NumberedFor(r.sections, r.job.docId) && SectionsIn(w.vectors, r.job.docId) == []
    ensures var ss := Take(Indexable(cfg, r), k);
            && Filed(UpsertAll(w.vectors, ss))
            && SectionsIn(UpsertAll(w.vectors, ss), r.job.docId) == ss
            && (y != r.job.docId ==> SectionsIn(UpsertAll(w.vectors, ss), y) == SectionsIn(w.vectors, y))
  {
    IndexableKeeps(cfg, r);
    var ss := Take(Indexable(cfg, r), k);
    assert forall i :: 0 <= i < |ss| ==> ss[i] == Indexable(cfg, r)[i];
    UpsertIntoCleared(w.vectors, ss, r.job.docId, y);
  }

  lemma DeletePart(w: World, x: string, k: nat, y: string)
    requires WorldOk(w)
    ensures var ids := Take(KeysOf(w.vectors, w.vectors.order, x), k);
            && Filed(DeleteKeys(w.vectors, ids))
            && (y != x ==> SectionsIn(DeleteKeys(w.vectors, ids), y) == SectionsIn(w.vectors, y))
  {
    var all := KeysOf(w.vectors, w.vectors.order, x);
    var ids := Take(all, k);
    KeysOfSpec(w.vectors, w.vectors.order, x);
    forall i | 0 <= i < |ids|
      ensures ids[i] in w.vectors.vals && w.vectors.vals[ids[i]].docId == x
    {
      assert ids[i] == all[i] && all[i] in all;
    }
    DeleteKeysValid(w.vectors, ids);
    if y != x { DeleteKeysKeep(w.vectors, ids, x, y); }
  }

  lemma DocsPart(w: World, x: string, doc: DocumentRecord)
    requires WorldOk(w) && doc.id == x
    ensures var w' := w.(docs := w.docs.Set(x, doc));
            WorldOk(w') && w'.docs.Get(x) == Some(doc) && forall y :: y != x ==> ViewOf(w', y) == ViewOf(w, y)
  {
    SetValid(w.docs, x, doc);
  }

  /** A call changes nothing about any other document, and keeps both stores well-formed. */
  lemma EffectKeeps(cfg: Settings, w: World, r: Run, now: int, k: nat, y: string)
    requires WorldOk(w)
    requires r.pc.Inserting? ==> NumberedFor(r.sections, r.job.docId) && SectionsIn(w.vectors, r.job.docId) == []
    ensures WorldOk(Effect(cfg, w, r, now, k))
    ensures y != r.job.docId ==> ViewOf(Effect(cfg, w, r, now, k), y) == ViewOf(w, y)
  {
    var x := r.job.docId;
    var docs' := Effect(cfg, w, r, now, k).docs;
    match r.pc
    case Claiming => if k != 0 && Claimable(w.docs, x, cfg.staleSeconds, now) { DocsPart(w, x, docs'.vals[x]); }
    case Deleting => DeletePart(w, x, k, y);
    case Inserting => InsertPart(cfg, w, r, k, y);
    case Marking => if k != 0 { DocsPart(w, x, docs'.vals[x]); }
    case Describing => DocsPart(w, x, Description(cfg, r));
    case Confirming => if k != 0 { DocsPart(w, x, docs'.vals[x]); }
    case Stamping => if k != 0 && x in w.docs.vals { DocsPart(w, x, docs'.vals[x]); }
    case Logging => EntriesAppend(w.jobs, Entry(x, Indexed, |r.sections|, now), y);
    case FailLogging => EntriesAppend(w.jobs, Entry(x, Failed, 0, now), y);
    case FailMarking => if k != 0 { DocsPart(w, x, docs'.vals[x]); }
    case _ =>
  }

  // ---- one step of a run, for its own document ----

  /** What `k` parts of a call's effect do to the record. */
  ghost predicate DocChange(cfg: Settings, doc: Option<DocumentRecord>, r: Run, k: nat, doc': Option<DocumentRecord>) {
    if k == 0 then doc' == doc
    else
      match r.pc
      case Claiming => doc' == doc || Has(doc', Indexing)
      case Marking => Has(doc, Indexing) ==> doc' == doc
      case Describing => doc' == Some(Description(cfg, r))
      case Confirming => doc.Some? ==> doc' == Some(doc.value.(status := Indexed))
      case Stamping =>
        doc.Some? ==> exists at: int, now: int ::
          doc' == Some(doc.value.(sectionCount := Some(|r.sections|), processedAt := Some(at), updatedAt := now))
      case FailMarking => Has(doc', Failed)
      case _ => doc' == doc
  }

  lemma EffectOnRecord(cfg: Settings, w: World, r: Run, now: int, k: nat)
    requires w.docs.Valid()
    ensures DocChange(cfg, w.docs.Get(r.job.docId), r, k, Effect(cfg, w, r, now, k).docs.Get(r.job.docId))
  {
  }

  lemma ClaimEffect(cfg: Settings, w: World, r: Run, now: int)
    requires r.pc.Claiming? && Claimable(w.docs, r.job.docId, cfg.staleSeconds, now)
    ensures Has(Effect(cfg, w, r, now, Whole(w, r)).docs.Get(r.job.docId), Indexing)
  {
  }

  /** The log holds what it held when the run began and what the run wrote since. */
  lemma EffectOnLog(cfg: Settings, w: World, r: Run, now: int, k: nat)
    requires !r.pc.Claiming? ==> EntriesOf(w.jobs, r.job.docId) == r.before + r.logged
    requires r.pc.Claiming? ==> r.logged == []
    ensures var r1 := Noted(w, r, now, k);
            EntriesOf(Effect(cfg, w, r, now, k).jobs, r.job.docId) == r1.before + r1.logged
  {
    var x := r.job.docId;
    match r.pc
    case Logging => EntriesAppend(w.jobs, Entry(x, Indexed, |r.sections|, now), x);
    case FailLogging =>
      EntriesAppend(w.jobs, Entry(x, Failed, 0, now), x);
      assert r.before + (r.logged + [Entry(x, Failed, 0, now)]) == (r.before + r.logged) + [Entry(x, Failed, 0, now)];
    case _ =>
  }

  lemma WholeDelete(w: World, x: string, k: nat)
    requires Filed(w.vectors) && k >= |KeysOf(w.vectors, w.vectors.order, x)|
    ensures var d := DeleteKeys(w.vectors, Take(KeysOf(w.vectors, w.vectors.order, x), k));
            d.Valid() && SectionsIn(d, x) == []
  {
    DeleteDocSpec(w.vectors, x, x);
    TakeAll(KeysOf(w.vectors, w.vectors.order, x), k);
  }

  lemma TakeAll<T>(s: seq<T>, k: nat)
    requires k >= |s|
    ensures Take(s, k) == s
  {
  }

  /** What a call that returns does to the vector store. */
  lemma WholeEffectOnSections(cfg: Settings, w: World, r: Run, now: int)
    requires WorldOk(w) && WorldOk(Effect(cfg, w, r, now, Whole(w, r)))
    requires r.pc.Inserting? ==> NumberedFor(r.sections, r.job.docId) && SectionsIn(w.vectors, r.job.docId) == []
    ensures var before, after := w.vectors, Effect(cfg, w, r, now, Whole(w, r)).vectors;
            match r.pc
            case Deleting => SectionsIn(after, r.job.docId) == []
            case Inserting => SectionsIn(after, r.job.docId) == Indexable(cfg, r)
            case _ => after == before
  {
    match r.pc
    case Deleting => WholeDelete(w, r.job.docId, Whole(w, r));
    case Inserting =>
      InsertPart(cfg, w, r, Whole(w, r), r.job.docId);
      assert Take(Indexable(cfg, r), Whole(w, r)) == Indexable(cfg, r);
    case _ =>
  }

  // ---- the same, on views alone ----

  /** Until INDEXED is written the document is INDEXING; from then on nothing the run does makes the record
      and the vector store disagree. */
  lemma ConsistencyKept(cfg: Settings, v: View, done: map<string, Completed>, r: Run, k: nat, v': View)
    requires DataOk(cfg, r) && StoresOk(cfg, v, done, r) && Consistent(cfg, v, done, r.job.docId)
    requires DocChange(cfg, v.doc, r, k, v'.doc)
    requires !r.pc.Deleting? && !r.pc.Inserting? ==> v'.stored == v.stored
    ensures Consistent(cfg, v', if r.pc.Confirming? && k > 0 then done[r.job.docId := Completion(cfg, r)] else done, r.job.docId)
  {
    if r.pc.Confirming? { CompletionIsFaithful(cfg, r); }
  }

  /** The run keeps its data when it moves on. */
  ghost predicate Moves(r: Run, r': Run) {
    && r'.job == r.job && r'.markdown == r.markdown && r'.pieces == r.pieces && r'.sections == r.sections
    && (Rank(r'.pc) > 14 || 7 <= Rank(r.pc) <= Rank(r'.pc) || (r.pc.Claiming? && Rank(r'.pc) == 1))
  }

  lemma SectionsKept(cfg: Settings, r: Run, r': Run)
    requires SectionsOk(r) && VectorsOk(cfg, r)
    requires
      || Rank(r'.pc) > 14 || Rank(r'.pc) < 5
      || (7 <= Rank(r.pc) <= 14 && r'.sections == r.sections && r'.pieces == r.pieces && r'.job == r.job)
    ensures SectionsOk(r') && VectorsOk(cfg, r')
  {
  }

  lemma MoveKeepsData(cfg: Settings, r: Run, r': Run)
    requires DataOk(cfg, r) && Moves(r, r')
    ensures DataOk(cfg, r')
  {
    TextKept(cfg, r, r');
    SectionsKept(cfg, r, r');
  }

  /** The calls of `index_sections` up to the insertion, when they return. */
  lemma OpeningKeepsStores(cfg: Settings, v: View, done: map<string, Completed>, r: Run, v': View, r': Run)
    requires StoresOk(cfg, v, done, r) && (r.pc.Describing? ==> r.sections != [])
    requires
      match r.pc
      case Looking => r'.pc.Deleting? && r'.job == r.job && v'.doc == v.doc && r'.existing == v.doc
      case Deleting => r' == r.(pc := Marking) && v'.doc == v.doc && v'.stored == []
      case Marking => r' == r.(pc := Describing) && v'.doc == v.doc && v'.stored == v.stored
      case Describing => r' == r.(pc := Inserting) && v'.doc == Some(Description(cfg, r)) && v'.stored == v.stored
      case Inserting => r' == r.(pc := Confirming) && v'.doc == v.doc && v'.stored == Indexable(cfg, r)
      case _ => false
    ensures StoresOk(cfg, v', done, r')
  {
    assert r.pc.Inserting? ==> Indexable(cfg, r') == Indexable(cfg, r);
  }

  /** The claim, and the calls from the confirmation on. */
  lemma ClosingKeepsStores(cfg: Settings, v: View, done: map<string, Completed>, r: Run, v': View, done': map<string, Completed>, r': Run)
    requires StoresOk(cfg, v, done, r)
    requires
      match r.pc
      case Claiming => (r'.pc.Reading? && Has(v'.doc, Indexing)) || r'.pc == Over(Skipped)
      case Confirming =>
        r' == r.(pc := Stamping) && Has(v'.doc, Indexed) && done' == done[r.job.docId := Completion(cfg, r)]
      case Stamping => r' == r.(pc := Logging) && Has(v'.doc, Indexed) && v'.doc.value.processedAt.Some? && done' == done
      case Logging => r' == r.(pc := Over(Succeeded), logged := r'.logged) && v'.doc == v.doc && done' == done
      case FailLogging => r'.pc.FailMarking?
      case FailMarking => r'.pc == Over(Raised) && Has(v'.doc, Failed)
      case _ => false
    ensures StoresOk(cfg, v', done', r')
  {
    assert r.pc.Confirming? || r.pc.Stamping? || r.pc.Logging? ==> Completion(cfg, r') == Completion(cfg, r);
  }

  lemma StageKeepsRest(cfg: Settings, v: View, done: map<string, Completed>, r: Run, r': Run)
    requires StoresOk(cfg, v, done, r) && LogOk(v, r) && 1 <= Rank(r.pc) <= 6
    requires r'.job.docId == r.job.docId && r'.before == r.before && r'.logged == r.logged
    requires r'.pc.FailLogging? || Rank(r'.pc) == Rank(r.pc) + 1
    ensures StoresOk(cfg, v, done, r') && LogOk(v, r')
  {
  }

  /** The bookkeeping of the log, for every way a call can end. */
  lemma LogKept(v: View, r: Run, v': View, r1: Run, r': Run)
    requires LogOk(v, r) && v'.entries == r1.before + r1.logged
    requires r'.before == r1.before && r'.logged == r1.logged && r'.sections == r.sections
    requires
      match r.pc
      case Logging =>
        || (r1.logged == r.logged && r'.pc.FailLogging?)
        || ((r'.pc == Over(Succeeded) || r'.pc.FailLogging?)
            && exists now :: r1.logged == r.logged + [Entry(r.job.docId, Indexed, |r.sections|, now)])
      case FailLogging =>
        || r'.pc == Over(HandlerRaised)
        || (r'.pc.FailMarking? && exists now :: r1.logged == r.logged + [Entry(r.job.docId, Failed, 0, now)])
      case FailMarking => (r'.pc == Over(Raised) || r'.pc == Over(HandlerRaised)) && r1.logged == r.logged
      case _ =>
        && Rank(r.pc) <= 14 && r1.logged == r.logged
        && (Rank(r'.pc) <= 15 || r'.pc == Over(Skipped) || r'.pc == Over(Cancelled))
    ensures LogOk(v', r')
  {
    if r.pc.FailLogging? {
      if r'.pc.FailMarking? { FailedEntryAdded(r, r'); }
    } else if !r.pc.Logging? && !r.pc.FailMarking? {
      NothingLogged(r, r');
    }
  }

  lemma FailedEntryAdded(r: Run, r': Run)
    requires EntriesOk(r) && r.pc.FailLogging? && r'.pc.FailMarking?
    requires exists now :: r'.logged == r.logged + [Entry(r.job.docId, Failed, 0, now)]
    ensures EntriesOk(r')
  {
    assert r'.logged[..|r'.logged| - 1] == r.logged;
  }

  lemma NothingLogged(r: Run, r': Run)
    requires EntriesOk(r) && Rank(r.pc) <= 14 && r'.logged == r.logged
    requires Rank(r'.pc) <= 15 || r'.pc == Over(Skipped) || r'.pc == Over(Cancelled)
    ensures EntriesOk(r')
  {
  }

  // ---- one step of a run ----

  ghost predicate RunReady(cfg: Settings, w: World, done: map<string, Completed>, r: Run) {
    && WorldOk(w)
    && RunOk(cfg, ViewOf(w, r.job.docId), done, r)
    && Consistent(cfg, ViewOf(w, r.job.docId), done, r.job.docId)
  }

  lemma OpeningGoKeepsStores(cfg: Settings, w: World, done: map<string, Completed>, r: Run, now: int, supply: Supply)
    requires WorldOk(w) && StoresOk(cfg, ViewOf(w, r.job.docId), done, r)
    requires r.pc.Inserting? ==> NumberedFor(r.sections, r.job.docId)
    requires 7 <= Rank(r.pc) <= 11 && (r.pc.Describing? ==> r.sections != [])
    requires WorldOk(Effect(cfg, w, r, now, Whole(w, r)))
    ensures StoresOk(cfg, ViewOf(Effect(cfg, w, r, now, Whole(w, r)), r.job.docId), Finished(cfg, done, r, Go(now, supply)),
                     Return(cfg, w, Noted(w, r, now, 1), now, supply))
  {
    var w', r' := Effect(cfg, w, r, now, Whole(w, r)), Return(cfg, w, Noted(w, r, now, 1), now, supply);
    EffectOnRecord(cfg, w, r, now, Whole(w, r));
    WholeEffectOnSections(cfg, w, r, now);
    OpeningKeepsStores(cfg, ViewOf(w, r.job.docId), done, r, ViewOf(w', r.job.docId), r');
  }

  lemma ClosingGoKeepsStores(cfg: Settings, w: World, done: map<string, Completed>, r: Run, now: int, supply: Supply)
    requires WorldOk(w) && StoresOk(cfg, ViewOf(w, r.job.docId), done, r)
    requires WorldOk(Effect(cfg, w, r, now, Whole(w, r)))
    requires !r.pc.Over? && !(1 <= Rank(r.pc) <= 6) && !(7 <= Rank(r.pc) <= 11)
    ensures StoresOk(cfg, ViewOf(Effect(cfg, w, r, now, Whole(w, r)), r.job.docId), Finished(cfg, done, r, Go(now, supply)),
                     Return(cfg, w, Noted(w, r, now, 1), now, supply))
  {
    var x := r.job.docId;
    var w', r' := Effect(cfg, w, r, now, Whole(w, r)), Return(cfg, w, Noted(w, r, now, 1), now, supply);
    EffectOnRecord(cfg, w, r, now, Whole(w, r));
    if r.pc.Claiming? && r'.pc.Reading? { ClaimEffect(cfg, w, r, now); }
    ClosingKeepsStores(cfg, ViewOf(w, x), done, r, ViewOf(w', x), Finished(cfg, done, r, Go(now, supply)), r');
  }

  lemma GoKeepsLog(cfg: Settings, w: World, r: Run, now: int, supply: Supply)
    requires w.vectors.Valid() && LogOk(ViewOf(w, r.job.docId), r)
    requires !r.pc.Over? && !(1 <= Rank(r.pc) <= 6)
    requires Effect(cfg, w, r, now, Whole(w, r)).vectors.Valid()
    ensures LogOk(ViewOf(Effect(cfg, w, r, now, Whole(w, r)), r.job.docId), Return(cfg, w, Noted(w, r, now, 1), now, supply))
  {
    var x := r.job.docId;
    var r1 := Noted(w, r, now, 1);
    EffectOnLog(cfg, w, r, now, Whole(w, r));
    NotedForGood(cfg, w, r, now, supply);
    LogKept(ViewOf(w, x), r, ViewOf(Effect(cfg, w, r, now, Whole(w, r)), x), r1, Return(cfg, w, r1, now, supply));
  }

  /** What a call that returns makes of the run's own notes. */
  lemma NotedForGood(cfg: Settings, w: World, r: Run, now: int, supply: Supply)
    requires !r.pc.Over? && !(1 <= Rank(r.pc) <= 6)
    ensures var r1 := Noted(w, r, now, 1); var r' := Return(cfg, w, r1, now, supply);
            && r'.before == r1.before && r'.logged == r1.logged && r'.sections == r.sections
            && match r.pc
               case Logging => r'.pc == Over(Succeeded) && r1.logged == r.logged + [Entry(r.job.docId, Indexed, |r.sections|, now)]
               case FailLogging => r'.pc.FailMarking? && r1.logged == r.logged + [Entry(r.job.docId, Failed, 0, now)]
               case FailMarking => r'.pc == Over(Raised) && r1.logged == r.logged
               case _ => (Rank(r'.pc) <= 15 || r'.pc == Over(Skipped)) && r1.logged == r.logged
  {
  }

  lemma GoKeepsData(cfg: Settings, w: World, r: Run, now: int, supply: Supply)
    requires DataOk(cfg, r) && !r.pc.Over? && !(1 <= Rank(r.pc) <= 6)
    ensures DataOk(cfg, Return(cfg, w, Noted(w, r, now, 1), now, supply))
    ensures Return(cfg, w, Noted(w, r, now, 1), now, supply).job == r.job
  {
    MoveKeepsData(cfg, r, Return(cfg, w, Noted(w, r, now, 1), now, supply));
  }

  lemma StageIsQuiet(cfg: Settings, w: World, r: Run, now: int, supply: Supply)
    requires 1 <= Rank(r.pc) <= 6
    ensures Effect(cfg, w, r, now, Whole(w, r)) == w
    ensures Return(cfg, w, Noted(w, r, now, 1), now, supply) == Stage(cfg, r, supply)
  {
  }

  lemma StageKeeps(cfg: Settings, w: World, done: map<string, Completed>, r: Run, supply: Supply)
    requires w.vectors.Valid() && RunOk(cfg, ViewOf(w, r.job.docId), done, r) && 1 <= Rank(r.pc) <= 6
    ensures RunOk(cfg, ViewOf(w, r.job.docId), done, Stage(cfg, r, supply))
    ensures Stage(cfg, r, supply).job.docId == r.job.docId
  {
    StageKeepsData(cfg, r, supply);
    StageKeepsHistory(cfg, r, supply);
    StageKeepsRest(cfg, ViewOf(w, r.job.docId), done, r, Stage(cfg, r, supply));
  }

  lemma SectionsAtHand(r: Run)
    requires SectionsOk(r) && r.pc.Describing?
    ensures r.sections != []
  {
    assert Worked(r.sections, r.pieces, r.job.docId);
  }

  lemma InsertReady(cfg: Settings, v: View, done: map<string, Completed>, r: Run)
    requires DataOk(cfg, r) && StoresOk(cfg, v, done, r) && r.pc.Inserting?
    ensures NumberedFor(r.sections, r.job.docId) && v.stored == []
  {
    assert Worked(r.sections, r.pieces, r.job.docId);
  }

  lemma CallKeeps(cfg: Settings, w: World, done: map<string, Completed>, r: Run, now: int, supply: Supply)
    requires WorldOk(w) && RunOk(cfg, ViewOf(w, r.job.docId), done, r) && !r.pc.Over? && !(1 <= Rank(r.pc) <= 6)
    requires WorldOk(Effect(cfg, w, r, now, Whole(w, r)))
    ensures RunOk(cfg, ViewOf(Effect(cfg, w, r, now, Whole(w, r)), r.job.docId), Finished(cfg, done, r, Go(now, supply)),
                  Return(cfg, w, Noted(w, r, now, 1), now, supply))
    ensures Return(cfg, w, Noted(w, r, now, 1), now, supply).job.docId == r.job.docId
  {
    if r.pc.Inserting? { InsertReady(cfg, ViewOf(w, r.job.docId), done, r); }
    if r.pc.Describing? { SectionsAtHand(r); }
    if 7 <= Rank(r.pc) <= 11 {
      OpeningGoKeepsStores(cfg, w, done, r, now, supply);
    } else {
      ClosingGoKeepsStores(cfg, w, done, r, now, supply);
    }
    GoKeepsLog(cfg, w, r, now, supply);
    GoKeepsData(cfg, w, r, now, supply);
  }

  lemma RaiseKeeps(cfg: Settings, w: World, done: map<string, Completed>, r: Run, a: Action)
    requires WorldOk(w) && RunOk(cfg, ViewOf(w, r.job.docId), done, r) && RunEnabled(r, a) && a.Raise?
    requires WorldOk(RunStep(cfg, w, r, a).w)
    ensures RunOk(cfg, ViewOf(RunStep(cfg, w, r, a).w, r.job.docId), Finished(cfg, done, r, a), RunStep(cfg, w, r, a).r)
  {
    var b := RunStep(cfg, w, r, a);
    RaiseKeepsLog(cfg, w, r, a);
    RaiseMoves(cfg, w, r, a);
    MoveKeepsData(cfg, r, b.r);
    NothingOwed(cfg, ViewOf(b.w, r.job.docId), Finished(cfg, done, r, a), b.r);
  }

  /** A run that raised is in the except block or over, with its data as it was. */
  lemma RaiseMoves(cfg: Settings, w: World, r: Run, a: Action)
    requires RunEnabled(r, a) && a.Raise?
    ensures var r' := RunStep(cfg, w, r, a).r;
            Moves(r, r') && (r'.pc.FailLogging? || r'.pc == Over(HandlerRaised))
  {
    NotedMoves(w, r, a.now, a.effects);
  }

  lemma NotedMoves(w: World, r: Run, now: int, k: nat)
    ensures var r1 := Noted(w, r, now, k);
            r1.job == r.job && r1.markdown == r.markdown && r1.pieces == r.pieces && r1.sections == r.sections && r1.pc == r.pc
  {
  }

  /** There the stores owe it nothing. */
  lemma NothingOwed(cfg: Settings, v: View, done: map<string, Completed>, r: Run)
    requires r.pc.FailLogging? || r.pc == Over(HandlerRaised)
    ensures StoresOk(cfg, v, done, r)
  {
  }

  lemma RaiseKeepsLog(cfg: Settings, w: World, r: Run, a: Action)
    requires w.vectors.Valid() && LogOk(ViewOf(w, r.job.docId), r) && RunEnabled(r, a) && a.Raise?
    requires RunStep(cfg, w, r, a).w.vectors.Valid()
    ensures LogOk(ViewOf(RunStep(cfg, w, r, a).w, r.job.docId), RunStep(cfg, w, r, a).r)
  {
    var x := r.job.docId;
    var b := RunStep(cfg, w, r, a);
    EffectOnLog(cfg, w, r, a.now, a.effects);
    LogKept(ViewOf(w, x), r, ViewOf(b.w, x), Noted(w, r, a.now, a.effects), b.r);
  }

  lemma CancelKeeps(cfg: Settings, v: View, done: map<string, Completed>, r: Run)
    requires RunOk(cfg, v, done, r) && RunEnabled(r, Cancel)
    ensures RunOk(cfg, v, done, r.(pc := Over(Cancelled)))
  {
  }

  lemma EffectKeepsAll(cfg: Settings, w: World, r: Run, now: int, k: nat)
    requires WorldOk(w)
    requires r.pc.Inserting? ==> NumberedFor(r.sections, r.job.docId) && SectionsIn(w.vectors, r.job.docId) == []
    ensures WorldOk(Effect(cfg, w, r, now, k))
    ensures forall y :: y != r.job.docId ==> ViewOf(Effect(cfg, w, r, now, k), y) == ViewOf(w, y)
  {
    EffectKeeps(cfg, w, r, now, k, r.job.docId);
    forall y | y != r.job.docId
      ensures ViewOf(Effect(cfg, w, r, now, k), y) == ViewOf(w, y)
    {
      EffectKeeps(cfg, w, r, now, k, y);
    }
  }

  lemma EffectKeepsConsistency(cfg: Settings, w: World, done: map<string, Completed>, r: Run, now: int, k: nat)
    requires RunReady(cfg, w, done, r) && WorldOk(Effect(cfg, w, r, now, k))
    ensures Consistent(cfg, ViewOf(Effect(cfg, w, r, now, k), r.job.docId),
                       if r.pc.Confirming? && k > 0 then done[r.job.docId := Completion(cfg, r)] else done, r.job.docId)
  {
    var x := r.job.docId;
    EffectOnRecord(cfg, w, r, now, k);
    assert !r.pc.Deleting? && !r.pc.Inserting? ==> Effect(cfg, w, r, now, k).vectors == w.vectors;
    ConsistencyKept(cfg, ViewOf(w, x), done, r, k, ViewOf(Effect(cfg, w, r, now, k), x));
  }

  lemma StageKeepsReady(cfg: Settings, w: World, done: map<string, Completed>, r: Run, now: int, supply: Supply)
    requires RunReady(cfg, w, done, r) && 1 <= Rank(r.pc) <= 6 && RunEnabled(r, Go(now, supply))
    ensures RunStep(cfg, w, r, Go(now, supply)) == Both(w, Stage(cfg, r, supply))
    ensures RunReady(cfg, w, done, Stage(cfg, r, supply))
    ensures Stage(cfg, r, supply).job.docId == r.job.docId
  {
    StageIsQuiet(cfg, w, r, now, supply);
    StageKeeps(cfg, w, done, r, supply);
  }

  lemma CallKeepsReady(cfg: Settings, w: World, done: map<string, Completed>, r: Run, now: int, supply: Supply)
    requires RunReady(cfg, w, done, r) && !r.pc.Over? && !(1 <= Rank(r.pc) <= 6)
    ensures RunReady(cfg, RunStep(cfg, w, r, Go(now, supply)).w, Finished(cfg, done, r, Go(now, supply)),
                     RunStep(cfg, w, r, Go(now, supply)).r)
    ensures RunStep(cfg, w, r, Go(now, supply)).r.job.docId == r.job.docId
    ensures forall y :: y != r.job.docId ==> ViewOf(RunStep(cfg, w, r, Go(now, supply)).w, y) == ViewOf(w, y)
  {
    if r.pc.Inserting? { InsertReady(cfg, ViewOf(w, r.job.docId), done, r); }
    EffectKeepsAll(cfg, w, r, now, Whole(w, r));
    EffectKeepsConsistency(cfg, w, done, r, now, Whole(w, r));
    CallKeeps(cfg, w, done, r, now, supply);
  }

  lemma RaiseKeepsReady(cfg: Settings, w: World, done: map<string, Completed>, r: Run, now: int, k: nat)
    requires RunReady(cfg, w, done, r) && !r.pc.Over?
    ensures RunReady(cfg, RunStep(cfg, w, r, Raise(now, k)).w, Finished(cfg, done, r, Raise(now, k)),
                     RunStep(cfg, w, r, Raise(now, k)).r)
    ensures RunStep(cfg, w, r, Raise(now, k)).r.job.docId == r.job.docId
    ensures forall y :: y != r.job.docId ==> ViewOf(RunStep(cfg, w, r, Raise(now, k)).w, y) == ViewOf(w, y)
  {
    if r.pc.Inserting? { InsertReady(cfg, ViewOf(w, r.job.docId), done, r); }
    EffectKeepsAll(cfg, w, r, now, k);
    EffectKeepsConsistency(cfg, w, done, r, now, k);
    RaiseKeeps(cfg, w, done, r, Raise(now, k));
  }

  /** One step of a run, whatever it is and whatever fails, keeps what is promised about its own document
      and does not touch any other. */
  lemma RunStepKeeps(cfg: Settings, w: World, done: map<string, Completed>, r: Run, a: Action)
    requires RunReady(cfg, w, done, r) && RunEnabled(r, a)
    ensures RunReady(cfg, RunStep(cfg, w, r, a).w, Finished(cfg, done, r, a), RunStep(cfg, w, r, a).r)
    ensures RunStep(cfg, w, r, a).r.job.docId == r.job.docId
    ensures forall y :: y != r.job.docId ==> ViewOf(RunStep(cfg, w, r, a).w, y) == ViewOf(w, y)
  {
    match a
    case Go(now, supply) =>
      if 1 <= Rank(r.pc) <= 6 {
        StageKeepsReady(cfg, w, done, r, now, supply);
      } else {
        CallKeepsReady(cfg, w, done, r, now, supply);
      }
    case Raise(now, k) => RaiseKeepsReady(cfg, w, done, r, now, k);
    case Cancel => CancelKeeps(cfg, ViewOf(w, r.job.docId), done, r);
  }
}
