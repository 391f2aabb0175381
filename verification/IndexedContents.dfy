/** What an INDEXED document consists of, field by field: the record, the stored sections, and where each of their
    parts came from. */
module IndexedContents {
  import opened Sequences
  import opened Texts
  import opened HeadingSplitter
  import opened Sections
  import opened VectorStores
  import opened SectionIndexes
  import opened MetadataStores
  import opened IngestRuns
  import opened IngestInvariants
  import opened IngestSystems
  import D = Dispatchers
  import Normaliser
  import SectionEmbedders

  /** What the world outside may ask and answer: the jobs, the text of a file, the language of a text, where a text was
      saved, and the caption of a piece of text. */
  datatype Sources = Sources(
    asked: Job -> bool,
    parsed: (string, string) -> bool,
    detected: (string, string) -> bool,
    saved: (string, Option<string>) -> bool,
    captioned: (string, string) -> bool)

  ghost predicate HonestSupply(r: Run, supply: Supply, src: Sources) {
    match r.pc
    case Parsing => src.parsed(r.job.fileUri, supply.text) && src.detected(Normaliser.Normalize(supply.text), supply.language)
    case Saving => src.saved(r.markdown, supply.uri)
    case Captioning =>
      |supply.captions| == |r.sections| ==> forall k :: 0 <= k < |r.sections| ==> src.captioned(r.sections[k].content, supply.captions[k])
    case _ => true
  }

  ghost predicate HonestStep(s: System, e: Event, src: Sources) {
    match e
    case Dispatch(d) => d.EvEnqueue? ==> forall k :: 0 <= k < |d.jobs| ==> src.asked(d.jobs[k])
    case Advance(i, a) => i < |s.runs| && a.Go? ==> HonestSupply(s.runs[i], a.supply, src)
  }

  ghost predicate Honest(cfg: Config, s: System, es: seq<Event>, src: Sources)
    decreases |es|
  {
    es != [] && Enabled(s, es[0]) ==> HonestStep(s, es[0], src) && Honest(cfg, Step(cfg, s, es[0]), es[1..], src)
  }

  // ---- what a run has gathered ----

  /** The text is a parse of the file, normalised; its language is the one detected, or Vietnamese if it is short. */
  ghost predicate TextTold(job: Job, markdown: string, src: Sources) {
    && (exists t :: src.parsed(job.fileUri, t) && markdown == Normaliser.Normalize(t))
    && (if |markdown| < 50 then job.language == "vi" else src.detected(markdown, job.language))
  }

  /** The section bears the last heading of its path, the address of the text and of the file, and the job's type and
      language. */
  ghost predicate PieceTold(s: Section, job: Job, uri: Option<string>) {
    && s.heading == (if s.headingPath == [] then "" else s.headingPath[|s.headingPath| - 1])
    && s.markdownUri == uri && s.sourceUri == Some(job.fileUri)
    && TextAt(s.metadata, "document_type") == job.documentType && TextAt(s.metadata, "language") == job.language
  }

  /** The caption is one given for the content, or the beginning of the content, stripped. */
  ghost predicate CaptionTold(cfg: Settings, s: Section, src: Sources) {
    && TextAt(s.metadata, "caption_model") == cfg.captionModel
    && exists c :: src.captioned(s.content, c) && s.caption == Strip(if c != "" then c else Take(s.content, cfg.captionMaxChars))
  }

  ghost predicate SectionsTold(ss: seq<Section>, job: Job, uri: Option<string>) {
    forall k :: 0 <= k < |ss| ==> PieceTold(ss[k], job, uri)
  }

  ghost predicate CaptionsTold(cfg: Settings, ss: seq<Section>, src: Sources) {
    forall k :: 0 <= k < |ss| ==> CaptionTold(cfg, ss[k], src)
  }

  ghost predicate ModelTold(ss: seq<Section>, model: string) {
    forall k :: 0 <= k < |ss| ==> TextAt(ss[k].metadata, "embedding_model") == model
  }

  ghost predicate RunTold(cfg: Settings, r: Run, src: Sources) {
    && (3 <= Rank(r.pc) <= 14 ==> TextTold(r.job, r.markdown, src))
    && (4 <= Rank(r.pc) <= 14 ==> src.saved(r.markdown, r.markdownUri))
    && (5 <= Rank(r.pc) <= 14 ==> SectionsTold(r.sections, r.job, r.markdownUri))
    && (6 <= Rank(r.pc) <= 14 ==> CaptionsTold(cfg, r.sections, src))
    && (7 <= Rank(r.pc) <= 14 ==> ModelTold(r.sections, cfg.embedModel))
  }

  // ---- stage by stage ----

  lemma ParseTells(cfg: Settings, r: Run, supply: Supply, src: Sources)
    requires r.pc.Parsing? && HonestSupply(r, supply, src)
    ensures RunTold(cfg, Stage(cfg, r, supply), src)
  {
    var r' := Parsed(r, supply);
    assert src.parsed(r'.job.fileUri, supply.text) && r'.markdown == Normaliser.Normalize(supply.text);
  }

  lemma PieceIsTold(p: Piece, index: nat, job: Job, uri: Option<string>)
    ensures PieceTold(SectionOf(p, index, job, uri), job, uri)
  {
  }

  lemma SplitTells(cfg: Settings, r: Run, supply: Supply, src: Sources)
    requires r.pc.Splitting? && RunTold(cfg, r, src)
    ensures RunTold(cfg, SplitUp(cfg, r), src)
  {
    var r' := SplitUp(cfg, r);
    PiecesAreTold(cfg.split(r.markdown), r.job, r.markdownUri);
    if r'.pc.Captioning? { FirstSections(cfg, r, r', src); } else { NothingTold(cfg, r', src); }
  }

  lemma FirstSections(cfg: Settings, r: Run, r': Run, src: Sources)
    requires RunTold(cfg, r, src) && r.pc.Splitting? && r'.pc.Captioning?
    requires r'.job == r.job && r'.markdown == r.markdown && r'.markdownUri == r.markdownUri
    requires SectionsTold(r'.sections, r.job, r.markdownUri)
    ensures RunTold(cfg, r', src)
  {
    assert TextTold(r'.job, r'.markdown, src) && src.saved(r'.markdown, r'.markdownUri);
  }

  lemma PiecesAreTold(ps: seq<Piece>, job: Job, uri: Option<string>)
    ensures SectionsTold(SectionsOfPieces(ps, job, uri), job, uri)
  {
    forall k | 0 <= k < |ps|
      ensures PieceTold(SectionsOfPieces(ps, job, uri)[k], job, uri)
    {
      PieceIsTold(ps[k], k, job, uri);
    }
  }

  lemma CaptionOne(cfg: Settings, s: Section, caption: string, job: Job, uri: Option<string>, src: Sources)
    requires PieceTold(s, job, uri) && src.captioned(s.content, caption)
    ensures PieceTold(Captioned(cfg, s, caption), job, uri) && CaptionTold(cfg, Captioned(cfg, s, caption), src)
  {
    assert "caption_model" != "document_type" by { assert "caption_model"[0] != "document_type"[0]; }
    assert src.captioned(Captioned(cfg, s, caption).content, caption);
  }

  lemma CaptionAll(cfg: Settings, ss: seq<Section>, captions: seq<string>, job: Job, uri: Option<string>, src: Sources)
    requires SectionsTold(ss, job, uri) && |captions| == |ss|
    requires forall k :: 0 <= k < |ss| ==> src.captioned(ss[k].content, captions[k])
    ensures SectionsTold(CaptionedAll(cfg, ss, captions), job, uri) && CaptionsTold(cfg, CaptionedAll(cfg, ss, captions), src)
  {
    forall k | 0 <= k < |ss|
      ensures PieceTold(CaptionedAll(cfg, ss, captions)[k], job, uri) && CaptionTold(cfg, CaptionedAll(cfg, ss, captions)[k], src)
    {
      CaptionOne(cfg, ss[k], captions[k], job, uri, src);
    }
  }

  /** A run that goes on with other sections but the same text. */
  lemma SectionsReplaced(cfg: Settings, r: Run, r': Run, src: Sources)
    requires RunTold(cfg, r, src) && (r.pc.Captioning? || r.pc.Embedding?) && (r'.pc.Embedding? || r'.pc.Looking?)
    requires r'.job == r.job && r'.markdown == r.markdown && r'.markdownUri == r.markdownUri
    requires SectionsTold(r'.sections, r.job, r.markdownUri)
    requires CaptionsTold(cfg, r'.sections, src)
    requires r'.pc.Looking? ==> ModelTold(r'.sections, cfg.embedModel)
    ensures RunTold(cfg, r', src)
  {
    assert TextTold(r'.job, r'.markdown, src) && src.saved(r'.markdown, r'.markdownUri);
  }

  lemma CaptionTells(cfg: Settings, r: Run, supply: Supply, src: Sources)
    requires r.pc.Captioning? && RunTold(cfg, r, src) && HonestSupply(r, supply, src)
    ensures RunTold(cfg, CaptionsPut(cfg, r, supply.captions), src)
  {
    if |supply.captions| == |r.sections| {
      CaptionAll(cfg, r.sections, supply.captions, r.job, r.markdownUri, src);
      SectionsReplaced(cfg, r, CaptionsPut(cfg, r, supply.captions), src);
    } else {
      NothingTold(cfg, CaptionsPut(cfg, r, supply.captions), src);
    }
  }

  lemma NothingTold(cfg: Settings, r: Run, src: Sources)
    requires r.pc.FailLogging?
    ensures RunTold(cfg, r, src)
  {
  }

  lemma EmbedOne(s: Section, v: Vector, model: string, cfg: Settings, job: Job, uri: Option<string>, src: Sources)
    requires PieceTold(s, job, uri) && CaptionTold(cfg, s, src)
    ensures var z := s.(embedding := v, metadata := s.metadata["embedding_model" := TextMeta(model)]);
            PieceTold(z, job, uri) && CaptionTold(cfg, z, src) && TextAt(z.metadata, "embedding_model") == model
  {
    var z := s.(embedding := v, metadata := s.metadata["embedding_model" := TextMeta(model)]);
    var c :| src.captioned(s.content, c) && s.caption == Strip(if c != "" then c else Take(s.content, cfg.captionMaxChars));
    assert src.captioned(z.content, c);
  }

  lemma EmbedAll(cfg: Settings, ss: seq<Section>, vectors: seq<Vector>, job: Job, uri: Option<string>, src: Sources)
    requires SectionsTold(ss, job, uri) && CaptionsTold(cfg, ss, src) && |vectors| == |ss|
    ensures var zs := SectionEmbedders.EmbeddedUpTo(ss, vectors, |ss|, cfg.embedModel);
            SectionsTold(zs, job, uri) && CaptionsTold(cfg, zs, src) && ModelTold(zs, cfg.embedModel)
  {
    var zs := SectionEmbedders.EmbeddedUpTo(ss, vectors, |ss|, cfg.embedModel);
    forall k | 0 <= k < |ss|
      ensures PieceTold(zs[k], job, uri) && CaptionTold(cfg, zs[k], src)
      ensures TextAt(zs[k].metadata, "embedding_model") == cfg.embedModel
    {
      EmbedOne(ss[k], vectors[k], cfg.embedModel, cfg, job, uri, src);
    }
  }

  lemma EmbedTells(cfg: Settings, r: Run, supply: Supply, src: Sources)
    requires r.pc.Embedding? && RunTold(cfg, r, src)
    ensures RunTold(cfg, VectorsPut(cfg, r, supply.vectors), src)
  {
    if |supply.vectors| == |r.sections| && AllOfDimension(supply.vectors, cfg.embeddingDim) {
      EmbedAll(cfg, r.sections, supply.vectors, r.job, r.markdownUri, src);
      SectionsReplaced(cfg, r, VectorsPut(cfg, r, supply.vectors), src);
    } else {
      NothingTold(cfg, VectorsPut(cfg, r, supply.vectors), src);
    }
  }

  lemma StageTells(cfg: Settings, r: Run, supply: Supply, src: Sources)
    requires 1 <= Rank(r.pc) <= 6 && RunTold(cfg, r, src) && HonestSupply(r, supply, src)
    ensures RunTold(cfg, Stage(cfg, r, supply), src)
  {
    match r.pc
    case Parsing => ParseTells(cfg, r, supply, src);
    case Splitting => SplitTells(cfg, r, supply, src);
    case Captioning => CaptionTells(cfg, r, supply, src);
    case Embedding => EmbedTells(cfg, r, supply, src);
    case _ =>
  }

  /** From the first call of `index_sections` on, a run keeps what it has gathered. */
  lemma LaterTells(cfg: Settings, r: Run, r': Run, src: Sources)
    requires RunTold(cfg, r, src)
    requires Rank(r'.pc) < 3 || Rank(r'.pc) > 14
          || (7 <= Rank(r.pc) <= 14 && r'.job == r.job && r'.markdown == r.markdown && r'.markdownUri == r.markdownUri
              && r'.sections == r.sections)
    ensures RunTold(cfg, r', src)
  {
  }

  lemma CallLeaves(cfg: Settings, w: World, r: Run, now: int, supply: Supply)
    requires !r.pc.Over? && !(1 <= Rank(r.pc) <= 6)
    ensures var r' := Return(cfg, w, Noted(w, r, now, 1), now, supply);
            && r'.job == r.job && r'.markdown == r.markdown && r'.markdownUri == r.markdownUri && r'.sections == r.sections
            && (r.pc.Claiming? ==> Rank(r'.pc) == 1 || r'.pc.Over?) && (Rank(r.pc) > 14 ==> Rank(r'.pc) > 14)
  {
  }

  lemma StageJob(cfg: Settings, r: Run, supply: Supply)
    ensures Stage(cfg, r, supply).job == r.job.(language := Stage(cfg, r, supply).job.language)
  {
  }

  lemma RunStepTells(cfg: Settings, w: World, r: Run, a: Action, src: Sources)
    requires RunEnabled(r, a) && RunTold(cfg, r, src) && (a.Go? ==> HonestSupply(r, a.supply, src))
    ensures RunTold(cfg, RunStep(cfg, w, r, a).r, src)
    ensures RunStep(cfg, w, r, a).r.job == r.job.(language := RunStep(cfg, w, r, a).r.job.language)
  {
    var r' := RunStep(cfg, w, r, a).r;
    if a.Go? && 1 <= Rank(r.pc) <= 6 {
      StageIsQuiet(cfg, w, r, a.now, a.supply);
      StageTells(cfg, r, a.supply, src);
      StageJob(cfg, r, a.supply);
    } else {
      if a.Go? { CallLeaves(cfg, w, r, a.now, a.supply); }
      LaterTells(cfg, r, r', src);
    }
  }

  // ---- what is stored ----

  function NameOf(cfg: Settings, job: Job): string {
    if job.fileName.Some? && job.fileName.value != "" then job.fileName.value else cfg.nameOf(job.fileUri)
  }

  /** A stored section also names its file, and its metadata repeats its fields. */
  ghost predicate StoredTold(cfg: Settings, s: Section, job: Job, uri: Option<string>, src: Sources) {
    && s == Enriched(s)
    && PieceTold(s, job, uri) && CaptionTold(cfg, s, src)
    && TextAt(s.metadata, "file_name") == TextAt(s.metadata, "document_name") == NameOf(cfg, job)
    && TextAt(s.metadata, "embedding_model") == cfg.embedModel
  }

  /** All sections of one completed run tell the same, and the text is saved where they say. */
  ghost predicate DoneTold(cfg: Settings, c: Completed, src: Sources) {
    && TextTold(c.job, c.markdown, src)
    && exists uri :: src.saved(c.markdown, uri) && forall k :: 0 <= k < |c.sections| ==> StoredTold(cfg, c.sections[k], c.job, uri, src)
  }

  lemma StampedTells(cfg: Settings, s: Section, job: Job, uri: Option<string>, fallback: Option<string>)
    requires PieceTold(s, job, uri)
    ensures var m := Stamped(s, NameOf(cfg, job), job.fileUri, fallback).metadata;
            && TextAt(m, "document_type") == job.documentType && TextAt(m, "language") == job.language
            && TextAt(m, "file_name") == NameOf(cfg, job) && TextAt(m, "document_name") == NameOf(cfg, job)
            && TextAt(m, "caption_model") == TextAt(s.metadata, "caption_model")
            && TextAt(m, "embedding_model") == TextAt(s.metadata, "embedding_model")
  {
    assert "document_type"[9] != "document_name"[9] && "document_type"[0] != "source_s3_uri"[0];
  }

  lemma EnrichedLeaves(s: Section, key: string)
    requires key in {"document_type", "language", "file_name", "document_name", "caption_model", "embedding_model"}
    ensures TextAt(Enriched(s).metadata, key) == TextAt(s.metadata, key)
  {
    assert "document_name"[0] != "section_order"[0] && "document_name"[0] != "source_s3_uri"[0];
    assert "document_type"[0] != "section_order"[0] && "document_type"[0] != "source_s3_uri"[0];
  }

  lemma EnrichedTwice(s: Section)
    ensures Enriched(Enriched(s)) == Enriched(s)
  {
    var m := Enriched(s).metadata;
    assert forall key :: key in m ==> key in Enriched(Enriched(s)).metadata;
  }

  lemma StoreTells(cfg: Settings, s: Section, job: Job, uri: Option<string>, fallback: Option<string>, src: Sources)
    requires PieceTold(s, job, uri) && CaptionTold(cfg, s, src) && TextAt(s.metadata, "embedding_model") == cfg.embedModel
    ensures StoredTold(cfg, Enriched(Stamped(s, NameOf(cfg, job), job.fileUri, fallback)), job, uri, src)
  {
    var stamped := Stamped(s, NameOf(cfg, job), job.fileUri, fallback);
    StampedTells(cfg, s, job, uri, fallback);
    EnrichedTwice(stamped);
    EnrichedLeaves(stamped, "document_type");
    EnrichedLeaves(stamped, "language");
    EnrichedLeaves(stamped, "file_name");
    EnrichedLeaves(stamped, "document_name");
    EnrichedLeaves(stamped, "caption_model");
    EnrichedLeaves(stamped, "embedding_model");
    var c :| src.captioned(s.content, c) && s.caption == Strip(if c != "" then c else Take(s.content, cfg.captionMaxChars));
    assert src.captioned(Enriched(stamped).content, c);
  }

  lemma CompletionTells(cfg: Settings, r: Run, src: Sources)
    requires RunTold(cfg, r, src) && 7 <= Rank(r.pc) <= 14
    ensures DoneTold(cfg, Completion(cfg, r), src)
  {
    forall k | 0 <= k < |r.sections|
      ensures StoredTold(cfg, Indexable(cfg, r)[k], r.job, r.markdownUri, src)
    {
      StoreTells(cfg, r.sections[k], r.job, r.markdownUri, MarkdownUri(r), src);
    }
    assert src.saved(Completion(cfg, r).markdown, r.markdownUri);
  }

  // ---- over whole runs of the system ----

  /** The job was asked for, but for its language. */
  ghost predicate WasAsked(job: Job, src: Sources) {
    exists language :: src.asked(job.(language := language))
  }

  ghost predicate AllAsked(jobs: seq<Job>, src: Sources) {
    forall k :: 0 <= k < |jobs| ==> WasAsked(jobs[k], src)
  }

  ghost predicate AllTold(cfg: Config, s: System, src: Sources) {
    && AllAsked(s.d.queue, src)
    && (s.d.held.Some? ==> WasAsked(s.d.held.value, src))
    && (forall i :: 0 <= i < |s.runs| ==> RunTold(cfg.settings, s.runs[i], src) && WasAsked(s.runs[i].job, src))
    && (forall x :: x in s.done ==> DoneTold(cfg.settings, s.done[x], src) && WasAsked(s.done[x].job, src))
  }

  lemma {:induction false} EnqueueAsked(lim: D.Limits, d: D.State, jobs: seq<Job>, src: Sources)
    requires AllAsked(d.queue, src) && AllAsked(jobs, src)
    ensures AllAsked(D.EnqueueAll(lim, d, jobs).queue, src)
  {
    if jobs != [] { EnqueueAsked(lim, d, jobs[..|jobs| - 1], src); }
  }

  lemma SameButLanguage(a: Job, b: Job, src: Sources)
    requires WasAsked(a, src) && b == a.(language := b.language)
    ensures WasAsked(b, src)
  {
    var language :| src.asked(a.(language := language));
    assert b.(language := language) == a.(language := language);
  }

  lemma DispatchTells(cfg: Config, s: System, e: D.Event, src: Sources)
    requires Enabled(s, Dispatch(e)) && AllTold(cfg, s, src) && HonestStep(s, Dispatch(e), src)
    ensures AllTold(cfg, Step(cfg, s, Dispatch(e)), src)
  {
    if e.EvEnqueue? {
      forall k | 0 <= k < |e.jobs| ensures WasAsked(e.jobs[k], src) { assert src.asked(e.jobs[k].(language := e.jobs[k].language)); }
      EnqueueAsked(cfg.limits, s.d, e.jobs, src);
      EnqueueKeepsTasks(cfg.limits, s.d, e.jobs);
    }
  }

  lemma AdvanceTells(cfg: Config, s: System, i: nat, a: Action, src: Sources)
    requires Enabled(s, Advance(i, a)) && AllTold(cfg, s, src) && HonestStep(s, Advance(i, a), src)
    ensures AllTold(cfg, Step(cfg, s, Advance(i, a)), src)
  {
    var r := s.runs[i];
    RunStepTells(cfg.settings, s.w, r, a, src);
    SameButLanguage(r.job, RunStep(cfg.settings, s.w, r, a).r.job, src);
    if MarksIndexed(r, a) { CompletionTells(cfg.settings, r, src); }
  }

  lemma StepTells(cfg: Config, s: System, e: Event, src: Sources)
    requires Enabled(s, e) && AllTold(cfg, s, src) && HonestStep(s, e, src)
    ensures AllTold(cfg, Step(cfg, s, e), src)
  {
    match e
    case Dispatch(d) => DispatchTells(cfg, s, d, src);
    case Advance(i, a) => AdvanceTells(cfg, s, i, a, src);
  }

  lemma {:induction false} RunTells(cfg: Config, s: System, es: seq<Event>, src: Sources)
    requires AllTold(cfg, s, src) && Honest(cfg, s, es, src) && Exec(cfg, s, es).Some?
    ensures AllTold(cfg, Exec(cfg, s, es).value, src)
    decreases |es|
  {
    if es != [] {
      StepTells(cfg, s, es[0], src);
      RunTells(cfg, Step(cfg, s, es[0]), es[1..], src);
    }
  }

  /** However documents were ingested together: an INDEXED document was asked for; its text is a parse of the very file,
      normalised, its language the detected one or Vietnamese if the text is short; and its stored sections are the
      pieces of that text, each with its last heading, a caption given for it or its own beginning, the address at
      which the text was saved, and the file's address, name, type and language. */
  lemma IndexedTells(cfg: Config, es: seq<Event>, s: System, x: string, src: Sources)
    requires Reached(cfg, es, s) && Honest(cfg, Boot(cfg), es, src) && Has(s.w.docs.Get(x), Indexed)
    ensures s.w.vectors.Valid() && x in s.done
    ensures var c := s.done[x];
            && c.job.docId == x && WasAsked(c.job, src) && TextTold(c.job, c.markdown, src)
            && MatchesPieces(SectionsIn(s.w.vectors, x), cfg.settings.split(c.markdown))
            && exists uri :: src.saved(c.markdown, uri) && forall k :: 0 <= k < |SectionsIn(s.w.vectors, x)| ==>
                 StoredTold(cfg.settings, SectionsIn(s.w.vectors, x)[k], c.job, uri, src)
  {
    ReachedInv(cfg, es, s);
    RunTells(cfg, Boot(cfg), es, src);
    assert Consistent(cfg.settings, ViewOf(s.w, x), s.done, x);
  }

  const ANYTHING := Sources(_ => true, (_, _) => true, (_, _) => true, (_, _) => true, (_, _) => true)

  lemma {:induction false} AnythingIsHonest(cfg: Config, s: System, es: seq<Event>)
    ensures Honest(cfg, s, es, ANYTHING)
    decreases |es|
  {
    if es != [] && Enabled(s, es[0]) { AnythingIsHonest(cfg, Step(cfg, s, es[0]), es[1..]); }
  }

  /** In every run the record of an INDEXED document and its stored sections agree on all they both tell: the file, its
      name, type and language, and where the text is kept. */
  lemma RecordAndSectionsAgree(cfg: Config, es: seq<Event>, s: System, x: string, k: nat)
    requires Reached(cfg, es, s) && Has(s.w.docs.Get(x), Indexed)
    ensures s.w.vectors.Valid()
    ensures k < |SectionsIn(s.w.vectors, x)| ==>
              var doc, z := s.w.docs.vals[x], SectionsIn(s.w.vectors, x)[k];
              && z == Enriched(z)
              && z.sourceUri == doc.sourceUri == Some(doc.filePath) && z.markdownUri == doc.markdownUri
              && doc.fileName == Some(TextAt(z.metadata, "file_name")) == Some(TextAt(z.metadata, "document_name"))
              && doc.documentType == TextAt(z.metadata, "document_type") && doc.language == TextAt(z.metadata, "language")
  {
    AnythingIsHonest(cfg, Boot(cfg), es);
    IndexedTells(cfg, es, s, x, ANYTHING);
    ReachedInv(cfg, es, s);
    assert Consistent(cfg.settings, ViewOf(s.w, x), s.done, x);
    var uri :| forall j :: 0 <= j < |SectionsIn(s.w.vectors, x)| ==>
                 StoredTold(cfg.settings, SectionsIn(s.w.vectors, x)[j], s.done[x].job, uri, ANYTHING);
  }
}
