/** One execution of `RunIngestJob.execute` with `DocumentIndexService.index_sections` (app/application/ingest)
    as a machine whose steps are the calls to the stores. Any call may raise, before its effect, after it or
    in the middle of it. */
module IngestRuns {
  import opened Sequences
  import opened Texts
  import opened HeadingSplitter
  import opened Sections
  import opened VectorStores
  import opened SectionIndexes
  import opened MetadataStores
  import Normaliser
  import SectionEmbedders

  datatype World = World(docs: Documents, vectors: Store, jobs: seq<JobEntry>)

  /** `split` cuts the markdown into pieces; `nameOf` is `Path(uri).name`. */
  datatype Settings = Settings(
    staleSeconds: nat,
    embeddingDim: nat,
    embedModel: string,
    captionModel: string,
    captionMaxChars: nat,
    split: string -> seq<Piece>,
    nameOf: string -> string)

  /** The splitter in use is `HeadingSectionSplitter`. */
  ghost predicate SplitsByHeading(cfg: Settings) {
    forall t :: cfg.split(t) == Split(t)
  }

  datatype Result = Skipped | Succeeded | Raised | HandlerRaised | Cancelled

  /** The call a run is about to make. */
  datatype Pc =
    | Claiming | Reading | Parsing | Saving | Splitting | Captioning | Embedding
    | Looking | Deleting | Marking | Describing | Inserting | Confirming | Stamping | Logging
    | FailLogging | FailMarking
    | Over(result: Result)

  /** `pieces` is what the markdown was cut into. `before` and `logged` are history: the document's log entries
      when the run began, and the run's own. */
  datatype Run = Run(
    pc: Pc,
    job: Job,
    markdown: string,
    markdownUri: Option<string>,
    pieces: seq<Piece>,
    sections: seq<Section>,
    existing: Option<DocumentRecord>,
    startedAt: int,
    before: seq<JobEntry>,
    logged: seq<JobEntry>)

  function NewRun(job: Job): Run { Run(Claiming, job, "", None, [], [], None, 0, [], []) }

  /** What the outside world answers: parsed text, detected language, place of the markdown, captions, vectors. */
  datatype Supply = Supply(text: string, language: string, uri: Option<string>, captions: seq<string>, vectors: seq<Vector>)

  datatype Action = Go(now: int, supply: Supply) | Raise(now: int, effects: nat) | Cancel

  function Rank(pc: Pc): nat {
    match pc
    case Claiming => 0 case Reading => 1 case Parsing => 2 case Saving => 3 case Splitting => 4
    case Captioning => 5 case Embedding => 6 case Looking => 7 case Deleting => 8 case Marking => 9
    case Describing => 10 case Inserting => 11 case Confirming => 12 case Stamping => 13 case Logging => 14
    case FailLogging => 15 case FailMarking => 16 case Over(_) => 17
  }

  // ---- the stages before indexing ----

  function Detected(text: string, language: string): string { if |text| < 50 then "vi" else language }

  function Captioned(cfg: Settings, s: Section, caption: string): Section {
    s.(caption := Strip(if caption != "" then caption else Take(s.content, cfg.captionMaxChars)),
    metadata := s.metadata["caption_model" := TextMeta(cfg.captionModel)])
  }

  function CaptionedAll(cfg: Settings, ss: seq<Section>, captions: seq<string>): (r: seq<Section>)
    requires |captions| == |ss|
    ensures |r| == |ss|
  {
    seq(|ss|, k requires 0 <= k < |ss| => Captioned(cfg, ss[k], captions[k]))
  }

  predicate AllOfDimension(vectors: seq<Vector>, dim: nat) {
    forall k :: 0 <= k < |vectors| ==> |vectors[k]| == dim
  }

  function Parsed(r: Run, supply: Supply): Run {
    var text := Normaliser.Normalize(supply.text);
    r.(markdown := text, job := r.job.(language := Detected(text, supply.language)),
    pc := if Strip(text) == [] then FailLogging else Saving)
  }

  function SplitUp(cfg: Settings, r: Run): Run {
    var ps := cfg.split(r.markdown);
    var ss := SectionsOfPieces(ps, r.job, r.markdownUri);
    if ss == [] then r.(pc := FailLogging) else r.(pieces := ps, sections := ss, pc := Captioning)
  }

  function CaptionsPut(cfg: Settings, r: Run, captions: seq<string>): Run {
    if |captions| != |r.sections| then r.(pc := FailLogging)
    else r.(sections := CaptionedAll(cfg, r.sections, captions), pc := Embedding)
  }

  function VectorsPut(cfg: Settings, r: Run, vectors: seq<Vector>): Run {
    if |vectors| != |r.sections| || !AllOfDimension(vectors, cfg.embeddingDim) then r.(pc := FailLogging)
    else r.(sections := SectionEmbedders.EmbeddedUpTo(r.sections, vectors, |r.sections|, cfg.embedModel), pc := Looking)
  }

  /** A stage that returns; it may still find its result unusable. */
  function Stage(cfg: Settings, r: Run, supply: Supply): Run {
    match r.pc
    case Reading => r.(pc := Parsing)
    case Parsing => Parsed(r, supply)
    case Saving => r.(markdownUri := supply.uri, pc := Splitting)
    case Splitting => SplitUp(cfg, r)
    case Captioning => CaptionsPut(cfg, r, supply.captions)
    case Embedding => VectorsPut(cfg, r, supply.vectors)
    case _ => r
  }

  // ---- what indexing writes ----

  function FileName(cfg: Settings, job: Job): string {
    if job.fileName.Some? && job.fileName.value != "" then job.fileName.value else cfg.nameOf(job.fileUri)
  }

  function MarkdownUri(r: Run): Option<string> {
    if r.sections != [] then r.sections[0].markdownUri
    else if r.existing.Some? then r.existing.value.markdownUri
    else None
  }

  function Description(cfg: Settings, r: Run): DocumentRecord {
    DocumentRecord(
      r.job.docId, r.job.fileUri, Some(FileName(cfg, r.job)), r.job.documentType, r.job.language, Indexing,
      Some(|r.sections|), MarkdownUri(r), Some(r.job.fileUri), r.job.s3LastModified,
      if r.existing.Some? then r.existing.value.uploadedAt else r.startedAt,
      if r.existing.Some? then r.existing.value.processedAt else None,
      r.startedAt)
  }

  function Stamped(s: Section, fileName: string, sourceUri: string, markdownUri: Option<string>): Section {
    s.(metadata := s.metadata
                   ["file_name" := TextMeta(fileName)]
                   ["document_name" := TextMeta(fileName)]
                   ["source_s3_uri" := TextMeta(sourceUri)]
                   ["markdown_s3_uri" := UriMeta(OrUri(s.markdownUri, markdownUri))])
  }

  function StampedAll(cfg: Settings, r: Run): (ss: seq<Section>)
    ensures |ss| == |r.sections|
  {
    seq(|r.sections|, k requires 0 <= k < |r.sections| =>
      Stamped(r.sections[k], FileName(cfg, r.job), r.job.fileUri, MarkdownUri(r)))
  }

  /** What the vector store is given. */
  function Indexable(cfg: Settings, r: Run): (ss: seq<Section>)
    ensures |ss| == |r.sections|
  {
    EnrichedAll(StampedAll(cfg, r))
  }

  // ---- effects ----

  /** The first `k` parts of the effect of the run's next call. */
  function Effect(cfg: Settings, w: World, r: Run, now: int, k: nat): World {
    var x := r.job.docId;
    if k == 0 then w
    else
      match r.pc
      case Claiming => if Claimable(w.docs, x, cfg.staleSeconds, now) then w.(docs := Claim(w.docs, r.job, now)) else w
      case Deleting => w.(vectors := DeleteKeys(w.vectors, Take(KeysOf(w.vectors, w.vectors.order, x), k)))
      case Marking => w.(docs := WithStatus(w.docs, x, Indexing, now))
      case Describing => w.(docs := w.docs.Set(x, Description(cfg, r)))
      case Inserting => w.(vectors := UpsertAll(w.vectors, Take(Indexable(cfg, r), k)))
      case Confirming => w.(docs := WithStatus(w.docs, x, Indexed, now))
      case Stamping => w.(docs := Processed(w.docs, x, |r.sections|, now, now))
      case Logging => w.(jobs := w.jobs + [Entry(x, Indexed, |r.sections|, now)])
      case FailLogging => w.(jobs := w.jobs + [Entry(x, Failed, 0, now)])
      case FailMarking => w.(docs := WithStatus(w.docs, x, Failed, now))
      case _ => w
  }

  /** As many parts as any call has. */
  function Whole(w: World, r: Run): nat {
    |KeysOf(w.vectors, w.vectors.order, r.job.docId)| + |r.sections| + 1
  }

  function EntryFor(x: string): JobEntry -> bool { (e: JobEntry) => e.docId == x }

  function EntriesOf(jobs: seq<JobEntry>, x: string): seq<JobEntry> { Filter(jobs, EntryFor(x)) }

  /** History: what the run remembers of the call it just made. */
  function Noted(w: World, r: Run, now: int, k: nat): Run {
    match r.pc
    case Claiming => r.(before := EntriesOf(w.jobs, r.job.docId))
    case Logging => if k == 0 then r else r.(logged := r.logged + [Entry(r.job.docId, Indexed, |r.sections|, now)])
    case FailLogging => if k == 0 then r else r.(logged := r.logged + [Entry(r.job.docId, Failed, 0, now)])
    case _ => r
  }

  /** Where a run goes when its call returns. */
  function Return(cfg: Settings, w: World, r: Run, now: int, supply: Supply): Run {
    match r.pc
    case Claiming => if Claimable(w.docs, r.job.docId, cfg.staleSeconds, now) then r.(pc := Reading) else r.(pc := Over(Skipped))
    case Looking => r.(existing := w.docs.Get(r.job.docId), startedAt := now, pc := Deleting)
    case Deleting => r.(pc := Marking)
    case Marking => r.(pc := Describing)
    case Describing => r.(pc := Inserting)
    case Inserting => r.(pc := Confirming)
    case Confirming => r.(pc := Stamping)
    case Stamping => r.(pc := Logging)
    case Logging => r.(pc := Over(Succeeded))
    case FailLogging => r.(pc := FailMarking)
    case FailMarking => r.(pc := Over(Raised))
    case _ => Stage(cfg, r, supply)
  }

  datatype Both = Both(w: World, r: Run)

  predicate RunEnabled(r: Run, a: Action) {
    && !r.pc.Over?
    && (a.Cancel? ==> 1 <= Rank(r.pc) <= 6)
  }

  /** One step of a run. An exception leads to the handler of `execute`, and out of it if the handler itself
      is the one that raises; a cancellation is not an `Exception` and skips the handler. */
  function RunStep(cfg: Settings, w: World, r: Run, a: Action): Both
    requires RunEnabled(r, a)
  {
    match a
    case Go(now, supply) =>
      Both(Effect(cfg, w, r, now, Whole(w, r)), Return(cfg, w, Noted(w, r, now, 1), now, supply))
    case Raise(now, k) =>
      Both(Effect(cfg, w, r, now, k),
           Noted(w, r, now, k).(pc := if Rank(r.pc) < 15 then FailLogging else Over(HandlerRaised)))
    case Cancel => Both(w, r.(pc := Over(Cancelled)))
  }

  /** A run that finished indexing: kept as history, per document. */
  datatype Completed = Completed(job: Job, markdown: string, sections: seq<Section>)

  function Completion(cfg: Settings, r: Run): Completed {
    Completed(r.job, r.markdown, Indexable(cfg, r))
  }

  predicate MarksIndexed(r: Run, a: Action) {
    r.pc.Confirming? && (a.Go? || (a.Raise? && a.effects > 0))
  }

  function Finished(cfg: Settings, done: map<string, Completed>, r: Run, a: Action): map<string, Completed> {
    if MarksIndexed(r, a) then done[r.job.docId := Completion(cfg, r)] else done
  }
}
