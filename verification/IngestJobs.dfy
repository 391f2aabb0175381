/** `RunIngestJob.execute` and `DocumentIndexService.index_sections` as the code they are: calls on the stores,
    one after the other, each of which may raise before its effect, after it or in the middle of it. Both leave
    the stores exactly where the machine of `IngestRuns` leaves them when nothing runs in between. */
module IngestJobs {
  import opened Sequences
  import opened Texts
  import opened HeadingSplitter
  import opened Sections
  import opened VectorStores
  import opened SectionIndexes
  import opened MetadataStores
  import opened IngestRuns
  import opened SectionEmbedders
  import Normaliser

  /** Which calls raise and after how many parts of their effect, the stage at which the run is cancelled, if
      any, and what the clock says at each call. */
  datatype Plan = Plan(faults: map<Pc, nat>, cancelled: Option<Pc>, clock: Pc -> int) {
    predicate Fails(pc: Pc) { pc in faults }
    predicate FailsBefore(pc: Pc) { pc in faults && faults[pc] == 0 }
    predicate Cancels(pc: Pc) { cancelled == Some(pc) && 1 <= Rank(pc) <= 6 }

    /** Where the call at a stage leads, if it leads to `good` when it returns. */
    function Outcome(pc: Pc, good: Pc): Pc {
      if Cancels(pc) then Over(Cancelled) else if Fails(pc) then FailLogging else good
    }
  }

  function ActionOf(plan: Plan, supply: Supply, r: Run): Action {
    if plan.Cancels(r.pc) then Cancel
    else if plan.Fails(r.pc) then Raise(plan.clock(r.pc), plan.faults[r.pc])
    else Go(plan.clock(r.pc), supply)
  }

  lemma StepAdvances(cfg: Settings, w: World, r: Run, a: Action)
    requires RunEnabled(r, a)
    ensures Rank(RunStep(cfg, w, r, a).r.pc) > Rank(r.pc)
  {
    if a.Go? {
      if 1 <= Rank(r.pc) <= 6 {
        StageAdvances(cfg, r, a.supply);
      } else {
        ReturnAdvances(cfg, w, Noted(w, r, a.now, 1), a.now, a.supply);
      }
    }
  }

  lemma StageAdvances(cfg: Settings, r: Run, supply: Supply)
    requires 1 <= Rank(r.pc) <= 6
    ensures Rank(Stage(cfg, r, supply).pc) > Rank(r.pc)
  {
  }

  lemma ReturnAdvances(cfg: Settings, w: World, r: Run, now: int, supply: Supply)
    requires !r.pc.Over? && !(1 <= Rank(r.pc) <= 6)
    ensures Rank(Return(cfg, w, r, now, supply).pc) > Rank(r.pc)
  {
  }

  /** The machine, alone in the world, until it reaches `limit`. */
  function Drive(cfg: Settings, w: World, r: Run, plan: Plan, supply: Supply, limit: nat): Both
    requires limit <= 17
    decreases 17 - Rank(r.pc)
  {
    if Rank(r.pc) >= limit then Both(w, r)
    else
      StepAdvances(cfg, w, r, ActionOf(plan, supply, r));
      var next := RunStep(cfg, w, r, ActionOf(plan, supply, r));
      Drive(cfg, next.w, next.r, plan, supply, limit)
  }

  /** One call of the try block, raising or returning as planned. */
  ghost predicate StepsTo(cfg: Settings, plan: Plan, supply: Supply, a: Both, b: Both) {
    Rank(a.r.pc) < 15 && RunStep(cfg, a.w, a.r, ActionOf(plan, supply, a.r)) == b
  }

  ghost predicate Path(cfg: Settings, plan: Plan, supply: Supply, t: seq<Both>) {
    forall i :: 0 <= i < |t| - 1 ==> StepsTo(cfg, plan, supply, t[i], t[i + 1])
  }

  /** The calls made so far lead from the one state of the machine to the other. */
  ghost predicate Leads(cfg: Settings, plan: Plan, supply: Supply, from: Both, to: Both) {
    exists t: seq<Both> :: |t| > 0 && t[0] == from && t[|t| - 1] == to && Path(cfg, plan, supply, t)
  }

  lemma LeadsNowhere(cfg: Settings, plan: Plan, supply: Supply, from: Both)
    ensures Leads(cfg, plan, supply, from, from)
  {
    assert Path(cfg, plan, supply, [from]);
  }

  lemma LeadsOn(cfg: Settings, plan: Plan, supply: Supply, from: Both, to: Both, next: Both)
    requires Leads(cfg, plan, supply, from, to) && StepsTo(cfg, plan, supply, to, next)
    ensures Leads(cfg, plan, supply, from, next)
  {
    var t: seq<Both> :| |t| > 0 && t[0] == from && t[|t| - 1] == to && Path(cfg, plan, supply, t);
    var t' := t + [next];
    forall i | 0 <= i < |t'| - 1
      ensures StepsTo(cfg, plan, supply, t'[i], t'[i + 1])
    {
      if i < |t| - 1 { assert t'[i] == t[i] && t'[i + 1] == t[i + 1]; }
    }
    assert Path(cfg, plan, supply, t');
  }

  lemma {:induction false} PathDrives(cfg: Settings, plan: Plan, supply: Supply, t: seq<Both>)
    requires |t| > 0 && Path(cfg, plan, supply, t)
    ensures Drive(cfg, t[0].w, t[0].r, plan, supply, 15) == Drive(cfg, t[|t| - 1].w, t[|t| - 1].r, plan, supply, 15)
  {
    if |t| > 1 {
      assert StepsTo(cfg, plan, supply, t[0], t[1]);
      forall i | 0 <= i < |t[1..]| - 1
        ensures StepsTo(cfg, plan, supply, t[1..][i], t[1..][i + 1])
      {
        assert StepsTo(cfg, plan, supply, t[i + 1], t[i + 1 + 1]);
      }
      PathDrives(cfg, plan, supply, t[1..]);
    }
  }

  /** When the try block is left, the machine is where the calls made have led. */
  lemma LeadsToEnd(cfg: Settings, plan: Plan, supply: Supply, from: Both, to: Both)
    requires Leads(cfg, plan, supply, from, to) && Rank(to.r.pc) >= 15
    ensures Drive(cfg, from.w, from.r, plan, supply, 15) == to
  {
    var t: seq<Both> :| |t| > 0 && t[0] == from && t[|t| - 1] == to && Path(cfg, plan, supply, t);
    PathDrives(cfg, plan, supply, t);
  }

  lemma DriveStops(cfg: Settings, w: World, r: Run, plan: Plan, supply: Supply)
    requires r.pc.Over?
    ensures Drive(cfg, w, r, plan, supply, 17) == Both(w, r)
  {
  }

  /** Driving the machine to one point and then to a later one. */
  lemma {:induction false} DriveInParts(cfg: Settings, w: World, r: Run, plan: Plan, supply: Supply, first: nat, limit: nat)
    requires first <= limit <= 17
    ensures var part := Drive(cfg, w, r, plan, supply, first);
            Drive(cfg, w, r, plan, supply, limit) == Drive(cfg, part.w, part.r, plan, supply, limit)
    decreases 17 - Rank(r.pc)
  {
    if Rank(r.pc) < first {
      var a := ActionOf(plan, supply, r);
      StepAdvances(cfg, w, r, a);
      DriveInParts(cfg, RunStep(cfg, w, r, a).w, RunStep(cfg, w, r, a).r, plan, supply, first, limit);
    }
  }

  function AfterStage(cfg: Settings, plan: Plan, supply: Supply, r: Run): Run {
    if plan.Cancels(r.pc) then r.(pc := Over(Cancelled))
    else if plan.Fails(r.pc) then r.(pc := FailLogging)
    else Stage(cfg, r, supply)
  }

  /** A stage before indexing touches no store. */
  lemma StageCall(cfg: Settings, plan: Plan, supply: Supply, from: Both, w: World, r: Run)
    requires Leads(cfg, plan, supply, from, Both(w, r)) && 1 <= Rank(r.pc) <= 6
    ensures Leads(cfg, plan, supply, from, Both(w, AfterStage(cfg, plan, supply, r)))
  {
    StageStep(cfg, plan, supply, w, r);
    LeadsOn(cfg, plan, supply, from, Both(w, r), Both(w, AfterStage(cfg, plan, supply, r)));
  }

  lemma StageStep(cfg: Settings, plan: Plan, supply: Supply, w: World, r: Run)
    requires 1 <= Rank(r.pc) <= 6
    ensures RunStep(cfg, w, r, ActionOf(plan, supply, r)) == Both(w, AfterStage(cfg, plan, supply, r))
  {
  }

  lemma WholeKeys(w: World, r: Run)
    ensures Take(KeysOf(w.vectors, w.vectors.order, r.job.docId), Whole(w, r)) == KeysOf(w.vectors, w.vectors.order, r.job.docId)
  {
  }

  lemma CallLeads(cfg: Settings, plan: Plan, supply: Supply, from: Both, w: World, r: Run, w': World, next: Run)
    requires Leads(cfg, plan, supply, from, Both(w, r)) && Rank(r.pc) < 15
    requires RunStep(cfg, w, r, ActionOf(plan, supply, r)) == Both(w', next)
    ensures Leads(cfg, plan, supply, from, Both(w', next))
  {
    LeadsOn(cfg, plan, supply, from, Both(w, r), Both(w', next));
  }

  /** What is deleted and inserted when the call raises part-way. */
  function PartDeleted(plan: Plan, w: World, x: string): World {
    var keys := KeysOf(w.vectors, w.vectors.order, x);
    w.(vectors := DeleteKeys(w.vectors, if plan.Fails(Deleting) then Take(keys, plan.faults[Deleting]) else keys))
  }

  function PartInserted(plan: Plan, w: World, ss: seq<Section>): World {
    w.(vectors := UpsertAll(w.vectors, EnrichedAll(if plan.Fails(Inserting) then Take(ss, plan.faults[Inserting]) else ss)))
  }

  lemma DeleteCall(cfg: Settings, plan: Plan, supply: Supply, w: World, r: Run)
    requires r.pc.Deleting?
    ensures RunStep(cfg, w, r, ActionOf(plan, supply, r))
            == Both(PartDeleted(plan, w, r.job.docId), r.(pc := if plan.Fails(Deleting) then FailLogging else Marking))
  {
    WholeKeys(w, r);
    assert DeleteKeys(w.vectors, Take(KeysOf(w.vectors, w.vectors.order, r.job.docId), 0)) == w.vectors;
  }

  lemma TakeEnriched(ss: seq<Section>, k: nat)
    ensures EnrichedAll(Take(ss, k)) == Take(EnrichedAll(ss), k)
  {
  }

  lemma InsertCall(cfg: Settings, plan: Plan, supply: Supply, w: World, r: Run)
    requires r.pc.Inserting?
    ensures RunStep(cfg, w, r, ActionOf(plan, supply, r))
            == Both(PartInserted(plan, w, StampedAll(cfg, r)), r.(pc := if plan.Fails(Inserting) then FailLogging else Confirming))
  {
    if plan.Fails(Inserting) { TakeEnriched(StampedAll(cfg, r), plan.faults[Inserting]); }
    assert Take(Indexable(cfg, r), Whole(w, r)) == Indexable(cfg, r);
    assert UpsertAll(w.vectors, Take(Indexable(cfg, r), 0)) == w.vectors;
  }

  lemma Inserted(cfg: Settings, plan: Plan, supply: Supply, w: World, r: Run, ss: seq<Section>, w': World)
    requires r.pc.Inserting? && ss == StampedAll(cfg, r) && w' == PartInserted(plan, w, ss)
    ensures RunStep(cfg, w, r, ActionOf(plan, supply, r))
            == Both(w', r.(pc := if plan.Fails(Inserting) then FailLogging else Confirming))
  {
    InsertCall(cfg, plan, supply, w, r);
  }

  lemma DeleteLeads(cfg: Settings, plan: Plan, supply: Supply, from: Both, w: World, r: Run, w': World, next: Run)
    requires Leads(cfg, plan, supply, from, Both(w, r)) && r.pc.Deleting?
    requires w' == PartDeleted(plan, w, r.job.docId)
    requires next == r.(pc := if plan.Fails(Deleting) then FailLogging else Marking)
    ensures Leads(cfg, plan, supply, from, Both(w', next))
  {
    DeleteCall(cfg, plan, supply, w, r);
    CallLeads(cfg, plan, supply, from, w, r, w', next);
  }

  class DocumentIndexService {
    const cfg: Settings
    const index: VectorStoreSectionIndex
    const repository: InMemoryMetadataStore

    constructor (cfg: Settings, index: VectorStoreSectionIndex, repository: InMemoryMetadataStore)
      ensures this.cfg == cfg && this.index == index && this.repository == repository
    {
      this.cfg := cfg;
      this.index := index;
      this.repository := repository;
    }

    ghost function Stores(): World
      reads repository, index.store
    {
      World(repository.documents, index.store.sections, repository.jobs)
    }

    /** `get_document`. */
    method GetDocument(job: Job, plan: Plan, ghost supply: Supply, ghost from: Both, ghost r: Run)
      returns (raised: bool, existing: Option<DocumentRecord>, ghost next: Run)
      requires Leads(cfg, plan, supply, from, Both(Stores(), r))
      requires r.pc.Looking? && r.job == job
      ensures Leads(cfg, plan, supply, from, Both(Stores(), next)) && (raised ==> next.pc.FailLogging?)
      ensures !raised ==> existing == next.existing && next == r.(existing := existing, startedAt := plan.clock(Looking), pc := Deleting)
    {
      raised := plan.Fails(Looking);
      existing := repository.GetDocument(job.docId);
      ghost var before := Both(Stores(), r);
      next := RunStep(cfg, Stores(), r, ActionOf(plan, supply, r)).r;
      LeadsOn(cfg, plan, supply, from, before, Both(Stores(), next));
    }

    method DeleteDocument(job: Job, plan: Plan, ghost supply: Supply, ghost from: Both, ghost r: Run)
      returns (raised: bool, ghost next: Run)
      requires Leads(cfg, plan, supply, from, Both(Stores(), r))
      requires r.pc.Deleting? && r.job == job && index.store.sections.Valid()
      modifies index.store
      ensures Leads(cfg, plan, supply, from, Both(Stores(), next)) && (raised ==> next.pc.FailLogging?)
      ensures !raised ==> next == r.(pc := Marking)
    {
      raised := plan.Fails(Deleting);
      ghost var before := Stores();
      next := r.(pc := if raised then FailLogging else Marking);
      if raised {
        index.DeleteInterrupted(job.docId, plan.faults[Deleting]);
      } else {
        index.DeleteDocument(job.docId);
      }
      DeleteLeads(cfg, plan, supply, from, before, r, Stores(), next);
    }

    /** The two calls of `update_status` in `index_sections`. */
    method UpdateStatus(job: Job, status: Status, plan: Plan, ghost supply: Supply, ghost from: Both, ghost r: Run)
      returns (raised: bool, ghost next: Run)
      requires Leads(cfg, plan, supply, from, Both(Stores(), r))
      requires r.job == job && ((r.pc.Marking? && status == Indexing) || (r.pc.Confirming? && status == Indexed))
      modifies repository
      ensures Leads(cfg, plan, supply, from, Both(Stores(), next)) && (raised ==> next.pc.FailLogging?)
      ensures !raised ==> next == r.(pc := if status == Indexing then Describing else Stamping)
    {
      var pc := if status == Indexing then Marking else Confirming;
      raised := plan.Fails(pc);
      ghost var before := Both(Stores(), r);
      next := RunStep(cfg, Stores(), r, ActionOf(plan, supply, r)).r;
      if !plan.FailsBefore(pc) {
        repository.UpdateStatus(job.docId, status, plan.clock(pc));
      }
      LeadsOn(cfg, plan, supply, from, before, Both(Stores(), next));
    }

    method UpsertRecord(doc: DocumentRecord, plan: Plan, ghost supply: Supply, ghost from: Both, ghost r: Run)
      returns (raised: bool, ghost next: Run)
      requires Leads(cfg, plan, supply, from, Both(Stores(), r))
      requires r.pc.Describing? && doc == Description(cfg, r)
      modifies repository
      ensures Leads(cfg, plan, supply, from, Both(Stores(), next)) && (raised ==> next.pc.FailLogging?)
      ensures !raised ==> next == r.(pc := Inserting)
    {
      raised := plan.Fails(Describing);
      ghost var before := Both(Stores(), r);
      next := RunStep(cfg, Stores(), r, ActionOf(plan, supply, r)).r;
      if !plan.FailsBefore(Describing) {
        repository.Upsert(doc);
      }
      LeadsOn(cfg, plan, supply, from, before, Both(Stores(), next));
    }

    /** The loop that adds the file's names and places to every section's metadata. */
    method StampSections(sections: array<Section>, job: Job, fileName: string, markdownUri: Option<string>, ghost r: Run)
      requires sections[..] == r.sections && r.job == job
      requires fileName == FileName(cfg, job) && markdownUri == MarkdownUri(r)
      modifies sections
      ensures sections[..] == StampedAll(cfg, r)
    {
      ghost var was := sections[..];
      for k := 0 to sections.Length
        invariant forall j :: 0 <= j < k ==> sections[j] == Stamped(was[j], fileName, job.fileUri, markdownUri)
        invariant forall j :: k <= j < sections.Length ==> sections[j] == was[j]
      {
        var section := sections[k];
        sections[k] := section.(
          metadata := section.metadata
                      ["file_name" := TextMeta(fileName)]
                      ["document_name" := TextMeta(fileName)]
                      ["source_s3_uri" := TextMeta(job.fileUri)]
                      ["markdown_s3_uri" := UriMeta(OrUri(section.markdownUri, markdownUri))]);
      }
    }

    method UpsertSections(ss: seq<Section>, plan: Plan, ghost supply: Supply, ghost from: Both, ghost r: Run)
      returns (raised: bool, ghost next: Run)
      requires Leads(cfg, plan, supply, from, Both(Stores(), r))
      requires r.pc.Inserting? && ss == StampedAll(cfg, r)
      modifies index.store
      ensures Leads(cfg, plan, supply, from, Both(Stores(), next)) && (raised ==> next.pc.FailLogging?)
      ensures !raised ==> next == r.(pc := Confirming)
    {
      raised := plan.Fails(Inserting);
      ghost var before := Stores();
      next := r.(pc := if raised then FailLogging else Confirming);
      InsertSections(ss, plan, supply, r);
      CallLeads(cfg, plan, supply, from, before, r, Stores(), next);
    }

    method InsertSections(ss: seq<Section>, plan: Plan, ghost supply: Supply, ghost r: Run)
      requires r.pc.Inserting? && ss == StampedAll(cfg, r)
      modifies index.store
      ensures RunStep(cfg, old(Stores()), r, ActionOf(plan, supply, r))
              == Both(Stores(), r.(pc := if plan.Fails(Inserting) then FailLogging else Confirming))
    {
      ghost var before := Stores();
      index.UpsertSections(if plan.Fails(Inserting) then Take(ss, plan.faults[Inserting]) else ss);
      assert Stores() == PartInserted(plan, before, ss);
      Inserted(cfg, plan, supply, before, r, ss, Stores());
    }

    method UpdateProcessed(job: Job, count: nat, plan: Plan, ghost supply: Supply, ghost from: Both, ghost r: Run)
      returns (raised: bool, ghost next: Run)
      requires Leads(cfg, plan, supply, from, Both(Stores(), r))
      requires r.pc.Stamping? && r.job == job && count == |r.sections|
      modifies repository
      ensures Leads(cfg, plan, supply, from, Both(Stores(), next)) && (raised ==> next.pc.FailLogging?)
      ensures !raised ==> next == r.(pc := Logging)
    {
      raised := plan.Fails(Stamping);
      ghost var before := Both(Stores(), r);
      next := RunStep(cfg, Stores(), r, ActionOf(plan, supply, r)).r;
      if !plan.FailsBefore(Stamping) {
        repository.UpdateProcessed(job.docId, count, plan.clock(Stamping), plan.clock(Stamping));
      }
      LeadsOn(cfg, plan, supply, from, before, Both(Stores(), next));
    }

    method RecordIndexed(job: Job, count: nat, plan: Plan, ghost supply: Supply, ghost from: Both, ghost r: Run)
      returns (raised: bool, ghost next: Run)
      requires Leads(cfg, plan, supply, from, Both(Stores(), r))
      requires r.pc.Logging? && r.job == job && count == |r.sections|
      modifies repository
      ensures Leads(cfg, plan, supply, from, Both(Stores(), next)) && (raised ==> next.pc.FailLogging?)
      ensures !raised ==> next.pc == Over(Succeeded)
    {
      raised := plan.Fails(Logging);
      ghost var before := Both(Stores(), r);
      next := RunStep(cfg, Stores(), r, ActionOf(plan, supply, r)).r;
      if !plan.FailsBefore(Logging) {
        repository.RecordJob(job.docId, Indexed, count, plan.clock(Logging));
      }
      LeadsOn(cfg, plan, supply, from, before, Both(Stores(), next));
    }

    /** `index_sections` up to the upsert of the record. */
    method DescribeDocument(sections: array<Section>, job: Job, plan: Plan, ghost supply: Supply, ghost from: Both, ghost start: Run)
      returns (raised: bool, fileName: string, markdownUri: Option<string>, ghost end: Run)
      requires Leads(cfg, plan, supply, from, Both(Stores(), start))
      requires start.pc.Looking? && start.job == job && start.sections == sections[..]
      requires index.store.sections.Valid()
      modifies repository, index.store
      ensures Leads(cfg, plan, supply, from, Both(Stores(), end))
      ensures if raised then end.pc.FailLogging? else end.pc.Inserting?
      ensures !raised ==> end.job == job && end.sections == sections[..]
      ensures !raised ==> fileName == FileName(cfg, job) && markdownUri == MarkdownUri(end)
    {
      fileName := if job.fileName.Some? && job.fileName.value != "" then job.fileName.value else cfg.nameOf(job.fileUri);
      markdownUri := None;
      var existing;
      raised, existing, end := GetDocument(job, plan, supply, from, start);
      if raised { return; }
      markdownUri :=
        if sections.Length != 0 then sections[0].markdownUri
        else if existing.Some? then existing.value.markdownUri
        else None;
      var now := plan.clock(Looking);
      raised, end := DeleteDocument(job, plan, supply, from, end);
      if raised { return; }
      raised, end := UpdateStatus(job, Indexing, plan, supply, from, end);
      if raised { return; }
      var doc := DocumentRecord(
        job.docId, job.fileUri, Some(fileName), job.documentType, job.language, Indexing,
        Some(sections.Length), markdownUri, Some(job.fileUri), job.s3LastModified,
        if existing.Some? then existing.value.uploadedAt else now,
        if existing.Some? then existing.value.processedAt else None,
        now);
      raised, end := UpsertRecord(doc, plan, supply, from, end);
    }

    /** `index_sections` from there on. */
    method PublishSections(sections: array<Section>, job: Job, fileName: string, markdownUri: Option<string>, plan: Plan,
                           ghost supply: Supply, ghost from: Both, ghost start: Run)
      returns (raised: bool, ghost end: Run)
      requires Leads(cfg, plan, supply, from, Both(Stores(), start))
      requires start.pc.Inserting? && start.job == job && start.sections == sections[..]
      requires fileName == FileName(cfg, job) && markdownUri == MarkdownUri(start)
      modifies repository, index.store, sections
      ensures Leads(cfg, plan, supply, from, Both(Stores(), end))
      ensures end.pc == if raised then FailLogging else Over(Succeeded)
      ensures sections[..] == StampedAll(cfg, start)
    {
      StampSections(sections, job, fileName, markdownUri, start);
      raised, end := UpsertSections(sections[..], plan, supply, from, start);
      if raised { return; }
      raised, end := UpdateStatus(job, Indexed, plan, supply, from, end);
      if raised { return; }
      raised, end := UpdateProcessed(job, sections.Length, plan, supply, from, end);
      if raised { return; }
      raised, end := RecordIndexed(job, sections.Length, plan, supply, from, end);
    }

    /** `index_sections`: the order of the writes, and where an exception leaves them. */
    method IndexSections(sections: array<Section>, job: Job, plan: Plan, ghost supply: Supply, ghost from: Both, ghost start: Run)
      returns (raised: bool, ghost end: Run)
      requires Leads(cfg, plan, supply, from, Both(Stores(), start))
      requires start.pc.Looking? && start.job == job && start.sections == sections[..]
      requires index.store.sections.Valid()
      modifies repository, index.store, sections
      ensures Leads(cfg, plan, supply, from, Both(Stores(), end))
      ensures end.pc == if raised then FailLogging else Over(Succeeded)
    {
      var fileName, markdownUri;
      ghost var described;
      raised, fileName, markdownUri, described := DescribeDocument(sections, job, plan, supply, from, start);
      end := described;
      if !raised {
        raised, end := PublishSections(sections, job, fileName, markdownUri, plan, supply, from, described);
      }
    }
  }

  class RunIngestJob {
    const service: DocumentIndexService

    constructor (service: DocumentIndexService)
      ensures this.service == service
    {
      this.service := service;
    }

    method TryClaimIngest(job: Job, plan: Plan, ghost supply: Supply, ghost from: Both)
      returns (raised: bool, claimed: bool, ghost next: Run)
      requires Leads(service.cfg, plan, supply, from, Both(service.Stores(), NewRun(job)))
      modifies service.repository
      ensures Leads(service.cfg, plan, supply, from, Both(service.Stores(), next))
      ensures next == NewRun(job).(before := next.before, pc := if raised then FailLogging else if claimed then Reading else Over(Skipped))
    {
      raised, claimed := plan.Fails(Claiming), false;
      ghost var before := Both(service.Stores(), NewRun(job));
      next := RunStep(service.cfg, before.w, before.r, ActionOf(plan, supply, before.r)).r;
      if !plan.FailsBefore(Claiming) {
        claimed := service.repository.TryClaimIngest(job, service.cfg.staleSeconds, plan.clock(Claiming));
      }
      LeadsOn(service.cfg, plan, supply, from, before, Both(service.Stores(), next));
    }

    /** Reading and parsing; `pc` is where the run goes from there. */
    method ParseFile(job: Job, plan: Plan, supply: Supply, ghost from: Both, ghost start: Run)
      returns (pc: Pc, job': Job, markdown: string, ghost end: Run)
      requires Leads(service.cfg, plan, supply, from, Both(service.Stores(), start))
      requires start.pc.Reading? && start.job == job
      ensures Leads(service.cfg, plan, supply, from, Both(service.Stores(), end)) && end.pc == pc
      ensures pc.Saving? || pc.FailLogging? || pc == Over(Cancelled)
      ensures pc.Saving? ==> end.job == job' && end.markdown == markdown
      ensures pc.Saving? ==> markdown == Normaliser.Normalize(supply.text) && Strip(markdown) != []
      ensures pc.Saving? ==> job' == job.(language := Detected(markdown, supply.language))
    {
      ghost var cfg, w := service.cfg, service.Stores();
      job', markdown := job, [];
      StageCall(cfg, plan, supply, from, w, start);
      end := AfterStage(cfg, plan, supply, start);
      pc := plan.Outcome(Reading, Parsing);
      if !pc.Parsing? { return; }

      StageCall(cfg, plan, supply, from, w, end);
      end := AfterStage(cfg, plan, supply, end);
      pc := plan.Outcome(Parsing, Saving);
      if !pc.Saving? { return; }
      markdown := Normaliser.Normalize(supply.text);
      job' := job.(language := if |markdown| < 50 then "vi" else supply.language);
      if Strip(markdown) == [] { pc := FailLogging; }
    }

    /** Saving and splitting. */
    method SplitFile(job: Job, markdown: string, plan: Plan, supply: Supply, ghost from: Both, ghost start: Run)
      returns (pc: Pc, ss: seq<Section>, ghost end: Run)
      requires Leads(service.cfg, plan, supply, from, Both(service.Stores(), start))
      requires SplitsByHeading(service.cfg)
      requires start.pc.Saving? && start.job == job && start.markdown == markdown
      ensures Leads(service.cfg, plan, supply, from, Both(service.Stores(), end)) && end.pc == pc
      ensures pc.Captioning? || pc.FailLogging? || pc == Over(Cancelled)
      ensures pc.Captioning? ==> end.job == job && end.sections == ss != []
      ensures pc.Captioning? ==> ss == SectionsOfPieces(Split(markdown), job, supply.uri)
    {
      ghost var cfg, w := service.cfg, service.Stores();
      ss := [];
      StageCall(cfg, plan, supply, from, w, start);
      end := AfterStage(cfg, plan, supply, start);
      pc := plan.Outcome(Saving, Splitting);
      if !pc.Splitting? { return; }

      StageCall(cfg, plan, supply, from, w, end);
      end := AfterStage(cfg, plan, supply, end);
      pc := plan.Outcome(Splitting, Captioning);
      if !pc.Captioning? { return; }
      ss := SplitDocument(markdown, job, supply.uri);
      if ss == [] { pc := FailLogging; }
    }

    method CaptionSections(ss: seq<Section>, plan: Plan, supply: Supply, ghost from: Both, ghost start: Run)
      returns (pc: Pc, captioned: seq<Section>, ghost end: Run)
      requires Leads(service.cfg, plan, supply, from, Both(service.Stores(), start))
      requires start.pc.Captioning? && start.sections == ss
      ensures Leads(service.cfg, plan, supply, from, Both(service.Stores(), end)) && end.pc == pc
      ensures pc.Embedding? || pc.FailLogging? || pc == Over(Cancelled)
      ensures pc.Embedding? ==> |captioned| == |ss| && end == start.(pc := Embedding, sections := captioned)
    {
      StageCall(service.cfg, plan, supply, from, service.Stores(), start);
      end := AfterStage(service.cfg, plan, supply, start);
      captioned := [];
      pc := plan.Outcome(Captioning, if |supply.captions| == |ss| then Embedding else FailLogging);
      if pc.Embedding? {
        captioned := CaptionedAll(service.cfg, ss, supply.captions);
      }
    }

    lemma EmbedIsStage(cfg: Settings, r: Run, supply: Supply, error: Option<EmbedError>, now: seq<Section>)
      requires r.pc.Embedding? && r.sections != []
      requires EmbedOutcome(r.sections, supply.vectors, cfg.embeddingDim, cfg.embedModel, error, now)
      ensures Stage(cfg, r, supply) == if error.Some? then r.(pc := FailLogging) else r.(pc := Looking, sections := now)
    {
      SuccessIff(r.sections, supply.vectors, cfg.embeddingDim, cfg.embedModel, error, now);
      if error.None? {
        assert now == EmbeddedUpTo(r.sections, supply.vectors, |r.sections|, cfg.embedModel);
      }
    }

    method EmbedCaptions(sections: array<Section>, plan: Plan, supply: Supply, ghost from: Both, ghost start: Run)
      returns (pc: Pc, ghost end: Run)
      requires Leads(service.cfg, plan, supply, from, Both(service.Stores(), start))
      requires start.pc.Embedding? && start.sections == sections[..] && sections.Length != 0
      modifies sections
      ensures Leads(service.cfg, plan, supply, from, Both(service.Stores(), end)) && end.pc == pc
      ensures pc.Looking? || pc.FailLogging? || pc == Over(Cancelled)
      ensures pc.Looking? ==> end == start.(pc := Looking, sections := sections[..])
    {
      StageCall(service.cfg, plan, supply, from, service.Stores(), start);
      end := AfterStage(service.cfg, plan, supply, start);
      pc := plan.Outcome(Embedding, Looking);
      if !pc.Looking? { return; }
      var error := EmbedSections(sections, supply.vectors, service.cfg.embeddingDim, service.cfg.embedModel);
      EmbedIsStage(service.cfg, start, supply, error, sections[..]);
      if error.Some? { pc := FailLogging; }
    }

    /** The body of the try block; `pc` says whether it returned, was cancelled or raised. */
    method Attempt(job: Job, plan: Plan, supply: Supply) returns (pc: Pc, ghost end: Run)
      requires SplitsByHeading(service.cfg)
      requires service.index.store.sections.Valid()
      modifies service.repository, service.index.store
      ensures Drive(service.cfg, old(service.Stores()), NewRun(job), plan, supply, 15) == Both(service.Stores(), end)
      ensures end.pc == pc && (pc.FailLogging? || pc.Over?)
    {
      ghost var from := Both(service.Stores(), NewRun(job));
      LeadsNowhere(service.cfg, plan, supply, from);
      pc, end := Work(job, plan, supply, from);
      LeadsToEnd(service.cfg, plan, supply, from, Both(service.Stores(), end));
    }

    method Work(job: Job, plan: Plan, supply: Supply, ghost from: Both) returns (pc: Pc, ghost end: Run)
      requires SplitsByHeading(service.cfg)
      requires service.index.store.sections.Valid()
      requires Leads(service.cfg, plan, supply, from, Both(service.Stores(), NewRun(job)))
      modifies service.repository, service.index.store
      ensures Leads(service.cfg, plan, supply, from, Both(service.Stores(), end))
      ensures end.pc == pc && (pc.FailLogging? || pc.Over?)
    {
      var raised, claimed, job', ss;
      raised, claimed, end := TryClaimIngest(job, plan, supply, from);
      pc := if raised then FailLogging else if claimed then Reading else Over(Skipped);
      if !pc.Reading? { return; }
      pc, job', ss, end := MakeSections(job, plan, supply, from, end);
      if !pc.Captioning? { return; }
      pc, end := PutSections(job', ss, plan, supply, from, end);
    }

    /** The stages up to splitting. */
    method MakeSections(job: Job, plan: Plan, supply: Supply, ghost from: Both, ghost start: Run)
      returns (pc: Pc, job': Job, ss: seq<Section>, ghost end: Run)
      requires SplitsByHeading(service.cfg)
      requires Leads(service.cfg, plan, supply, from, Both(service.Stores(), start))
      requires start.pc.Reading? && start.job == job
      ensures Leads(service.cfg, plan, supply, from, Both(service.Stores(), end)) && end.pc == pc
      ensures pc.Captioning? || pc.FailLogging? || pc.Over?
      ensures pc.Captioning? ==> end.job == job' && end.sections == ss != []
    {
      var markdown;
      ss := [];
      pc, job', markdown, end := ParseFile(job, plan, supply, from, start);
      if !pc.Saving? { return; }
      pc, ss, end := SplitFile(job', markdown, plan, supply, from, end);
    }

    /** Captioning, embedding and indexing. */
    method PutSections(job: Job, ss: seq<Section>, plan: Plan, supply: Supply, ghost from: Both, ghost start: Run)
      returns (pc: Pc, ghost end: Run)
      requires service.index.store.sections.Valid()
      requires Leads(service.cfg, plan, supply, from, Both(service.Stores(), start))
      requires start.pc.Captioning? && start.job == job && start.sections == ss != []
      modifies service.repository, service.index.store
      ensures Leads(service.cfg, plan, supply, from, Both(service.Stores(), end))
      ensures end.pc == pc && (pc.FailLogging? || pc.Over?)
    {
      var captioned, raised;
      pc, captioned, end := CaptionSections(ss, plan, supply, from, start);
      if !pc.Embedding? { return; }
      var sections := new Section[|captioned|](i requires 0 <= i < |captioned| => captioned[i]);
      assert sections[..] == captioned;
      pc, end := EmbedCaptions(sections, plan, supply, from, end);
      if !pc.Looking? { return; }
      raised, end := service.IndexSections(sections, job, plan, supply, from, end);
      pc := if raised then FailLogging else Over(Succeeded);
    }

    /** `execute`: a run alone leaves the stores where the machine leaves them, however its calls fail and
        wherever it is cancelled before indexing; a cancellation passes the handler by. */
    method Execute(job: Job, plan: Plan, supply: Supply) returns (result: Result)
      requires SplitsByHeading(service.cfg)
      requires service.index.store.sections.Valid()
      modifies service.repository, service.index.store
      ensures var both := Drive(service.cfg, old(service.Stores()), NewRun(job), plan, supply, 17);
              both.w == service.Stores() && both.r.pc == Over(result)
    {
      ghost var was := service.Stores();
      var pc;
      ghost var end;
      pc, end := Attempt(job, plan, supply);
      DriveInParts(service.cfg, was, NewRun(job), plan, supply, 15, 17);
      if pc.FailLogging? {
        DriveKeepsDocument(service.cfg, was, NewRun(job), plan, supply, 15);
        result := Handle(job, plan, supply, end);
      } else {
        result := pc.result;
        DriveStops(service.cfg, service.Stores(), end, plan, supply);
      }
    }

    /** The except block: the log entry first, then the status. */
    method Handle(job: Job, plan: Plan, ghost supply: Supply, ghost r: Run) returns (result: Result)
      requires r.pc.FailLogging? && r.job.docId == job.docId
      modifies service.repository
      ensures var both := Drive(service.cfg, old(service.Stores()), r, plan, supply, 17);
              both.w == service.Stores() && both.r.pc == Over(result)
    {
      ghost var w0 := service.Stores();
      HandlerLogs(service.cfg, w0, r, plan, supply);
      if !plan.FailsBefore(FailLogging) {
        service.repository.RecordJob(job.docId, Failed, 0, plan.clock(FailLogging));
      }
      if plan.Fails(FailLogging) { return HandlerRaised; }
      ghost var now := plan.clock(FailLogging);
      ghost var w1, r1 := service.Stores(), Return(service.cfg, w0, Noted(w0, r, now, 1), now, supply);
      HandlerMarks(service.cfg, w1, r1, plan, supply);
      if !plan.FailsBefore(FailMarking) {
        service.repository.UpdateStatus(job.docId, Failed, plan.clock(FailMarking));
      }
      result := if plan.Fails(FailMarking) then HandlerRaised else Raised;
    }
  }

  lemma HandlerLogs(cfg: Settings, w: World, r: Run, plan: Plan, supply: Supply)
    requires r.pc.FailLogging?
    ensures var now := plan.clock(FailLogging);
            var w' := if plan.FailsBefore(FailLogging) then w else w.(jobs := w.jobs + [Entry(r.job.docId, Failed, 0, now)]);
            if plan.Fails(FailLogging) then
              Drive(cfg, w, r, plan, supply, 17).w == w' && Drive(cfg, w, r, plan, supply, 17).r.pc == Over(HandlerRaised)
            else
              var r' := Return(cfg, w, Noted(w, r, now, 1), now, supply);
              r'.pc.FailMarking? && r'.job == r.job && Drive(cfg, w, r, plan, supply, 17) == Drive(cfg, w', r', plan, supply, 17)
  {
  }

  lemma HandlerMarks(cfg: Settings, w: World, r: Run, plan: Plan, supply: Supply)
    requires r.pc.FailMarking?
    ensures var docs' := WithStatus(w.docs, r.job.docId, Failed, plan.clock(FailMarking));
            var w' := if plan.FailsBefore(FailMarking) then w else w.(docs := docs');
            && Drive(cfg, w, r, plan, supply, 17).w == w'
            && Drive(cfg, w, r, plan, supply, 17).r.pc == Over(if plan.Fails(FailMarking) then HandlerRaised else Raised)
  {
    var b := MarkStep(cfg, w, r, plan, supply);
    DriveStops(cfg, b.w, b.r, plan, supply);
  }

  lemma MarkStep(cfg: Settings, w: World, r: Run, plan: Plan, supply: Supply) returns (b: Both)
    requires r.pc.FailMarking?
    ensures b == RunStep(cfg, w, r, ActionOf(plan, supply, r))
    ensures b.r.pc == Over(if plan.Fails(FailMarking) then HandlerRaised else Raised)
    ensures b.w == if plan.FailsBefore(FailMarking) then w
                   else w.(docs := WithStatus(w.docs, r.job.docId, Failed, plan.clock(FailMarking)))
  {
    b := RunStep(cfg, w, r, ActionOf(plan, supply, r));
  }

  lemma StepKeepsDocument(cfg: Settings, w: World, r: Run, a: Action)
    requires RunEnabled(r, a)
    ensures RunStep(cfg, w, r, a).r.job.docId == r.job.docId
  {
    if a.Go? && 1 <= Rank(r.pc) <= 6 {
      StageKeepsDocument(cfg, r, a.supply);
    }
  }

  lemma StageKeepsDocument(cfg: Settings, r: Run, supply: Supply)
    ensures Stage(cfg, r, supply).job.docId == r.job.docId
  {
  }

  lemma {:induction false} DriveKeepsDocument(cfg: Settings, w: World, r: Run, plan: Plan, supply: Supply, limit: nat)
    requires limit <= 17
    ensures Drive(cfg, w, r, plan, supply, limit).r.job.docId == r.job.docId
    decreases 17 - Rank(r.pc)
  {
    if Rank(r.pc) < limit {
      var a := ActionOf(plan, supply, r);
      StepAdvances(cfg, w, r, a);
      StepKeepsDocument(cfg, w, r, a);
      DriveKeepsDocument(cfg, RunStep(cfg, w, r, a).w, RunStep(cfg, w, r, a).r, plan, supply, limit);
    }
  }
}
