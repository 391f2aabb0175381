/** The dispatcher and the runs of its tasks over the two stores: any number of documents, interleaved at
    store calls, with a failure possible at every one. */
module IngestSystems {
  import opened Sequences
  import opened OrderedDicts
  import opened Texts
  import opened HeadingSplitter
  import opened SplitterTheorems
  import opened Sections
  import opened VectorStores
  import opened MetadataStores
  import opened IngestRuns
  import opened IngestInvariants
  import D = Dispatchers
  import Normaliser

  /** `runs[i]` is what task `i` of the dispatcher executes; `done` is history. */
  datatype System = System(d: D.State, w: World, runs: seq<Run>, done: map<string, Completed>)

  datatype Config = Config(limits: D.Limits, settings: Settings)

  function Boot(cfg: Config): System {
    System(D.Init(cfg.limits), World(Empty(), Empty(), []), [], map[])
  }

  /** A task ends when its `execute` has returned or raised. */
  datatype Event = Dispatch(e: D.Event) | Advance(i: nat, a: Action)

  predicate Enabled(s: System, e: Event) {
    match e
    case Dispatch(e) => D.Enabled(s.d, e) && (e.EvFinish? ==> e.i < |s.runs| && s.runs[e.i].pc.Over?)
    case Advance(i, a) => D.TaskAt(s.d, i, D.Executing) && i < |s.runs| && RunEnabled(s.runs[i], a)
  }

  function Step(cfg: Config, s: System, e: Event): System
    requires Enabled(s, e)
  {
    match e
    case Dispatch(e) =>
      s.(d := D.Step(cfg.limits, s.d, e),
      runs := if e.EvSpawn? then s.runs + [NewRun(s.d.held.value)] else s.runs)
    case Advance(i, a) =>
      var both := RunStep(cfg.settings, s.w, s.runs[i], a);
      s.(w := both.w, runs := s.runs[i := both.r], done := Finished(cfg.settings, s.done, s.runs[i], a))
  }

  function Exec(cfg: Config, s: System, es: seq<Event>): Option<System>
    decreases |es|
  {
    if es == [] then Some(s)
    else if Enabled(s, es[0]) then Exec(cfg, Step(cfg, s, es[0]), es[1..])
    else None
  }

  ghost predicate Reached(cfg: Config, es: seq<Event>, s: System) {
    Exec(cfg, Boot(cfg), es) == Some(s)
  }

  // ---- the invariant ----

  ghost predicate AllConsistent(cfg: Settings, w: World, done: map<string, Completed>)
    requires w.vectors.Valid()
  {
    forall x :: Consistent(cfg, ViewOf(w, x), done, x)
  }

  /** A task that has not entered the semaphore has not begun its run. */
  ghost predicate TaskOk(cfg: Config, s: System, i: nat)
    requires s.w.vectors.Valid() && i < |s.d.tasks| == |s.runs|
  {
    var t, r := s.d.tasks[i], s.runs[i];
    && r.job.docId == t.job.docId
    && (t.stage.Spawned? || t.stage.AtSemaphore? ==> r == NewRun(t.job))
    && (t.stage.Executing? ==> RunOk(cfg.settings, ViewOf(s.w, r.job.docId), s.done, r))
  }

  ghost predicate Inv(cfg: Config, s: System) {
    && D.Inv(cfg.limits, s.d)
    && WorldOk(s.w)
    && AllConsistent(cfg.settings, s.w, s.done)
    && |s.runs| == |s.d.tasks|
    && forall i :: 0 <= i < |s.runs| ==> TaskOk(cfg, s, i)
  }

  lemma NewRunOk(cfg: Settings, v: View, done: map<string, Completed>, job: Job)
    ensures RunOk(cfg, v, done, NewRun(job))
  {
  }

  lemma RunOkFrame(cfg: Settings, v: View, done: map<string, Completed>, done': map<string, Completed>, r: Run)
    requires RunOk(cfg, v, done, r)
    requires r.job.docId in done ==> r.job.docId in done' && done'[r.job.docId] == done[r.job.docId]
    ensures RunOk(cfg, v, done', r)
  {
  }

  lemma FinishedFrame(cfg: Settings, done: map<string, Completed>, r: Run, a: Action, y: string)
    requires y != r.job.docId
    ensures var done' := Finished(cfg, done, r, a); (y in done' <==> y in done) && (y in done ==> done'[y] == done[y])
  {
  }

  lemma DispatchKeepsTask(cfg: Config, s: System, e: D.Event, i: nat)
    requires Enabled(s, Dispatch(e)) && s.w.vectors.Valid() && |s.d.tasks| == |s.runs|
    requires i < |s.runs| && TaskOk(cfg, s, i)
    ensures i < |Step(cfg, s, Dispatch(e)).d.tasks| == |Step(cfg, s, Dispatch(e)).runs|
    ensures TaskOk(cfg, Step(cfg, s, Dispatch(e)), i)
  {
    NewRunOk(cfg.settings, ViewOf(s.w, s.runs[i].job.docId), s.done, s.d.tasks[i].job);
    if e.EvEnqueue? { EnqueueKeepsTasks(cfg.limits, s.d, e.jobs); }
  }

  lemma {:induction false} EnqueueKeepsTasks(lim: D.Limits, d: D.State, jobs: seq<Job>)
    ensures D.EnqueueAll(lim, d, jobs).tasks == d.tasks && D.EnqueueAll(lim, d, jobs).held == d.held
  {
    if jobs != [] { EnqueueKeepsTasks(lim, d, jobs[..|jobs| - 1]); }
  }

  lemma DispatchKeeps(cfg: Config, s: System, e: D.Event)
    requires Inv(cfg, s) && Enabled(s, Dispatch(e))
    ensures Inv(cfg, Step(cfg, s, Dispatch(e)))
  {
    D.InvKept(cfg.limits, s.d, e);
    if e.EvEnqueue? { EnqueueKeepsTasks(cfg.limits, s.d, e.jobs); }
    var s' := Step(cfg, s, Dispatch(e));
    forall i | 0 <= i < |s'.runs|
      ensures TaskOk(cfg, s', i)
    {
      if i < |s.runs| { DispatchKeepsTask(cfg, s, e, i); }
    }
  }

  lemma AdvanceKeepsOther(cfg: Config, s: System, i: nat, a: Action, j: nat)
    requires Inv(cfg, s) && Enabled(s, Advance(i, a)) && j < |s.runs| && j != i
    requires Step(cfg, s, Advance(i, a)).w.vectors.Valid()
    requires forall y :: y != s.runs[i].job.docId ==> ViewOf(Step(cfg, s, Advance(i, a)).w, y) == ViewOf(s.w, y)
    ensures TaskOk(cfg, Step(cfg, s, Advance(i, a)), j)
  {
    var s' := Step(cfg, s, Advance(i, a));
    var r := s.runs[j];
    assert TaskOk(cfg, s, i) && TaskOk(cfg, s, j);
    assert s'.runs[j] == r && s'.d == s.d;
    if s.d.tasks[j].stage.Executing? {
      D.LiveTasksDiffer(cfg.limits, s.d, if i < j then i else j, if i < j then j else i);
      FinishedFrame(cfg.settings, s.done, s.runs[i], a, r.job.docId);
      RunOkFrame(cfg.settings, ViewOf(s.w, r.job.docId), s.done, s'.done, r);
    }
  }

  lemma AdvanceKeepsConsistency(cfg: Settings, w: World, done: map<string, Completed>, r: Run, a: Action)
    requires RunReady(cfg, w, done, r) && RunEnabled(r, a) && AllConsistent(cfg, w, done)
    ensures RunStep(cfg, w, r, a).w.vectors.Valid()
    ensures AllConsistent(cfg, RunStep(cfg, w, r, a).w, Finished(cfg, done, r, a))
  {
    RunStepKeeps(cfg, w, done, r, a);
    var w', done' := RunStep(cfg, w, r, a).w, Finished(cfg, done, r, a);
    forall x
      ensures Consistent(cfg, ViewOf(w', x), done', x)
    {
      assert Consistent(cfg, ViewOf(w, x), done, x);
      if x != r.job.docId {
        FinishedFrame(cfg, done, r, a, x);
        assert ViewOf(w', x) == ViewOf(w, x);
      }
    }
  }

  lemma AdvanceKeeps(cfg: Config, s: System, i: nat, a: Action)
    requires Inv(cfg, s) && Enabled(s, Advance(i, a))
    ensures Inv(cfg, Step(cfg, s, Advance(i, a)))
  {
    var r := s.runs[i];
    assert TaskOk(cfg, s, i);
    assert Consistent(cfg.settings, ViewOf(s.w, r.job.docId), s.done, r.job.docId);
    RunStepKeeps(cfg.settings, s.w, s.done, r, a);
    AdvanceKeepsConsistency(cfg.settings, s.w, s.done, r, a);
    var s' := Step(cfg, s, Advance(i, a));
    forall j | 0 <= j < |s'.runs|
      ensures TaskOk(cfg, s', j)
    {
      if j != i { AdvanceKeepsOther(cfg, s, i, a, j); }
    }
  }

  lemma InvKept(cfg: Config, s: System, e: Event)
    requires Inv(cfg, s) && Enabled(s, e)
    ensures Inv(cfg, Step(cfg, s, e))
  {
    match e
    case Dispatch(e) => DispatchKeeps(cfg, s, e);
    case Advance(i, a) => AdvanceKeeps(cfg, s, i, a);
  }

  lemma {:induction false} RunKeepsInv(cfg: Config, s: System, es: seq<Event>)
    requires Inv(cfg, s)
    ensures Exec(cfg, s, es).Some? ==> Inv(cfg, Exec(cfg, s, es).value)
    decreases |es|
  {
    if es != [] && Enabled(s, es[0]) {
      InvKept(cfg, s, es[0]);
      RunKeepsInv(cfg, Step(cfg, s, es[0]), es[1..]);
    }
  }

  lemma ReachedInv(cfg: Config, es: seq<Event>, s: System)
    requires Reached(cfg, es, s)
    ensures Inv(cfg, s)
  {
    D.ReachedInv(cfg.limits, [], D.Init(cfg.limits));
    RunKeepsInv(cfg, Boot(cfg), es);
  }

  // ---- what holds in every run ----

  function InkOfSections(ss: seq<Section>): string {
    if ss == [] then [] else Ink(ss[0].content) + InkOfSections(ss[1..])
  }

  lemma {:induction false} InkMatches(ss: seq<Section>, ps: seq<Piece>)
    requires MatchesPieces(ss, ps)
    ensures InkOfSections(ss) == InkOfPieces(ps)
  {
    if ss != [] { InkMatches(ss[1..], ps[1..]); }
  }

  /** Whatever documents are ingested together, however their store calls interleave and whichever of them
      fail: a document marked INDEXED has in the vector store, in order, exactly the sections of its last
      completed run, at least one; the record gives their number; and their visible characters are
      exactly those of the markdown that run normalised. */
  lemma TwoStoresAgree(cfg: Config, es: seq<Event>, s: System, x: string)
    requires Reached(cfg, es, s) && SplitsByHeading(cfg.settings)
    requires x in s.w.docs.vals && s.w.docs.vals[x].status.Indexed?
    ensures s.w.vectors.Valid() && x in s.done
    ensures SectionsIn(s.w.vectors, x) == s.done[x].sections != []
    ensures s.w.docs.vals[x].sectionCount == Some(|SectionsIn(s.w.vectors, x)|)
    ensures s.w.docs.vals[x].s3LastModified == s.done[x].job.s3LastModified
    ensures NumberedFor(SectionsIn(s.w.vectors, x), x)
    ensures Normaliser.NormalForm(s.done[x].markdown)
    ensures InkOfSections(SectionsIn(s.w.vectors, x)) == Ink(s.done[x].markdown)
  {
    ReachedInv(cfg, es, s);
    assert Consistent(cfg.settings, ViewOf(s.w, x), s.done, x);
    InkMatches(s.done[x].sections, Split(s.done[x].markdown));
    SplitKeepsInk(s.done[x].markdown);
  }

  /** The record of an INDEXED document tells which version of the file its last completed run was given. */
  lemma IndexedVersion(cfg: Config, es: seq<Event>, s: System, x: string)
    requires Reached(cfg, es, s) && Has(s.w.docs.Get(x), Indexed)
    ensures x in s.done && s.w.docs.vals[x].s3LastModified == s.done[x].job.s3LastModified
  {
    ReachedInv(cfg, es, s);
    assert Consistent(cfg.settings, ViewOf(s.w, x), s.done, x);
  }

  // ---- the time of the first upload ----

  /** No record disappears, none changes the time it was first uploaded, and none that was processed forgets it. */
  ghost predicate KeepsUploads(docs: Documents, docs': Documents) {
    forall x :: x in docs.vals ==> x in docs'.vals && KeepsTimes(docs.vals[x], docs'.vals[x])
  }

  predicate KeepsTimes(doc: DocumentRecord, doc': DocumentRecord) {
    doc'.uploadedAt == doc.uploadedAt && (doc.processedAt.Some? ==> doc'.processedAt.Some?)
  }

  lemma EffectKeepsUploads(cfg: Settings, w: World, r: Run, now: int, k: nat)
    requires r.pc.Describing? ==> r.existing == w.docs.Get(r.job.docId)
    ensures KeepsUploads(w.docs, Effect(cfg, w, r, now, k).docs)
  {
    match r.pc
    case Claiming =>
    case Describing =>
    case _ =>
  }

  lemma StepKeepsUploads(cfg: Config, s: System, e: Event)
    requires Inv(cfg, s) && Enabled(s, e)
    ensures KeepsUploads(s.w.docs, Step(cfg, s, e).w.docs)
  {
    if e.Advance? {
      assert TaskOk(cfg, s, e.i);
      match e.a
      case Go(now, _) => EffectKeepsUploads(cfg.settings, s.w, s.runs[e.i], now, Whole(s.w, s.runs[e.i]));
      case Raise(now, k) => EffectKeepsUploads(cfg.settings, s.w, s.runs[e.i], now, k);
      case Cancel =>
    }
  }

  /** However often a document is ingested again and whatever fails meanwhile, it keeps its upload time and stays
      known to have been processed. */
  lemma {:induction false} UploadTimeIsKept(cfg: Config, s: System, es: seq<Event>)
    requires Inv(cfg, s)
    ensures Exec(cfg, s, es).Some? ==> KeepsUploads(s.w.docs, Exec(cfg, s, es).value.w.docs)
    decreases |es|
  {
    if es != [] && Enabled(s, es[0]) {
      InvKept(cfg, s, es[0]);
      StepKeepsUploads(cfg, s, es[0]);
      UploadTimeIsKept(cfg, Step(cfg, s, es[0]), es[1..]);
    }
  }

  /** The description written over the claimed record: it is still INDEXING, as of the moment indexing began, and was
      uploaded and last processed when the record said. */
  lemma DescribingTells(cfg: Settings, w: World, done: map<string, Completed>, r: Run, now: int, supply: Supply)
    requires RunReady(cfg, w, done, r) && r.pc.Describing?
    ensures var was, doc := w.docs.Get(r.job.docId), RunStep(cfg, w, r, Go(now, supply)).w.docs.Get(r.job.docId);
            && was.Some? && doc.Some?
            && doc.value.id == r.job.docId && doc.value.status == Indexing && doc.value.updatedAt == r.startedAt
            && doc.value.uploadedAt == was.value.uploadedAt && doc.value.processedAt == was.value.processedAt
            && doc.value.s3LastModified == r.job.s3LastModified && doc.value.sectionCount == Some(|r.sections|)
  {
    assert StoresOk(cfg, ViewOf(w, r.job.docId), done, r);
  }

  function StatusIs(status: Status): JobEntry -> bool { (e: JobEntry) => e.status == status }

  /** The moment a run is over, its document and its log entries tell how it ended. If `execute` raised and
      its handler's two calls went through, the document is FAILED and exactly one new entry says so; if it
      returned, the document is INDEXED with that run's own sections and the one new entry gives their
      number; a cancelled run leaves the document INDEXING and no entry. */
  lemma RunOutcome(cfg: Config, es: seq<Event>, s: System, i: nat)
    requires Reached(cfg, es, s) && i < |s.runs| && D.TaskAt(s.d, i, D.Executing) && s.runs[i].pc.Over?
    ensures var r := s.runs[i]; var x := r.job.docId;
            && EntriesOf(s.w.jobs, x) == r.before + r.logged
            && match r.pc.result
               case Skipped => r.logged == []
               case Succeeded =>
                 && x in s.w.docs.vals && s.w.docs.vals[x].status.Indexed? && s.w.docs.vals[x].processedAt.Some?
                 && |r.logged| == Count(r.logged, StatusIs(Indexed)) == 1
                 && r.logged[0].sectionCount == |r.sections|
                 && s.w.vectors.Valid() && SectionsIn(s.w.vectors, x) == Indexable(cfg.settings, r)
               case Raised =>
                 && x in s.w.docs.vals && s.w.docs.vals[x].status.Failed?
                 && Count(r.logged, StatusIs(Failed)) == 1 && |r.logged| <= 2
               case HandlerRaised => true
               case Cancelled => x in s.w.docs.vals && s.w.docs.vals[x].status.Indexing? && r.logged == []
  {
    ReachedInv(cfg, es, s);
    assert TaskOk(cfg, s, i);
    var r := s.runs[i];
    assert Consistent(cfg.settings, ViewOf(s.w, r.job.docId), s.done, r.job.docId);
    match r.pc.result
    case Succeeded => CountsOf(r.logged);
    case Raised => CountsOf(r.logged);
    case _ =>
  }

  lemma CountsOf(es: seq<JobEntry>)
    requires es != [] && MaybeIndexedEntry(es[..|es| - 1])
    ensures |es| <= 2
    ensures es[|es| - 1].status.Failed? ==> Count(es, StatusIs(Failed)) == 1
    ensures |es| == 1 && es[0].status.Indexed? ==> Count(es, StatusIs(Indexed)) == 1
  {
    assert es == es[..|es| - 1] + [es[|es| - 1]];
    CountAppend(es[..|es| - 1], es[|es| - 1], StatusIs(Failed));
    CountAppend(es[..|es| - 1], es[|es| - 1], StatusIs(Indexed));
    if |es| == 2 {
      assert es[..1] == [] + [es[0]];
      CountAppend([], es[0], StatusIs(Failed));
    }
  }

  /** A run is skipped only because another claim on the document is still fresh, and then it has changed
      neither store nor the log. */
  lemma SkippedChangesNothing(cfg: Settings, w: World, r: Run, a: Action)
    requires RunEnabled(r, a)
    ensures RunStep(cfg, w, r, a).r.pc == Over(Skipped) <==>
              a.Go? && r.pc.Claiming? && !Claimable(w.docs, r.job.docId, cfg.staleSeconds, a.now)
    ensures RunStep(cfg, w, r, a).r.pc == Over(Skipped) ==> RunStep(cfg, w, r, a).w == w
  {
    if a.Go? && 1 <= Rank(r.pc) <= 6 {
      assert Stage(cfg, r, a.supply).pc != Over(Skipped);
    }
  }

  // ---- why the dispatcher is needed ----

  /** Between writing INDEXED and the end of the run the document can be claimed again. */
  lemma ClaimDoesNotExclude(cfg: Settings, w: World, done: map<string, Completed>, r: Run, now: int)
    requires RunReady(cfg, w, done, r) && (r.pc.Stamping? || r.pc.Logging?)
    ensures Claimable(w.docs, r.job.docId, cfg.staleSeconds, now)
  {
    assert Has(ViewOf(w, r.job.docId).doc, Indexed);
  }

  lemma StampEffect(cfg: Settings, w: World, late: Run, now: int, supply: Supply)
    requires late.pc.Stamping? && Has(w.docs.Get(late.job.docId), Indexed)
    ensures var w' := RunStep(cfg, w, late, Go(now, supply)).w;
            && w'.vectors == w.vectors
            && w'.docs.Get(late.job.docId)
               == Some(w.docs.vals[late.job.docId].(sectionCount := Some(|late.sections|), processedAt := Some(now), updatedAt := now))
  {
  }

  /** If another run has meanwhile indexed the document, the first run's late `update_processed` leaves the
      record true of the sections exactly when both runs had equally many. */
  lemma LateStampConsistentIff(cfg: Settings, w: World, done: map<string, Completed>, late: Run, now: int, supply: Supply)
    requires w.vectors.Valid() && late.pc.Stamping? && Has(w.docs.Get(late.job.docId), Indexed)
    requires Consistent(cfg, ViewOf(w, late.job.docId), done, late.job.docId)
    ensures RunStep(cfg, w, late, Go(now, supply)).w.vectors.Valid()
    ensures Consistent(cfg, ViewOf(RunStep(cfg, w, late, Go(now, supply)).w, late.job.docId), done, late.job.docId)
            <==> |SectionsIn(w.vectors, late.job.docId)| == |late.sections|
  {
    StampEffect(cfg, w, late, now, supply);
  }
}
