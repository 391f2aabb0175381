/** What one execution of a job alone comes to. */
module IngestOutcomes {
  import opened Sequences
  import opened Texts
  import opened Sections
  import opened VectorStores
  import opened MetadataStores
  import opened IngestRuns
  import opened IngestInvariants
  import opened IngestSystems
  import opened IngestJobs
  import Normaliser

  /** Whatever raises, an execution, or any first part of one, keeps the stores in agreement and touches no
      other document. */
  lemma {:induction false} DriveKeepsReady(cfg: Settings, w: World, done: map<string, Completed>, r: Run, plan: Plan,
                                           supply: Supply, limit: nat)
    returns (done': map<string, Completed>)
    requires RunReady(cfg, w, done, r) && limit <= 17
    ensures var both := Drive(cfg, w, r, plan, supply, limit);
            && RunReady(cfg, both.w, done', both.r)
            && both.r.job.docId == r.job.docId
            && forall y :: y != r.job.docId ==> ViewOf(both.w, y) == ViewOf(w, y)
    decreases 17 - Rank(r.pc)
  {
    if Rank(r.pc) >= limit {
      done' := done;
    } else {
      var a := ActionOf(plan, supply, r);
      StepAdvances(cfg, w, r, a);
      RunStepKeeps(cfg, w, done, r, a);
      var next := RunStep(cfg, w, r, a);
      done' := DriveKeepsReady(cfg, next.w, Finished(cfg, done, r, a), next.r, plan, supply, limit);
    }
  }

  /** A job's execution, from stores in agreement: they agree again afterwards, no other document is touched,
      and the document's status tells the result. */
  lemma ExecuteKeepsAgreement(cfg: Settings, w: World, done: map<string, Completed>, job: Job, plan: Plan, supply: Supply)
    returns (done': map<string, Completed>)
    requires WorldOk(w) && Consistent(cfg, ViewOf(w, job.docId), done, job.docId)
    ensures var both := Drive(cfg, w, NewRun(job), plan, supply, 17);
            && WorldOk(both.w)
            && Consistent(cfg, ViewOf(both.w, job.docId), done', job.docId)
            && (forall y :: y != job.docId ==> ViewOf(both.w, y) == ViewOf(w, y))
            && (both.r.pc == Over(Succeeded) ==> Has(both.w.docs.Get(job.docId), Indexed))
            && (both.r.pc == Over(Raised) ==> Has(both.w.docs.Get(job.docId), Failed))
  {
    done' := DriveKeepsReady(cfg, w, done, NewRun(job), plan, supply, 17);
  }

  // ---- when nothing raises ----

  predicate VectorsFit(cfg: Settings, n: nat, supply: Supply) {
    |supply.vectors| == n && AllOfDimension(supply.vectors, cfg.embeddingDim)
  }

  predicate AllFit(cfg: Settings, markdown: string, supply: Supply) {
    var n := |cfg.split(markdown)|;
    n > 0 && |supply.captions| == n && VectorsFit(cfg, n, supply)
  }

  predicate Delivered(cfg: Settings, supply: Supply) {
    var markdown := Normaliser.Normalize(supply.text);
    Strip(markdown) != [] && AllFit(cfg, markdown, supply)
  }

  /** The outside world has delivered what the rest of the run needs. */
  predicate Usable(cfg: Settings, r: Run, supply: Supply) {
    match r.pc
    case Reading => Delivered(cfg, supply)
    case Parsing => Delivered(cfg, supply)
    case Saving => AllFit(cfg, r.markdown, supply)
    case Splitting => AllFit(cfg, r.markdown, supply)
    case Captioning => |supply.captions| == |r.sections| && VectorsFit(cfg, |r.sections|, supply)
    case Embedding => VectorsFit(cfg, |r.sections|, supply)
    case _ => true
  }

  /** The stage either finds its result unusable or leaves the rest needing just what it needed before. */
  predicate Hands(cfg: Settings, r: Run, supply: Supply, next: Run) {
    && (next.pc.FailLogging? || Rank(next.pc) == Rank(r.pc) + 1)
    && (Usable(cfg, r, supply) <==> !next.pc.FailLogging? && Usable(cfg, next, supply))
  }

  lemma TextStageUses(cfg: Settings, r: Run, supply: Supply)
    requires 1 <= Rank(r.pc) <= 3
    ensures Hands(cfg, r, supply, Stage(cfg, r, supply))
  {
  }

  lemma SplitStageUses(cfg: Settings, r: Run, supply: Supply)
    requires r.pc.Splitting?
    ensures Hands(cfg, r, supply, Stage(cfg, r, supply))
  {
  }

  lemma SectionStageUses(cfg: Settings, r: Run, supply: Supply)
    requires 5 <= Rank(r.pc) <= 6
    ensures Hands(cfg, r, supply, Stage(cfg, r, supply))
  {
  }

  lemma StageUses(cfg: Settings, r: Run, supply: Supply)
    requires 1 <= Rank(r.pc) <= 6
    ensures Hands(cfg, r, supply, Stage(cfg, r, supply))
  {
    if Rank(r.pc) <= 3 {
      TextStageUses(cfg, r, supply);
    } else if Rank(r.pc) == 4 {
      SplitStageUses(cfg, r, supply);
    } else {
      SectionStageUses(cfg, r, supply);
    }
  }

  ghost predicate Faultless(plan: Plan) { plan.faults == map[] && plan.cancelled.None? }

  lemma DriveReturns(cfg: Settings, w: World, r: Run, plan: Plan, supply: Supply, limit: nat, w': World, r': Run)
    requires Faultless(plan) && Rank(r.pc) < limit <= 17
    requires w' == Effect(cfg, w, r, plan.clock(r.pc), Whole(w, r))
    requires r' == Return(cfg, w, Noted(w, r, plan.clock(r.pc), 1), plan.clock(r.pc), supply)
    ensures Drive(cfg, w, r, plan, supply, limit) == Drive(cfg, w', r', plan, supply, limit)
  {
    assert ActionOf(plan, supply, r) == Go(plan.clock(r.pc), supply);
  }

  ghost predicate GoneThrough(r: Run, limit: nat, end: Run) {
    && end.sections == r.sections
    && if limit == 17 then end.pc == Over(if Rank(r.pc) <= 14 then Succeeded else Raised) else Rank(end.pc) == limit
  }

  ghost predicate CallNextOf(r: Run, next: Run) {
    && next.sections == r.sections
    && if r.pc.Logging? then next.pc == Over(Succeeded)
       else if r.pc.FailMarking? then next.pc == Over(Raised)
       else Rank(next.pc) == Rank(r.pc) + 1
  }

  lemma LaterGone(r: Run, next: Run, limit: nat, end: Run)
    requires 7 <= Rank(r.pc) <= 16 && CallNextOf(r, next) && !next.pc.Over? && GoneThrough(next, limit, end)
    ensures GoneThrough(r, limit, end)
  {
    assert !r.pc.Logging?;
  }

  lemma LastGone(r: Run, next: Run, limit: nat)
    requires 7 <= Rank(r.pc) < limit <= 17 && CallNextOf(r, next) && next.pc.Over? && (limit <= 14 || limit == 17)
    ensures limit == 17 && GoneThrough(r, limit, next)
  {
  }

  lemma CallNext(cfg: Settings, w: World, r: Run, now: int, supply: Supply)
    requires 7 <= Rank(r.pc) <= 16
    ensures CallNextOf(r, Return(cfg, w, r, now, supply))
  {
  }

  lemma NotingKeeps(w: World, r: Run, now: int, k: nat)
    ensures Noted(w, r, now, k).pc == r.pc && Noted(w, r, now, k).sections == r.sections
  {
  }

  lemma CallReturns(cfg: Settings, w: World, r: Run, plan: Plan, supply: Supply, limit: nat) returns (next: Both)
    requires Faultless(plan) && 7 <= Rank(r.pc) < limit <= 17
    ensures Drive(cfg, w, r, plan, supply, limit) == Drive(cfg, next.w, next.r, plan, supply, limit)
    ensures CallNextOf(r, next.r)
  {
    var now := plan.clock(r.pc);
    next := Both(Effect(cfg, w, r, now, Whole(w, r)), Return(cfg, w, Noted(w, r, now, 1), now, supply));
    DriveReturns(cfg, w, r, plan, supply, limit, next.w, next.r);
    NotingKeeps(w, r, now, 1);
    CallNext(cfg, w, Noted(w, r, now, 1), now, supply);
  }

  /** Nothing stops a run from `get_document` on: it gets to any point, and to its end. */
  lemma {:induction false} CallsGoThrough(cfg: Settings, w: World, r: Run, plan: Plan, supply: Supply, limit: nat)
    requires Faultless(plan) && 7 <= Rank(r.pc) <= limit && (limit <= 14 || limit == 17) && !r.pc.Over?
    ensures GoneThrough(r, limit, Drive(cfg, w, r, plan, supply, limit).r)
    decreases 17 - Rank(r.pc)
  {
    if Rank(r.pc) < limit {
      var next := CallReturns(cfg, w, r, plan, supply, limit);
      if next.r.pc.Over? {
        LastGone(r, next.r, limit);
        DriveStops(cfg, next.w, next.r, plan, supply);
      } else {
        CallsGoThrough(cfg, next.w, next.r, plan, supply, limit);
        LaterGone(r, next.r, limit, Drive(cfg, next.w, next.r, plan, supply, limit).r);
      }
    }
  }

  /** The sections a usable supply ends with are as many as its vectors. */
  lemma {:induction false} StagesGoThrough(cfg: Settings, w: World, r: Run, plan: Plan, supply: Supply, limit: nat)
    requires Faultless(plan) && 1 <= Rank(r.pc) <= 6 && (limit == 17 || (7 <= limit <= 14 && Usable(cfg, r, supply)))
    ensures var end := Drive(cfg, w, r, plan, supply, limit).r;
            && (limit == 17 ==> end.pc == Over(if Usable(cfg, r, supply) then Succeeded else Raised))
            && (limit < 17 ==> Rank(end.pc) == limit)
            && (Usable(cfg, r, supply) ==> |end.sections| == |supply.vectors|)
    decreases 17 - Rank(r.pc)
  {
    var now := plan.clock(r.pc);
    StageIsQuiet(cfg, w, r, now, supply);
    var next := Stage(cfg, r, supply);
    DriveReturns(cfg, w, r, plan, supply, limit, w, next);
    StageUses(cfg, r, supply);
    if Rank(next.pc) <= 6 {
      StagesGoThrough(cfg, w, next, plan, supply, limit);
    } else {
      CallsGoThrough(cfg, w, next, plan, supply, limit);
      if r.pc.Embedding? { EmbedCounts(cfg, r, supply.vectors); }
    }
  }

  lemma EmbedCounts(cfg: Settings, r: Run, vectors: seq<Vector>)
    ensures !VectorsPut(cfg, r, vectors).pc.FailLogging? ==> |VectorsPut(cfg, r, vectors).sections| == |vectors|
  {
  }

  /** If no call raises, an execution succeeds exactly when the document can be claimed and the parser, the
      captioner and the embedder deliver: a text that is not blank once normalised, one caption and one
      vector of the right dimension for each of its sections. */
  lemma CleanRunOutcome(cfg: Settings, w: World, job: Job, plan: Plan, supply: Supply)
    requires Faultless(plan)
    ensures Drive(cfg, w, NewRun(job), plan, supply, 17).r.pc ==
            Over(if !Claimable(w.docs, job.docId, cfg.staleSeconds, plan.clock(Claiming)) then Skipped
                 else if Delivered(cfg, supply) then Succeeded
                 else Raised)
  {
    var r, now := NewRun(job), plan.clock(Claiming);
    var w', r' := Effect(cfg, w, r, now, Whole(w, r)), Return(cfg, w, Noted(w, r, now, 1), now, supply);
    DriveReturns(cfg, w, r, plan, supply, 17, w', r');
    if r'.pc.Reading? {
      StagesGoThrough(cfg, w', r', plan, supply, 17);
    } else {
      DriveStops(cfg, w', r', plan, supply);
    }
  }

  /** A run that can claim and is delivered what it needs gets to every call of `index_sections` and to its end,
      with as many sections as it was given vectors. */
  lemma CleanRunReaches(cfg: Settings, w: World, job: Job, plan: Plan, supply: Supply, limit: nat)
    requires Faultless(plan) && Delivered(cfg, supply) && (7 <= limit <= 14 || limit == 17)
    requires Claimable(w.docs, job.docId, cfg.staleSeconds, plan.clock(Claiming))
    ensures var end := Drive(cfg, w, NewRun(job), plan, supply, limit).r;
            && |end.sections| == |supply.vectors|
            && if limit == 17 then end.pc == Over(Succeeded) else Rank(end.pc) == limit
  {
    var r, now := NewRun(job), plan.clock(Claiming);
    var w', r' := Effect(cfg, w, r, now, Whole(w, r)), Return(cfg, w, Noted(w, r, now, 1), now, supply);
    DriveReturns(cfg, w, r, plan, supply, limit, w', r');
    StagesGoThrough(cfg, w', r', plan, supply, limit);
  }

  // ---- two runs of one document without the dispatcher ----

  /** Two jobs of one document: the first runs up to its `update_processed`; by then the document is INDEXED,
      the second claims it and runs to its end. */
  function FirstStopped(cfg: Settings, w: World, job: Job, plan: Plan, supply: Supply): Both {
    Drive(cfg, w, NewRun(job), plan, supply, 13)
  }

  lemma RanksTell(pc: Pc)
    ensures Rank(pc) == 13 ==> pc.Stamping?
  {
  }

  lemma FirstRun(cfg: Settings, w: World, done: map<string, Completed>, job: Job, plan: Plan, supply: Supply)
    returns (done': map<string, Completed>)
    requires WorldOk(w) && Consistent(cfg, ViewOf(w, job.docId), done, job.docId)
    requires Faultless(plan) && Delivered(cfg, supply) && Claimable(w.docs, job.docId, cfg.staleSeconds, plan.clock(Claiming))
    ensures var first := FirstStopped(cfg, w, job, plan, supply);
            && first.r.pc.Stamping? && |first.r.sections| == |supply.vectors| && first.r.job.docId == job.docId
            && RunReady(cfg, first.w, done', first.r)
  {
    done' := DriveKeepsReady(cfg, w, done, NewRun(job), plan, supply, 13);
    CleanRunReaches(cfg, w, job, plan, supply, 13);
    RanksTell(FirstStopped(cfg, w, job, plan, supply).r.pc);
  }

  lemma SecondRun(cfg: Settings, w: World, done: map<string, Completed>, late: Run, job: Job, plan: Plan, supply: Supply)
    returns (done': map<string, Completed>)
    requires RunReady(cfg, w, done, late) && late.pc.Stamping? && job.docId == late.job.docId
    requires Faultless(plan) && Delivered(cfg, supply)
    ensures var second := Drive(cfg, w, NewRun(job), plan, supply, 17);
            && second.r.pc == Over(Succeeded) && WorldOk(second.w)
            && Has(second.w.docs.Get(job.docId), Indexed)
            && Consistent(cfg, ViewOf(second.w, job.docId), done', job.docId)
            && |SectionsIn(second.w.vectors, job.docId)| == |supply.vectors|
  {
    ClaimDoesNotExclude(cfg, w, done, late, plan.clock(Claiming));
    NewRunOk(cfg, ViewOf(w, job.docId), done, job);
    done' := DriveKeepsReady(cfg, w, done, NewRun(job), plan, supply, 17);
    CleanRunReaches(cfg, w, job, plan, supply, 17);
  }

  /** Without the dispatcher two jobs of one document can both succeed and leave the record lying. From any
      stores in agreement: the first run stops before its `update_processed`, the second claims the document
      and runs to its end, everything agrees; then the first goes on, and the INDEXED record gives the first
      run's count for the second run's sections. It does so exactly when the two counts differ. */
  lemma UnsupervisedRunsDisagree(cfg: Settings, w: World, done: map<string, Completed>, job: Job, again: Job,
                                 plan: Plan, plan': Plan, supply: Supply, supply': Supply, now: int)
    returns (done': map<string, Completed>)
    requires WorldOk(w) && Consistent(cfg, ViewOf(w, job.docId), done, job.docId) && again.docId == job.docId
    requires Faultless(plan) && Delivered(cfg, supply) && Claimable(w.docs, job.docId, cfg.staleSeconds, plan.clock(Claiming))
    requires Faultless(plan') && Delivered(cfg, supply')
    ensures var x, first := job.docId, FirstStopped(cfg, w, job, plan, supply);
            var second := Drive(cfg, first.w, NewRun(again), plan', supply', 17);
            && first.r.pc.Stamping? && second.r.pc == Over(Succeeded)
            && WorldOk(second.w) && Consistent(cfg, ViewOf(second.w, x), done', x)
            && var after := RunStep(cfg, second.w, first.r, Go(now, supply)).w;
               && after.vectors.Valid()
               && (Consistent(cfg, ViewOf(after, x), done', x) <==> |supply.vectors| == |supply'.vectors|)
  {
    var first := FirstStopped(cfg, w, job, plan, supply);
    var done1 := FirstRun(cfg, w, done, job, plan, supply);
    done' := SecondRun(cfg, first.w, done1, first.r, again, plan', supply');
    var second := Drive(cfg, first.w, NewRun(again), plan', supply', 17);
    LateStampConsistentIff(cfg, second.w, done', first.r, now, supply);
  }
}
