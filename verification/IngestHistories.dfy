/** What one run did, seen over a whole run of the system in which others interleave with it. */
module IngestHistories {
  import opened Sequences
  import opened MetadataStores
  import opened IngestRuns
  import opened IngestInvariants
  import opened IngestSystems
  import D = Dispatchers

  // ---- skipped runs ----

  /** No step this run takes on the way changes either store or the log. */
  ghost predicate Untouched(cfg: Config, s: System, es: seq<Event>, i: nat)
    decreases |es|
  {
    es != [] && Enabled(s, es[0]) ==>
      && (es[0].Advance? && es[0].i == i ==> Step(cfg, s, es[0]).w == s.w)
      && Untouched(cfg, Step(cfg, s, es[0]), es[1..], i)
  }

  predicate PastClaim(s: System, i: nat) {
    i < |s.runs| && !s.runs[i].pc.Claiming? && s.runs[i].pc != Over(Skipped)
  }

  lemma OnlyClaimsSkip(cfg: Settings, w: World, r: Run, a: Action)
    requires RunEnabled(r, a)
    ensures !RunStep(cfg, w, r, a).r.pc.Claiming?
    ensures RunStep(cfg, w, r, a).r.pc == Over(Skipped) ==> r.pc.Claiming? && RunStep(cfg, w, r, a).w == w
  {
    SkippedChangesNothing(cfg, w, r, a);
    if a.Go? && 1 <= Rank(r.pc) <= 6 {
      assert !Stage(cfg, r, a.supply).pc.Claiming?;
    }
  }

  lemma {:induction false} PastClaimStays(cfg: Config, s: System, es: seq<Event>, i: nat)
    requires PastClaim(s, i) && Exec(cfg, s, es).Some?
    ensures PastClaim(Exec(cfg, s, es).value, i)
    decreases |es|
  {
    if es != [] {
      if es[0].Advance? && es[0].i == i { OnlyClaimsSkip(cfg.settings, s.w, s.runs[i], es[0].a); }
      PastClaimStays(cfg, Step(cfg, s, es[0]), es[1..], i);
    }
  }

  /** A run that ends skipped has, over its whole life and whatever ran beside it, changed neither store nor
      log. */
  lemma {:induction false} SkippedRunLeavesNoTrace(cfg: Config, s: System, es: seq<Event>, i: nat)
    requires Exec(cfg, s, es).Some?
    requires i < |Exec(cfg, s, es).value.runs| && Exec(cfg, s, es).value.runs[i].pc == Over(Skipped)
    ensures Untouched(cfg, s, es, i)
    decreases |es|
  {
    if es != [] {
      var s1 := Step(cfg, s, es[0]);
      if es[0].Advance? && es[0].i == i {
        OnlyClaimsSkip(cfg.settings, s.w, s.runs[i], es[0].a);
        if PastClaim(s1, i) { PastClaimStays(cfg, s1, es[1..], i); }
      }
      SkippedRunLeavesNoTrace(cfg, s1, es[1..], i);
    }
  }

  // ---- when a failed run has also logged success ----

  predicate LoggedSuccess(r: Run) {
    r.logged != [] && r.logged[0].status.Indexed?
  }

  predicate FailsLate(s: System, e: Event, i: nat) {
    && e.Advance? && e.i == i && i < |s.runs|
    && s.runs[i].pc.Logging? && e.a.Raise? && e.a.effects > 0
  }

  /** On the way, the run's `record_job` for success raised after it had taken effect. */
  ghost predicate FailedLate(cfg: Config, s: System, es: seq<Event>, i: nat)
    decreases |es|
  {
    es != [] && Enabled(s, es[0]) && (FailsLate(s, es[0], i) || FailedLate(cfg, Step(cfg, s, es[0]), es[1..], i))
  }

  lemma {:induction false} OverStays(cfg: Config, s: System, es: seq<Event>, i: nat)
    requires i < |s.runs| && s.runs[i].pc.Over? && Exec(cfg, s, es).Some?
    ensures i < |Exec(cfg, s, es).value.runs| && Exec(cfg, s, es).value.runs[i] == s.runs[i]
    decreases |es|
  {
    if es != [] { OverStays(cfg, Step(cfg, s, es[0]), es[1..], i); }
  }

  lemma StepLogs(cfg: Settings, w: World, r: Run, a: Action)
    requires RunEnabled(r, a) && (Rank(r.pc) <= 14 ==> r.logged == [])
    ensures var r' := RunStep(cfg, w, r, a).r;
            && (LoggedSuccess(r') <==> LoggedSuccess(r) || (r.pc.Logging? && (a.Go? || (a.Raise? && a.effects > 0))))
            && (r.pc.Logging? && a.Go? ==> r'.pc == Over(Succeeded))
  {
    if a.Go? && 1 <= Rank(r.pc) <= 6 { StageKeepsHistory(cfg, r, a.supply); }
  }

  lemma {:induction false} SuccessLoggedIff(cfg: Config, s: System, es: seq<Event>, i: nat)
    requires Inv(cfg, s) && Exec(cfg, s, es).Some?
    requires i < |Exec(cfg, s, es).value.runs| && Exec(cfg, s, es).value.runs[i].pc != Over(Succeeded)
    ensures LoggedSuccess(Exec(cfg, s, es).value.runs[i]) <==>
              (i < |s.runs| && LoggedSuccess(s.runs[i])) || FailedLate(cfg, s, es, i)
    decreases |es|
  {
    if es != [] {
      var s1 := Step(cfg, s, es[0]);
      InvKept(cfg, s, es[0]);
      SuccessLoggedIff(cfg, s1, es[1..], i);
      if es[0].Advance? && es[0].i == i {
        assert TaskOk(cfg, s, i);
        StepLogs(cfg.settings, s.w, s.runs[i], es[0].a);
        if s1.runs[i].pc == Over(Succeeded) { OverStays(cfg, s1, es[1..], i); }
      }
    }
  }

  /** A failed run has two log entries, INDEXED and FAILED, exactly when its `record_job` for success raised
      after taking effect; otherwise the one that says FAILED. */
  lemma SecondEntryIff(cfg: Config, es: seq<Event>, s: System, i: nat)
    requires Reached(cfg, es, s) && i < |s.runs| && D.TaskAt(s.d, i, D.Executing) && s.runs[i].pc == Over(Raised)
    ensures |s.runs[i].logged| == if FailedLate(cfg, Boot(cfg), es, i) then 2 else 1
    ensures FailedLate(cfg, Boot(cfg), es, i) ==> s.runs[i].logged[0].status.Indexed?
    ensures s.runs[i].logged[|s.runs[i].logged| - 1].status.Failed?
  {
    ReachedInv(cfg, [], Boot(cfg));
    SuccessLoggedIff(cfg, Boot(cfg), es, i);
    ReachedInv(cfg, es, s);
    assert TaskOk(cfg, s, i);
    var r := s.runs[i];
    if |r.logged| == 2 { assert r.logged[..1][0] == r.logged[0]; }
  }

  // ---- the job log ----

  /** An entry tells a final status and one moment for beginning and end, and a failure counts no sections. */
  ghost predicate FinalEntry(e: JobEntry) {
    && (e.status == Indexed || e.status == Failed)
    && e.finishedAt == Some(e.startedAt)
    && (e.status == Failed ==> e.sectionCount == 0)
  }

  ghost predicate FinalLog(jobs: seq<JobEntry>) {
    forall k :: 0 <= k < |jobs| ==> FinalEntry(jobs[k])
  }

  lemma EffectKeepsFinal(cfg: Settings, w: World, r: Run, now: int, k: nat)
    requires FinalLog(w.jobs)
    ensures FinalLog(Effect(cfg, w, r, now, k).jobs) && w.jobs <= Effect(cfg, w, r, now, k).jobs
  {
  }

  lemma StepKeepsFinal(cfg: Config, s: System, e: Event)
    requires Enabled(s, e) && FinalLog(s.w.jobs)
    ensures FinalLog(Step(cfg, s, e).w.jobs) && s.w.jobs <= Step(cfg, s, e).w.jobs
  {
    if e.Advance? {
      match e.a
      case Go(now, _) => EffectKeepsFinal(cfg.settings, s.w, s.runs[e.i], now, Whole(s.w, s.runs[e.i]));
      case Raise(now, k) => EffectKeepsFinal(cfg.settings, s.w, s.runs[e.i], now, k);
      case Cancel =>
    }
  }

  /** The job log only grows, and with nothing but such entries. */
  lemma {:induction false} LogStaysFinal(cfg: Config, s: System, es: seq<Event>)
    requires FinalLog(s.w.jobs) && Exec(cfg, s, es).Some?
    ensures FinalLog(Exec(cfg, s, es).value.w.jobs) && s.w.jobs <= Exec(cfg, s, es).value.w.jobs
    decreases |es|
  {
    if es != [] {
      StepKeepsFinal(cfg, s, es[0]);
      LogStaysFinal(cfg, Step(cfg, s, es[0]), es[1..]);
    }
  }
}
