/** What the batching protocol guarantees over whole runs. */
module BatchTheorems {
  import opened Sequences
  import opened EmbeddingCache
  import opened BatchProtocol
  import opened BatchInvariants

  lemma {:induction false} RunKeepsInv(cfg: Config, s: State, es: seq<Event>)
    requires ValidConfig(cfg) && Inv(cfg, s)
    ensures Exec(cfg, s, es).Some? ==> Inv(cfg, Exec(cfg, s, es).value)
    decreases |es|
  {
    if es != [] && Enabled(s, es[0]) {
      InvKept(cfg, s, es[0]);
      RunKeepsInv(cfg, Step(cfg, s, es[0]), es[1..]);
    }
  }

  lemma ReachedInv(cfg: Config, es: seq<Event>, s: State)
    requires Reached(cfg, es, s)
    ensures Inv(cfg, s)
  {
    assert Inv(cfg, Init());
    RunKeepsInv(cfg, Init(), es);
  }

  // ---- no request is stranded ----

  /** No step of the run strands a request. */
  ghost predicate NeverStrands(cfg: Config, s: State, es: seq<Event>)
    requires 0 < cfg.cacheSize
    decreases |es|
  {
    es != [] && Enabled(s, es[0]) ==> !Strands(s, es[0]) && NeverStrands(cfg, Step(cfg, s, es[0]), es[1..])
  }

  /** While no close is under way, something is pending exactly when a live, uncancelled timer exists. */
  ghost predicate Watched(s: State) {
    !Closing(s) ==> (s.pending != [] <==> SomeArmed(s))
  }

  /** The run's states, the first and the last included, are all watched. */
  ghost predicate WatchedThroughout(cfg: Config, s: State, es: seq<Event>)
    requires 0 < cfg.cacheSize
    decreases |es|
  {
    Watched(s) && (es != [] && Enabled(s, es[0]) ==> WatchedThroughout(cfg, Step(cfg, s, es[0]), es[1..]))
  }

  lemma WatchedIsAttended(s: State)
    requires TimerInv(s)
    ensures Watched(s) <==> Attended(s)
  {
  }

  lemma {:induction false} WatchedUnlessStranded(cfg: Config, s: State, es: seq<Event>)
    requires ValidConfig(cfg) && Inv(cfg, s) && Attended(s)
    ensures WatchedThroughout(cfg, s, es) <==> NeverStrands(cfg, s, es)
    decreases |es|
  {
    WatchedIsAttended(s);
    if es != [] && Enabled(s, es[0]) {
      var s' := Step(cfg, s, es[0]);
      InvKept(cfg, s, es[0]);
      AttendedUnlessStranded(cfg, s, es[0]);
      WatchedIsAttended(s');
      if Attended(s') { WatchedUnlessStranded(cfg, s', es[1..]); }
    }
  }

  lemma {:induction false} WatchedToTheEnd(cfg: Config, s: State, es: seq<Event>)
    requires 0 < cfg.cacheSize && WatchedThroughout(cfg, s, es) && Exec(cfg, s, es).Some?
    ensures Watched(Exec(cfg, s, es).value)
    decreases |es|
  {
    if es != [] { WatchedToTheEnd(cfg, Step(cfg, s, es[0]), es[1..]); }
  }

  lemma WatchedFromStart(cfg: Config, es: seq<Event>)
    requires ValidConfig(cfg)
    ensures WatchedThroughout(cfg, Init(), es) <==> NeverStrands(cfg, Init(), es)
  {
    assert Inv(cfg, Init()) && Attended(Init());
    WatchedUnlessStranded(cfg, Init(), es);
  }

  lemma OneArmed(s: State)
    requires TimerInv(s)
    ensures forall t, u :: 0 <= t < |s.timers| && 0 <= u < |s.timers| && s.timers[t].Armed? && s.timers[u].Armed? ==> t == u
  {
  }

  /** There is never more than one live timer, and in all states of a run it is there exactly when something
      is pending and no close is under way, if and only if no step of the run strands a request. */
  lemma PendingIffOneTimer(cfg: Config, es: seq<Event>, s: State)
    requires Reached(cfg, es, s)
    ensures WatchedThroughout(cfg, Init(), es) <==> NeverStrands(cfg, Init(), es)
    ensures NeverStrands(cfg, Init(), es) && !Closing(s) ==> (s.pending != [] <==> SomeArmed(s))
    ensures forall t, u :: 0 <= t < |s.timers| && 0 <= u < |s.timers| && s.timers[t].Armed? && s.timers[u].Armed? ==> t == u
  {
    ReachedInv(cfg, es, s);
    WatchedFromStart(cfg, es);
    OneArmed(s);
    if NeverStrands(cfg, Init(), es) { WatchedToTheEnd(cfg, Init(), es); }
  }

  /** A timer that gets the lock always finds something to flush. */
  lemma TimerNeverFindsNothing(cfg: Config, es: seq<Event>, s: State, t: nat)
    requires Reached(cfg, es, s) && Enabled(s, EvTimerWakes(t))
    ensures s.pending != [] && Step(cfg, s, EvTimerWakes(t)).flight == Some(Flight(s.pending, ByTimer(t)))
  {
    ReachedInv(cfg, es, s);
  }

  /** The flush never cancels the timer that runs it, and no timer is recorded while it runs. */
  lemma FlushNeverCancelsItself(cfg: Config, es: seq<Event>, s: State)
    requires Reached(cfg, es, s) && s.flight.Some?
    ensures s.flushTask.None?
    ensures s.flight.value.owner.ByTimer? ==> TimerAt(s, s.flight.value.owner.t, Flushing)
    ensures s.flight.value.owner.ByCloser? ==> CloserAt(s, s.flight.value.owner.c, Draining)
  {
    ReachedInv(cfg, es, s);
  }

  /** Nothing left to run: no flush, no timer, no close, nobody at the lock. */
  ghost predicate Quiescent(s: State) {
    && s.flight.None?
    && (forall t :: 0 <= t < |s.timers| ==> s.timers[t].Done?)
    && (forall c :: 0 <= c < |s.closers| ==> s.closers[c].Closed? || s.closers[c].Aborted?)
    && (forall i :: 0 <= i < |s.callers| ==> !s.callers[i].stage.AtLock?)
  }

  lemma QuiescentAnswers(cfg: Config, s: State)
    requires Quiescent(s) && CallerInv(cfg, s)
    ensures Attended(s) <==> s.pending == []
    ensures forall i :: 0 <= i < |s.callers| && s.callers[i].outcome.Waiting? ==> InBatch(s.pending, i)
  {
    assert !SomeArmed(s) && !Closing(s);
    forall i | 0 <= i < |s.callers| && s.callers[i].outcome.Waiting?
      ensures InBatch(s.pending, i)
    {
      assert StageOk(s.callers[i]);
    }
  }

  /** When nothing is left to run, the calls still without an answer are exactly pending ones; after a run that
      stranded none there are none: every call ever made has its result, its error or its cancellation. */
  lemma QuiescentMeansAnswered(cfg: Config, es: seq<Event>, s: State)
    requires Reached(cfg, es, s) && Quiescent(s)
    ensures forall i :: 0 <= i < |s.callers| && s.callers[i].outcome.Waiting? ==> InBatch(s.pending, i)
    ensures NeverStrands(cfg, Init(), es) ==> s.pending == []
    ensures NeverStrands(cfg, Init(), es) ==> forall i :: 0 <= i < |s.callers| ==> !s.callers[i].outcome.Waiting?
  {
    ReachedInv(cfg, es, s);
    QuiescentAnswers(cfg, s);
    PendingIffOneTimer(cfg, es, s);
  }

  // ---- the protocol comes to rest ----

  /** A step that neither asks for something new nor cancels anything. */
  predicate Progress(e: Event) {
    !e.EvAsk? && !e.EvCloseBegins? && !e.EvCallerLeaves? && !e.EvCloserLeaves? && !(e.EvFlushFails? && e.reason.FlushCancelled?)
  }

  predicate IsAtLock(c: Caller) { c.stage.AtLock? }

  predicate IsArmed(t: Timer) { t.Armed? }

  predicate IsCancelling(t: Timer) { t.Cancelling? }

  predicate IsAwaitingTimer(c: Closer) { c.AwaitsTimer? }

  predicate IsAwaitingLock(c: Closer) { c.AwaitsLock? }

  function TimerWork(timers: seq<Timer>): nat { 3 * Count(timers, IsArmed) + Count(timers, IsCancelling) }

  function CloserWork(closers: seq<Closer>): nat { 3 * Count(closers, IsAwaitingTimer) + 2 * Count(closers, IsAwaitingLock) }

  /** A bound on the steps the calls, timers, closes and the flush now under way can still take. */
  function Work(s: State): nat {
    4 * Count(s.callers, IsAtLock) + TimerWork(s.timers) + CloserWork(s.closers) + if s.flight.Some? then 1 else 0
  }

  lemma TimerOne(x: Timer)
    ensures TimerWork([x]) == if x.Armed? then 3 else if x.Cancelling? then 1 else 0
  {
    assert [x] == [] + [x];
    CountAppend([], x, IsArmed);
    CountAppend([], x, IsCancelling);
  }

  lemma CloserOne(x: Closer)
    ensures CloserWork([x]) == if x.AwaitsTimer? then 3 else if x.AwaitsLock? then 2 else 0
  {
    assert [x] == [] + [x];
    CountAppend([], x, IsAwaitingTimer);
    CountAppend([], x, IsAwaitingLock);
  }

  lemma TimerSet(timers: seq<Timer>, t: nat, x: Timer)
    requires t < |timers|
    ensures TimerWork(timers[t := x]) + TimerWork([timers[t]]) == TimerWork(timers) + TimerWork([x])
  {
    CountUpdate(timers, t, x, IsArmed);
    CountUpdate(timers, t, x, IsCancelling);
    TimerOne(x);
    TimerOne(timers[t]);
  }

  lemma CloserSet(closers: seq<Closer>, c: nat, x: Closer)
    requires c < |closers|
    ensures CloserWork(closers[c := x]) + CloserWork([closers[c]]) == CloserWork(closers) + CloserWork([x])
  {
    CountUpdate(closers, c, x, IsAwaitingTimer);
    CountUpdate(closers, c, x, IsAwaitingLock);
    CloserOne(x);
    CloserOne(closers[c]);
  }

  lemma StopTimerWork(timers: seq<Timer>, t: nat)
    ensures TimerWork(StopTimer(timers, t)) <= TimerWork(timers)
  {
    if t < |timers| && timers[t].Armed? {
      TimerSet(timers, t, Cancelling);
      TimerOne(Armed);
      TimerOne(Cancelling);
    }
  }

  /** Taking the batch pays for the flight with what its task had left to do. */
  lemma TakeBatchWork(s: State, owner: Owner)
    requires s.flight.None? && s.pending != [] && OwnerReady(s, owner) && TimerInv(s)
    ensures Work(TakeBatch(s, owner)) <= Work(s) + if owner.ByCaller? then 1 else -1
  {
    match owner
    case ByCaller(id) => if s.flushTask.Some? { StopTimerWork(s.timers, s.flushTask.value); }
    case ByTimer(t) =>
      TimerSet(s.timers, t, Flushing);
      TimerOne(Armed);
      TimerOne(Flushing);
    case ByCloser(c) =>
      if s.flushTask.Some? { StopTimerWork(s.timers, s.flushTask.value); }
      CloserSet(s.closers, c, Draining);
      CloserOne(s.closers[c]);
      CloserOne(Draining);
  }

  lemma EndFlushWork(s: State, s': State, closer: Closer)
    requires s.flight.Some? && (closer.Closed? || closer.Aborted?)
    requires s'.timers == EndFlush(s, closer).timers && s'.closers == EndFlush(s, closer).closers && s'.flight.None?
    requires SameCalls(s.callers, s'.callers)
    ensures Work(s') < Work(s)
  {
    var o := s.flight.value.owner;
    CountSame(s.callers, s'.callers, IsAtLock);
    if o.ByTimer? && o.t < |s.timers| {
      TimerSet(s.timers, o.t, Done);
      TimerOne(Done);
    }
    if o.ByCloser? && o.c < |s.closers| {
      CloserSet(s.closers, o.c, closer);
      CloserOne(closer);
    }
  }

  lemma EnterWork(cfg: Config, s: State, id: nat)
    requires s.flight.None? && CallerAt(s, id, AtLock) && TimerInv(s)
    ensures Work(Enter(cfg, s, id)) < Work(s)
  {
    var r := Request(cfg.hash(s.callers[id].text), s.callers[id].text, id);
    var s1 := s.(pending := s.pending + [r],
                 callers := s.callers[id := s.callers[id].(stage := Queued)],
                 log := s.log.(enqueued := s.log.enqueued + [r]));
    CountUpdate(s.callers, id, s1.callers[id], IsAtLock);
    assert Work(s1) + 4 == Work(s);
    if |s1.pending| >= cfg.maxBatch {
      EnterFlushWork(s1, id);
    } else {
      CountAppend(s.timers, Armed, IsArmed);
      CountAppend(s.timers, Armed, IsCancelling);
    }
  }

  lemma EnterFlushWork(s: State, id: nat)
    ensures Work(TakeBatch(s, ByCaller(id))) <= Work(s) + 1
  {
    if s.flushTask.Some? { StopTimerWork(s.timers, s.flushTask.value); }
  }

  lemma CloserDrainsWork(s: State, c: nat)
    requires CloserWaits(s, c) && TimerInv(s) && s.flight.None?
    ensures Work(CloserDrains(s, c)) < Work(s)
  {
    if s.lockMade && s.pending != [] {
      TakeBatchWork(s, ByCloser(c));
    } else {
      CloserSet(s.closers, c, Closed);
      CloserOne(s.closers[c]);
      CloserOne(Closed);
    }
  }

  lemma TimerDiesWork(s: State, t: nat)
    requires TimerAt(s, t, Cancelling)
    ensures Work(s.(timers := s.timers[t := Done])) < Work(s)
  {
    TimerSet(s.timers, t, Done);
    TimerOne(Cancelling);
    TimerOne(Done);
  }

  lemma CloserResumesWork(s: State, c: nat, queued: bool)
    requires c < |s.closers| && s.closers[c].AwaitsTimer?
    ensures Work(s.(closers := s.closers[c := AwaitsLock(queued)])) < Work(s)
  {
    CloserSet(s.closers, c, AwaitsLock(queued));
    CloserOne(s.closers[c]);
    CloserOne(AwaitsLock(queued));
  }

  lemma FlightEndsWork(cfg: Config, s: State, e: Event)
    requires ValidConfig(cfg) && Inv(cfg, s) && Enabled(s, e) && (e.EvAnswered? || (e.EvFlushFails? && e.reason.ProviderError?))
    ensures Work(Step(cfg, s, e)) < Work(s)
  {
    match e
    case EvAnswered(vectors) =>
      AnsweredCallers(cfg, s, vectors);
      EndFlushWork(s, Answered(cfg, s, vectors), Closed);
    case EvFlushFails(reason) =>
      FlushFailsCallers(cfg, s, reason);
      EndFlushWork(s, FlushFails(s, reason), Closed);
  }

  /** Every step that asks for nothing new brings the protocol closer to rest. */
  lemma ProgressDoesWork(cfg: Config, s: State, e: Event)
    requires ValidConfig(cfg) && Inv(cfg, s) && Enabled(s, e) && Progress(e)
    ensures Work(Step(cfg, s, e)) < Work(s)
  {
    match e
    case EvEnter(id) => EnterWork(cfg, s, id);
    case EvTimerWakes(t) => TakeBatchWork(s, ByTimer(t));
    case EvTimerDies(t) => TimerDiesWork(s, t);
    case EvAnswered(vectors) => FlightEndsWork(cfg, s, e);
    case EvFlushFails(reason) => FlightEndsWork(cfg, s, e);
    case EvCloserResumes(c) => CloserResumesWork(s, c, Contended(s));
    case EvCloserDrains(c) => CloserDrainsWork(s, c);
    case _ =>
  }

  ghost predicate AllProgress(es: seq<Event>) {
    forall k :: 0 <= k < |es| ==> Progress(es[k])
  }

  /** So a run of such steps is no longer than the work that was left, whatever its order. */
  lemma {:induction false} ProgressEnds(cfg: Config, s: State, es: seq<Event>)
    requires ValidConfig(cfg) && Inv(cfg, s) && AllProgress(es) && Exec(cfg, s, es).Some?
    ensures |es| <= Work(s)
    decreases |es|
  {
    if es != [] {
      InvKept(cfg, s, es[0]);
      ProgressDoesWork(cfg, s, es[0]);
      ProgressEnds(cfg, Step(cfg, s, es[0]), es[1..]);
    }
  }

  /** Without a lock nothing was ever queued: the branch of `flush_and_close` that would lose items
      loses none. */
  lemma NoLockMeansNothingPending(cfg: Config, es: seq<Event>, s: State, c: nat)
    requires Reached(cfg, es, s) && !s.lockMade && Enabled(s, EvCloserDrains(c))
    ensures s.pending == [] && Step(cfg, s, EvCloserDrains(c)).orphaned == s.orphaned
  {
    ReachedInv(cfg, es, s);
  }

  // ---- batches ----

  /** All batches ever flushed, joined, followed by what is pending, are the requests in the order
      they were queued; every batch has between one and `maxBatch` of them. */
  lemma BatchesPartitionTheQueue(cfg: Config, es: seq<Event>, s: State)
    requires Reached(cfg, es, s)
    ensures Flatten(s.log.batches) + s.pending == s.log.enqueued
    ensures forall b :: b in s.log.batches ==> 1 <= |b| <= cfg.maxBatch
    ensures |s.pending| < cfg.maxBatch
    ensures DistinctIds(s.log.enqueued)
    ensures forall id :: 0 <= id < |s.callers| ==> (s.callers[id].stage.Queued? <== InBatch(s.log.enqueued, id))
  {
    ReachedInv(cfg, es, s);
    forall id | 0 <= id < |s.callers| && InBatch(s.log.enqueued, id)
      ensures s.callers[id].stage.Queued?
    {
      var k :| 0 <= k < |s.log.enqueued| && s.log.enqueued[k].id == id;
      assert RequestOk(cfg, s.callers, s.log.enqueued[k]);
    }
  }

  // ---- settlement ----

  /** What the end of a flush gives the waiting future of its `k`-th request. */
  function Verdict(e: Event, size: nat, k: nat): Outcome
    requires k < size && (e.EvAnswered? || e.EvFlushFails?)
  {
    match e
    case EvAnswered(vectors) => if |vectors| == size then Resolved(vectors[k]) else Failed(SizeMismatch)
    case EvFlushFails(reason) => Failed(reason)
    case _ => Waiting
  }

  lemma VerdictReached(cfg: Config, s: State, e: Event, k: nat)
    requires 0 < cfg.cacheSize && LockInv(s) && Partition(cfg, s) && CallerInv(cfg, s)
    requires (e.EvAnswered? || e.EvFlushFails?) && Enabled(s, e) && k < |s.flight.value.batch|
    ensures var batch, after := s.flight.value.batch, Step(cfg, s, e).callers;
            && batch[k].id < |s.callers|
            && after[batch[k].id].outcome ==
               if s.callers[batch[k].id].outcome.Waiting? then Verdict(e, |batch|, k)
               else s.callers[batch[k].id].outcome
  {
    QueuedOnlyInBatch(cfg, s);
    var batch := s.flight.value.batch;
    assert RequestOk(cfg, s.callers, batch[k]);
    assert InBatch(batch, batch[k].id);
    match e
    case EvAnswered(vectors) =>
      if |vectors| == |batch| {
        ResolvedVerdict(s.callers, batch, vectors, k);
      } else {
        FailAllAt(s.callers, batch, SizeMismatch, batch[k].id);
      }
    case EvFlushFails(reason) =>
      FailAllAt(s.callers, batch, reason, batch[k].id);
  }

  lemma ResolvedVerdict(callers: seq<Caller>, batch: seq<Request>, vectors: seq<Vector>, k: nat)
    requires |batch| == |vectors| && DistinctIds(batch) && k < |batch| && batch[k].id < |callers|
    ensures ResolveAll(callers, batch, vectors)[batch[k].id].outcome ==
            if callers[batch[k].id].outcome.Waiting? then Resolved(vectors[k]) else callers[batch[k].id].outcome
  {
    assert InBatch(batch, batch[k].id);
    ResolveAllAt(callers, batch, vectors, batch[k].id);
  }

  /** On all four ways a flush ends - success, size mismatch, provider error, cancellation - every
      future of its batch is settled: those still waiting get the verdict, those already settled (by
      their caller's cancellation) keep what they have; no call outside the batch changes. */
  lemma FlushSettlesItsBatch(cfg: Config, es: seq<Event>, s: State, e: Event)
    requires Reached(cfg, es, s) && (e.EvAnswered? || e.EvFlushFails?) && Enabled(s, e)
    ensures var batch, after := s.flight.value.batch, Step(cfg, s, e).callers;
            && SettledBatch(s.callers, after, batch)
            && forall k :: 0 <= k < |batch| ==>
                 && batch[k].id < |s.callers|
                 && after[batch[k].id].outcome ==
                    if s.callers[batch[k].id].outcome.Waiting? then Verdict(e, |batch|, k)
                    else s.callers[batch[k].id].outcome
  {
    ReachedInv(cfg, es, s);
    if e.EvAnswered? { AnsweredCallers(cfg, s, e.vectors); } else { FlushFailsCallers(cfg, s, e.reason); }
    forall k | 0 <= k < |s.flight.value.batch| { VerdictReached(cfg, s, e, k); }
  }

  /** When a flush ends nobody is left waiting: not in its batch, and nobody could queue meanwhile. */
  lemma FlushLeavesNobodyWaiting(cfg: Config, es: seq<Event>, s: State, e: Event)
    requires Reached(cfg, es, s) && (e.EvAnswered? || e.EvFlushFails?) && Enabled(s, e)
    ensures var s' := Step(cfg, s, e);
            && s'.pending == []
            && forall i :: 0 <= i < |s'.callers| && s'.callers[i].stage.Queued? ==> !s'.callers[i].outcome.Waiting?
  {
    ReachedInv(cfg, es, s);
    InvKept(cfg, s, e);
    assert NoneForgotten(Step(cfg, s, e));
  }

  lemma StepKeepsSettled(cfg: Config, s: State, e: Event)
    requires ValidConfig(cfg) && Inv(cfg, s) && Enabled(s, e)
    ensures |s.callers| <= |Step(cfg, s, e).callers|
    ensures forall i :: 0 <= i < |s.callers| && !s.callers[i].outcome.Waiting? ==>
              Step(cfg, s, e).callers[i].outcome == s.callers[i].outcome
    ensures forall i :: 0 <= i < |s.callers| ==> Step(cfg, s, e).callers[i].text == s.callers[i].text
  {
    match e
    case EvAnswered(vectors) => AnsweredCallers(cfg, s, vectors);
    case EvFlushFails(reason) => FlushFailsCallers(cfg, s, reason);
    case EvAsk(text) =>
    case _ => QuietStep(cfg, s, e);
  }

  /** A future is settled at most once: whatever a call has come to, it keeps for the rest of the run. */
  lemma {:induction false} SettledForGood(cfg: Config, s: State, es: seq<Event>, i: nat)
    requires ValidConfig(cfg) && Inv(cfg, s) && i < |s.callers| && !s.callers[i].outcome.Waiting?
    requires Exec(cfg, s, es).Some?
    ensures var s' := Exec(cfg, s, es).value;
            i < |s'.callers| && s'.callers[i].outcome == s.callers[i].outcome && s'.callers[i].text == s.callers[i].text
    decreases |es|
  {
    if es != [] {
      InvKept(cfg, s, es[0]);
      StepKeepsSettled(cfg, s, es[0]);
      SettledForGood(cfg, Step(cfg, s, es[0]), es[1..], i);
    }
  }

  // ---- where vectors come from ----

  /** Any vector `embed_one` returns, by cache hit or by flush, the provider returned at the position
      of an identical text. */
  lemma VectorsAreTraceable(cfg: Config, es: seq<Event>, s: State, i: nat)
    requires Reached(cfg, es, s) && i < |s.callers| && s.callers[i].outcome.Resolved?
    ensures Provided(s.log.answers, s.callers[i].text, s.callers[i].outcome.v)
  {
    ReachedInv(cfg, es, s);
  }

  /** The calls `embed_batch` makes for `texts`, and what `gather` returns for them. */
  ghost predicate Gathers(s: State, texts: seq<string>, ids: seq<nat>, results: seq<Vector>) {
    && |texts| == |ids| == |results|
    && forall k :: 0 <= k < |ids| ==>
         && ids[k] < |s.callers|
         && s.callers[ids[k]].text == texts[k]
         && s.callers[ids[k]].outcome == Resolved(results[k])
  }

  /** `embed_batch` keeps order: its `k`-th result was provided for its `k`-th text, however the calls
      were interleaved with others, batched or served from the cache. */
  lemma EmbedBatchKeepsOrder(cfg: Config, es: seq<Event>, s: State, texts: seq<string>, ids: seq<nat>, results: seq<Vector>)
    requires Reached(cfg, es, s) && Gathers(s, texts, ids, results)
    ensures |results| == |texts|
    ensures forall k :: 0 <= k < |texts| ==> Provided(s.log.answers, texts[k], results[k])
  {
    forall k | 0 <= k < |texts|
      ensures Provided(s.log.answers, texts[k], results[k])
    {
      VectorsAreTraceable(cfg, es, s, ids[k]);
    }
  }

  /** In every run the cache is a duplicate-free suffix of the keys ordered by last hit or put. */
  lemma CacheSoundInEveryRun(cfg: Config, es: seq<Event>, s: State)
    requires Reached(cfg, es, s)
    ensures Sound(s.cache, cfg.cacheSize, Recency(s.log.touches))
    ensures ShrinkFree(s.log.touches, cfg.cacheSize) ==> ExactlyLru(s.cache, cfg.cacheSize, Recency(s.log.touches))
  {
    ReachedInv(cfg, es, s);
    CacheIsRecencySuffix(s.log.touches, cfg.cacheSize, s.cache);
    if ShrinkFree(s.log.touches, cfg.cacheSize) {
      LruWhenShrinkFree(s.log.touches, cfg.cacheSize, s.cache);
    }
  }

  // ---- the counters ----

  predicate Lost(c: Caller) {
    c.outcome.Failed? && !c.outcome.reason.SizeMismatch?
  }

  predicate WasServed(c: Caller) { c.stage.Served? }

  lemma {:induction false} OrphansAreNewlyLost(callers: seq<Caller>, batch: seq<Request>, reason: Failure)
    requires !reason.SizeMismatch?
    ensures Count(FailAll(callers, batch, reason), Lost) == Count(callers, Lost) + Orphans(callers, batch, reason)
  {
    if batch != [] {
      var n := |batch| - 1;
      OrphansAreNewlyLost(callers, batch[..n], reason);
      var before := FailAll(callers, batch[..n], reason);
      var id := batch[n].id;
      if id < |before| && before[id].outcome.Waiting? {
        CountUpdate(before, id, before[id].(outcome := Failed(reason)), Lost);
      }
    }
  }

  predicate IsProviderError(f: Failure) { !f.FlushCancelled? }

  predicate RightSize(a: Answer) { |a.vectors| == |a.texts| }

  /** Every batch taken is in flight, answered in full or failed for a logged reason. */
  ghost predicate OutcomesInv(s: State) {
    && s.providerErrors == Count(s.log.failures, IsProviderError)
    && |s.log.batches| == Count(s.log.answers, RightSize) + |s.log.failures| + if s.flight.Some? then 1 else 0
  }

  lemma AnsweredOutcomes(cfg: Config, s: State, vectors: seq<Vector>)
    requires 0 < cfg.cacheSize && s.flight.Some? && OutcomesInv(s)
    ensures OutcomesInv(Answered(cfg, s, vectors))
  {
    CountAppend(s.log.answers, Answer(Texts(s.flight.value.batch), vectors), RightSize);
    CountAppend(s.log.failures, SizeMismatch, IsProviderError);
  }

  lemma FailedOutcomes(s: State, reason: Failure)
    requires s.flight.Some? && OutcomesInv(s) && !reason.SizeMismatch?
    ensures OutcomesInv(FlushFails(s, reason))
  {
    CountAppend(s.log.failures, reason, IsProviderError);
  }

  /** Any other step either takes a batch or leaves all this alone. */
  lemma OtherOutcomes(cfg: Config, s: State, e: Event)
    requires 0 < cfg.cacheSize && Enabled(s, e) && !e.EvAnswered? && !e.EvFlushFails?
    requires !s.lockMade ==> s.flight.None?
    ensures var s' := Step(cfg, s, e);
            && s'.providerErrors == s.providerErrors
            && s'.log.answers == s.log.answers && s'.log.failures == s.log.failures
            && |s'.log.batches| + (if s.flight.Some? then 1 else 0) == |s.log.batches| + if s'.flight.Some? then 1 else 0
  {
  }

  lemma OutcomesKept(cfg: Config, s: State, e: Event)
    requires ValidConfig(cfg) && Inv(cfg, s) && Enabled(s, e) && OutcomesInv(s)
    ensures OutcomesInv(Step(cfg, s, e))
  {
    match e
    case EvAnswered(vectors) => AnsweredOutcomes(cfg, s, vectors);
    case EvFlushFails(reason) => FailedOutcomes(s, reason);
    case _ => OtherOutcomes(cfg, s, e);
  }

  lemma {:induction false} RunKeepsOutcomes(cfg: Config, s: State, es: seq<Event>)
    requires ValidConfig(cfg) && Inv(cfg, s) && OutcomesInv(s)
    ensures Exec(cfg, s, es).Some? ==> OutcomesInv(Exec(cfg, s, es).value)
    decreases |es|
  {
    if es != [] && Enabled(s, es[0]) {
      InvKept(cfg, s, es[0]);
      OutcomesKept(cfg, s, es[0]);
      RunKeepsOutcomes(cfg, Step(cfg, s, es[0]), es[1..]);
    }
  }

  ghost predicate StatsInv(s: State) {
    && s.orphaned == Count(s.callers, Lost)
    && s.cacheHits == Count(s.callers, WasServed)
  }

  lemma AnsweredStats(cfg: Config, s: State, vectors: seq<Vector>)
    requires ValidConfig(cfg) && LockInv(s) && Partition(cfg, s) && CallerInv(cfg, s) && s.flight.Some? && StatsInv(s)
    ensures StatsInv(Answered(cfg, s, vectors))
  {
    var s' := Answered(cfg, s, vectors);
    var batch := s.flight.value.batch;
    AnsweredCallers(cfg, s, vectors);
    QueuedOnlyInBatch(cfg, s);
    CountSame(s.callers, s'.callers, WasServed);
    forall i | 0 <= i < |s.callers|
      ensures Lost(s.callers[i]) == Lost(s'.callers[i])
    {
      if |vectors| == |batch| {
        ResolveAllAt(s.callers, batch, vectors, i);
      } else {
        FailAllAt(s.callers, batch, SizeMismatch, i);
      }
    }
    CountSame(s.callers, s'.callers, Lost);
  }

  lemma FlushFailsStats(cfg: Config, s: State, reason: Failure)
    requires LockInv(s) && Partition(cfg, s) && CallerInv(cfg, s) && s.flight.Some? && StatsInv(s) && !reason.SizeMismatch?
    ensures StatsInv(FlushFails(s, reason))
  {
    FlushFailsCallers(cfg, s, reason);
    CountSame(s.callers, FlushFails(s, reason).callers, WasServed);
    OrphansAreNewlyLost(s.callers, s.flight.value.batch, reason);
  }

  lemma QuietStats(cfg: Config, s: State, e: Event)
    requires 0 < cfg.cacheSize && Enabled(s, e) && !e.EvAsk? && !e.EvAnswered? && !e.EvFlushFails?
    requires LogInv(cfg, s)
    ensures Step(cfg, s, e).cacheHits == s.cacheHits && Step(cfg, s, e).orphaned == s.orphaned
    ensures forall i :: 0 <= i < |s.callers| ==>
              && Lost(s.callers[i]) == Lost(Step(cfg, s, e).callers[i])
              && (StageOk(s.callers[i]) ==> WasServed(s.callers[i]) == WasServed(Step(cfg, s, e).callers[i]))
  {
  }

  lemma StatsKept(cfg: Config, s: State, e: Event)
    requires ValidConfig(cfg) && Inv(cfg, s) && Enabled(s, e) && StatsInv(s)
    ensures StatsInv(Step(cfg, s, e))
  {
    match e
    case EvAsk(text) => AskStats(cfg, s, text);
    case EvAnswered(vectors) => AnsweredStats(cfg, s, vectors);
    case EvFlushFails(reason) => FlushFailsStats(cfg, s, reason);
    case _ => QuietKeepsStats(cfg, s, e);
  }

  lemma AskStats(cfg: Config, s: State, text: string)
    requires StatsInv(s)
    ensures StatsInv(Ask(cfg, s, text))
  {
    var key := cfg.hash(text);
    if key in s.cache.vals {
      NewcomerCounts(s.callers, Caller(text, Served, Resolved(s.cache.vals[key])));
    } else {
      NewcomerCounts(s.callers, Caller(text, AtLock, Waiting));
    }
  }

  lemma NewcomerCounts(callers: seq<Caller>, c: Caller)
    requires c.outcome.Resolved? || c.outcome.Waiting?
    ensures Count(callers + [c], Lost) == Count(callers, Lost)
    ensures Count(callers + [c], WasServed) == Count(callers, WasServed) + if c.stage.Served? then 1 else 0
  {
    CountAppend(callers, c, Lost);
    CountAppend(callers, c, WasServed);
  }

  lemma QuietKeepsStats(cfg: Config, s: State, e: Event)
    requires ValidConfig(cfg) && Inv(cfg, s) && Enabled(s, e) && StatsInv(s)
    requires !e.EvAsk? && !e.EvAnswered? && !e.EvFlushFails?
    ensures StatsInv(Step(cfg, s, e))
  {
    QuietStep(cfg, s, e);
    QuietStats(cfg, s, e);
    CountSame(s.callers, Step(cfg, s, e).callers, WasServed);
    CountSame(s.callers, Step(cfg, s, e).callers, Lost);
  }

  lemma {:induction false} RunKeepsStats(cfg: Config, s: State, es: seq<Event>)
    requires ValidConfig(cfg) && Inv(cfg, s) && StatsInv(s)
    ensures Exec(cfg, s, es).Some? ==> StatsInv(Exec(cfg, s, es).value)
    decreases |es|
  {
    if es != [] && Enabled(s, es[0]) {
      InvKept(cfg, s, es[0]);
      StatsKept(cfg, s, es[0]);
      RunKeepsStats(cfg, Step(cfg, s, es[0]), es[1..]);
    }
  }

  /** The figures of `stats()` are true in every run. */
  lemma StatsAreTrue(cfg: Config, es: seq<Event>, s: State)
    requires Reached(cfg, es, s)
    ensures s.totalRequests == |s.callers|
    ensures s.cacheHits == Count(s.callers, WasServed)
    ensures s.flushCount == |s.log.batches|
    ensures s.orphaned == Count(s.callers, Lost)
    ensures s.providerErrors == Count(s.log.failures, IsProviderError)
    ensures s.flushCount == Count(s.log.answers, RightSize) + |s.log.failures| + if s.flight.Some? then 1 else 0
  {
    ReachedInv(cfg, es, s);
    assert Inv(cfg, Init());
    RunKeepsStats(cfg, Init(), es);
    RunKeepsOutcomes(cfg, Init(), es);
  }
}
