/** What every step of the batching protocol keeps. */
module BatchInvariants {
  import opened Sequences
  import opened EmbeddingCache
  import opened BatchProtocol

  ghost predicate InBatch(batch: seq<Request>, id: nat) {
    exists k :: 0 <= k < |batch| && batch[k].id == id
  }

  /** While a flush is in flight nothing is pending and no timer is recorded, and the flush belongs
      to exactly one task. */
  ghost predicate LockInv(s: State) {
    && (s.flight.Some? ==>
          && s.pending == []
          && s.flushTask.None?
          && s.log.batches != []
          && s.flight.value.batch == s.log.batches[|s.log.batches| - 1]
          && (s.flight.value.owner.ByCaller? ==> InBatch(s.flight.value.batch, s.flight.value.owner.id)))
    && (s.flight.Some? && s.flight.value.owner.ByTimer? ==> s.flight.value.owner.t < |s.timers|)
    && (s.flight.Some? && s.flight.value.owner.ByCloser? ==> s.flight.value.owner.c < |s.closers|)
    && (forall t :: 0 <= t < |s.timers| ==>
          (s.timers[t].Flushing? <==> s.flight.Some? && s.flight.value.owner == ByTimer(t)))
    && (forall c :: 0 <= c < |s.closers| ==>
          (s.closers[c].Draining? <==> s.flight.Some? && s.flight.value.owner == ByCloser(c)))
  }

  ghost predicate SomeArmed(s: State) {
    exists t :: 0 <= t < |s.timers| && s.timers[t].Armed?
  }

  /** A close has begun and has not reached its drain. */
  ghost predicate Closing(s: State) {
    exists c :: 0 <= c < |s.closers| && (s.closers[c].AwaitsTimer? || s.closers[c].AwaitsLock?)
  }

  ghost predicate TimerInv(s: State) {
    && (s.flushTask.Some? ==> s.flushTask.value < |s.timers|)
    && (forall t :: 0 <= t < |s.timers| && s.timers[t].Armed? ==> s.flushTask == Some(t) && s.pending != [])
    && (s.flushTask.Some? && s.timers[s.flushTask.value].Cancelling? ==> AwaitedBySome(s, s.flushTask.value))
    && (forall c :: 0 <= c < |s.closers| && s.closers[c].AwaitsTimer? ==>
          s.closers[c].t < |s.timers| && (s.timers[s.closers[c].t].Cancelling? || s.timers[s.closers[c].t].Done?))
  }

  ghost predicate AwaitedBySome(s: State, t: nat) {
    exists c :: 0 <= c < |s.closers| && s.closers[c] == AwaitsTimer(t)
  }

  /** No request waits for a flush that nobody will start. */
  ghost predicate Attended(s: State) {
    s.pending != [] ==> SomeArmed(s) || Closing(s)
  }

  /** All batches flushed, then what is pending, are the requests in the order they were queued. */
  ghost predicate Partition(cfg: Config, s: State) {
    && Flatten(s.log.batches) + s.pending == s.log.enqueued
    && (forall b :: b in s.log.batches ==> 1 <= |b| <= cfg.maxBatch)
    && s.flushCount == |s.log.batches|
  }

  ghost predicate LogInv(cfg: Config, s: State) {
    && Partition(cfg, s)
    && |s.pending| < cfg.maxBatch
    && s.totalRequests == |s.callers|
    && (!s.lockMade ==> s.log.enqueued == [] && s.flight.None? && AllServed(s.callers))
  }

  ghost predicate AllServed(callers: seq<Caller>) {
    forall i :: 0 <= i < |callers| ==> callers[i].stage.Served?
  }

  ghost predicate RequestOk(cfg: Config, callers: seq<Caller>, r: Request) {
    && r.id < |callers|
    && callers[r.id].stage.Queued?
    && callers[r.id].text == r.text
    && r.key == cfg.hash(r.text)
  }

  ghost predicate RequestsOk(cfg: Config, callers: seq<Caller>, enqueued: seq<Request>) {
    && (forall k :: 0 <= k < |enqueued| ==> RequestOk(cfg, callers, enqueued[k]))
    && DistinctIds(enqueued)
  }

  ghost predicate DistinctIds(rs: seq<Request>) {
    forall i, j :: 0 <= i < j < |rs| ==> rs[i].id != rs[j].id
  }

  ghost predicate StageOk(c: Caller) {
    match c.stage
    case AtLock => c.outcome.Waiting?
    case Served => c.outcome.Resolved?
    case Withdrawn => c.outcome.Cancelled?
    case Queued => true
  }

  /** A queued call that is still waiting is pending or in the flight. */
  ghost predicate InReach(s: State, id: nat) {
    InBatch(s.pending, id) || (s.flight.Some? && InBatch(s.flight.value.batch, id))
  }

  ghost predicate NoneForgotten(s: State) {
    forall id :: 0 <= id < |s.callers| && s.callers[id].stage.Queued? && s.callers[id].outcome.Waiting? ==>
      InReach(s, id)
  }

  ghost predicate CallerInv(cfg: Config, s: State) {
    && RequestsOk(cfg, s.callers, s.log.enqueued)
    && (forall i :: 0 <= i < |s.callers| ==> StageOk(s.callers[i]))
    && NoneForgotten(s)
  }

  /** The provider returned `v` in the position of `text`. */
  ghost predicate Provided(answers: seq<Answer>, text: string, v: Vector) {
    exists n, i ::
      && 0 <= n < |answers|
      && |answers[n].texts| == |answers[n].vectors|
      && 0 <= i < |answers[n].texts|
      && answers[n].texts[i] == text
      && answers[n].vectors[i] == v
  }

  ghost predicate EntryTraced(cfg: Config, answers: seq<Answer>, key: string, v: Vector) {
    exists text :: cfg.hash(text) == key && Provided(answers, text, v)
  }

  ghost predicate CacheTraced(cfg: Config, answers: seq<Answer>, cache: Cache) {
    forall k :: k in cache.vals ==> EntryTraced(cfg, answers, k, cache.vals[k])
  }

  ghost predicate TraceInv(cfg: Config, s: State)
    requires 0 < cfg.cacheSize
  {
    && Reaches(s.log.touches, cfg.cacheSize, s.cache)
    && CacheTraced(cfg, s.log.answers, s.cache)
    && (forall i :: 0 <= i < |s.callers| && s.callers[i].outcome.Resolved? ==>
          Provided(s.log.answers, s.callers[i].text, s.callers[i].outcome.v))
  }

  ghost predicate Inv(cfg: Config, s: State)
    requires 0 < cfg.cacheSize
  {
    LockInv(s) && TimerInv(s) && LogInv(cfg, s) && CallerInv(cfg, s) && TraceInv(cfg, s)
  }

  // ---- settling, future by future ----

  lemma {:induction false} FailAllAt(callers: seq<Caller>, batch: seq<Request>, reason: Failure, i: nat)
    requires i < |callers|
    ensures FailAll(callers, batch, reason)[i] ==
            if callers[i].outcome.Waiting? && InBatch(batch, i) then callers[i].(outcome := Failed(reason))
            else callers[i]
  {
    if batch != [] {
      var n := |batch| - 1;
      FailAllAt(callers, batch[..n], reason, i);
      if InBatch(batch[..n], i) {
        var k :| 0 <= k < n && batch[..n][k].id == i;
        assert batch[k].id == i;
      }
      if InBatch(batch, i) && batch[n].id != i {
        var k :| 0 <= k < |batch| && batch[k].id == i;
        assert batch[..n][k].id == i;
      }
    }
  }

  lemma {:induction false} ResolveAllAt(callers: seq<Caller>, batch: seq<Request>, vectors: seq<Vector>, i: nat)
    requires |batch| == |vectors| && i < |callers| && DistinctIds(batch)
    ensures callers[i].outcome.Waiting? && InBatch(batch, i) ==>
              exists k :: 0 <= k < |batch| && batch[k].id == i
                          && ResolveAll(callers, batch, vectors)[i] == callers[i].(outcome := Resolved(vectors[k]))
    ensures !(callers[i].outcome.Waiting? && InBatch(batch, i)) ==> ResolveAll(callers, batch, vectors)[i] == callers[i]
  {
    if batch != [] {
      var n := |batch| - 1;
      ResolveAllAt(callers, batch[..n], vectors[..n], i);
      if InBatch(batch[..n], i) {
        var k :| 0 <= k < n && batch[..n][k].id == i;
        assert batch[k].id == i;
      }
      if InBatch(batch, i) && batch[n].id != i {
        var k :| 0 <= k < |batch| && batch[k].id == i;
        assert batch[..n][k].id == i;
      }
    }
  }

  // ---- one lemma per part of the invariant ----

  ghost predicate OwnerReady(s: State, owner: Owner) {
    match owner
    case ByCaller(id) => InBatch(s.pending, id)
    case ByTimer(t) => t < |s.timers| && s.timers[t].Armed?
    case ByCloser(c) => c < |s.closers| && s.closers[c].AwaitsLock?
  }

  /** Taking the batch stops every timer but the one that runs the flush: it never cancels itself. */
  lemma TakeBatchKeeps(s: State, owner: Owner)
    requires LockInv(s) && TimerInv(s) && s.flight.None? && s.pending != [] && OwnerReady(s, owner)
    ensures LockInv(TakeBatch(s, owner)) && TimerInv(TakeBatch(s, owner))
    ensures !SomeArmed(TakeBatch(s, owner))
  {
    var s' := TakeBatch(s, owner);
    forall t | 0 <= t < |s'.timers|
      ensures !s'.timers[t].Armed?
      ensures s'.timers[t].Flushing? <==> owner == ByTimer(t)
    {
      assert !s.timers[t].Flushing?;
    }
  }

  lemma EndFlushKeeps(s: State, closer: Closer)
    requires LockInv(s) && TimerInv(s) && s.flight.Some? && (closer.Closed? || closer.Aborted?)
    ensures LockInv(EndFlush(s, closer)) && TimerInv(EndFlush(s, closer))
  {
  }

  lemma EnterKeeps(cfg: Config, s: State, id: nat)
    requires LockInv(s) && TimerInv(s) && s.flight.None? && CallerAt(s, id, AtLock)
    ensures LockInv(Enter(cfg, s, id)) && TimerInv(Enter(cfg, s, id))
  {
    var r := Request(cfg.hash(s.callers[id].text), s.callers[id].text, id);
    var s1 := s.(pending := s.pending + [r],
                 callers := s.callers[id := s.callers[id].(stage := Queued)],
                 log := s.log.(enqueued := s.log.enqueued + [r]));
    assert s1.pending[|s.pending|].id == id;
    assert LockInv(s1) && TimerInv(s1);
    if |s1.pending| >= cfg.maxBatch {
      TakeBatchKeeps(s1, ByCaller(id));
    } else if s.flushTask.Some? && s.timers[s.flushTask.value].Cancelling? {
      assert AwaitedBySome(s, s.flushTask.value);
    }
  }

  lemma CloseBeginsKeeps(s: State)
    requires LockInv(s) && TimerInv(s)
    ensures LockInv(CloseBegins(s)) && TimerInv(CloseBegins(s))
  {
    var s' := CloseBegins(s);
    if s'.flushTask.Some? && s'.timers[s'.flushTask.value].Cancelling? {
      assert s'.closers[|s.closers|] == AwaitsTimer(s'.flushTask.value);
    }
  }

  lemma CloserMovesKeeps(s: State, c: nat, st: Closer)
    requires LockInv(s) && TimerInv(s) && c < |s.closers|
    requires !s.closers[c].Draining? && (s.closers[c].AwaitsTimer? ==> s.closers[c].t < |s.timers| && s.timers[s.closers[c].t].Done?)
    requires st.AwaitsLock? || st.Closed? || st.Aborted?
    ensures LockInv(s.(closers := s.closers[c := st])) && TimerInv(s.(closers := s.closers[c := st]))
  {
    var s' := s.(closers := s.closers[c := st]);
    if s.flushTask.Some? && s.timers[s.flushTask.value].Cancelling? {
      var d :| 0 <= d < |s.closers| && s.closers[d] == AwaitsTimer(s.flushTask.value);
      assert s'.closers[d] == AwaitsTimer(s.flushTask.value);
    }
  }

  lemma TimerEndsKeeps(s: State, t: nat)
    requires LockInv(s) && TimerInv(s) && t < |s.timers| && (s.timers[t].Armed? || s.timers[t].Cancelling?)
    ensures LockInv(s.(timers := s.timers[t := Done])) && TimerInv(s.(timers := s.timers[t := Done]))
  {
  }

  ghost predicate ControlInv(s: State) { LockInv(s) && TimerInv(s) }

  /** The control part of the invariant reads nothing else than these fields. */
  lemma SameControl(s: State, s': State)
    requires ControlInv(s)
    requires s.pending == s'.pending && s.flushTask == s'.flushTask && s.flight == s'.flight
    requires s.timers == s'.timers && s.closers == s'.closers && s.log.batches == s'.log.batches
    ensures ControlInv(s')
  {
    if s'.flushTask.Some? && s'.timers[s'.flushTask.value].Cancelling? {
      assert AwaitedBySome(s, s.flushTask.value);
    }
  }

  lemma AnsweredControl(cfg: Config, s: State, vectors: seq<Vector>)
    requires 0 < cfg.cacheSize && s.flight.Some? && ControlInv(s)
    ensures ControlInv(Answered(cfg, s, vectors))
  {
    EndFlushKeeps(s, Closed);
    SameControl(EndFlush(s, Closed), Answered(cfg, s, vectors));
  }

  lemma FlushFailsControl(s: State, reason: Failure)
    requires s.flight.Some? && ControlInv(s)
    ensures ControlInv(FlushFails(s, reason))
  {
    var closer := if reason.FlushCancelled? then Aborted else Closed;
    EndFlushKeeps(s, closer);
    SameControl(EndFlush(s, closer), FlushFails(s, reason));
  }

  lemma ControlKept(cfg: Config, s: State, e: Event)
    requires 0 < cfg.cacheSize && Enabled(s, e) && ControlInv(s)
    ensures ControlInv(Step(cfg, s, e))
  {
    match e
    case EvAsk(text) => SameControl(s, Ask(cfg, s, text));
    case EvEnter(id) => EnterKeeps(cfg, s, id);
    case EvTimerWakes(t) => if s.pending != [] { TakeBatchKeeps(s, ByTimer(t)); } else { TimerEndsKeeps(s, t); }
    case EvTimerDies(t) => TimerEndsKeeps(s, t);
    case EvAnswered(vectors) => AnsweredControl(cfg, s, vectors);
    case EvFlushFails(reason) => FlushFailsControl(s, reason);
    case EvCallerLeaves(id) => SameControl(s, CallerLeaves(s, id));
    case EvCloseBegins => CloseBeginsKeeps(s);
    case EvCloserResumes(c) => CloserMovesKeeps(s, c, AwaitsLock(Contended(s)));
    case EvCloserDrains(c) => CloserDrainsControl(s, c);
    case EvCloserLeaves(c) => CloserMovesKeeps(s, c, Aborted);
  }

  lemma CloserDrainsControl(s: State, c: nat)
    requires CloserWaits(s, c) && (s.lockMade ==> s.flight.None?) && ControlInv(s)
    ensures ControlInv(CloserDrains(s, c))
  {
    if s.lockMade && s.pending != [] {
      TakeBatchKeeps(s, ByCloser(c));
    } else {
      CloserMovesKeeps(s, c, Closed);
      SameControl(s.(closers := s.closers[c := Closed]), CloserDrains(s, c));
    }
  }

  ghost predicate OtherClosing(s: State, c: nat) {
    exists d :: 0 <= d < |s.closers| && d != c && (s.closers[d].AwaitsTimer? || s.closers[d].AwaitsLock?)
  }

  /** A close is cancelled while it queues for the lock, something is pending, and neither a live timer nor
      another close will see to it. */
  ghost predicate Strands(s: State, e: Event) {
    e.EvCloserLeaves? && s.pending != [] && !SomeArmed(s) && !OtherClosing(s, e.c)
  }

  /** That is the one step that leaves requests unattended. */
  lemma AttendedUnlessStranded(cfg: Config, s: State, e: Event)
    requires 0 < cfg.cacheSize && Enabled(s, e) && LockInv(s) && TimerInv(s) && LogInv(cfg, s) && Attended(s)
    ensures Attended(Step(cfg, s, e)) <==> !Strands(s, e)
  {
    if e.EvCloserLeaves? { LeavingAttended(cfg, s, e); } else { AttendedKept(cfg, s, e); }
  }

  lemma LeavingAttended(cfg: Config, s: State, e: Event)
    requires 0 < cfg.cacheSize && Enabled(s, e) && e.EvCloserLeaves? && Attended(s)
    ensures Attended(Step(cfg, s, e)) <==> !Strands(s, e)
  {
    var s' := Step(cfg, s, e);
    if SomeArmed(s) {
      var t :| 0 <= t < |s.timers| && s.timers[t].Armed?;
      assert s'.timers[t].Armed?;
    }
    if OtherClosing(s, e.c) {
      var d :| 0 <= d < |s.closers| && d != e.c && (s.closers[d].AwaitsTimer? || s.closers[d].AwaitsLock?);
      assert s'.closers[d] == s.closers[d];
    }
    if Closing(s') {
      var d :| 0 <= d < |s'.closers| && (s'.closers[d].AwaitsTimer? || s'.closers[d].AwaitsLock?);
      assert s'.closers[d] == s.closers[d] && d != e.c;
    }
  }

  /** A stranded request is not lost for good: the next one queued brings a timer or a flush. */
  lemma NextRequestRescues(cfg: Config, s: State, id: nat)
    requires 0 < cfg.cacheSize && Enabled(s, EvEnter(id)) && LockInv(s) && TimerInv(s)
    ensures Attended(Step(cfg, s, EvEnter(id)))
  {
    var s' := Step(cfg, s, EvEnter(id));
    if s'.pending != [] { EnterAttended(cfg, s, id); }
  }

  lemma EnterAttended(cfg: Config, s: State, id: nat)
    requires Enabled(s, EvEnter(id)) && LockInv(s) && TimerInv(s) && Enter(cfg, s, id).pending != []
    ensures SomeArmed(Enter(cfg, s, id)) || Closing(Enter(cfg, s, id))
  {
    var s' := Enter(cfg, s, id);
    if s.flushTask.None? || s.timers[s.flushTask.value].Done? {
      assert s'.timers[|s.timers|].Armed?;
    } else if s.timers[s.flushTask.value].Armed? {
      assert s'.timers[s.flushTask.value].Armed?;
    } else {
      var c :| 0 <= c < |s.closers| && s.closers[c] == AwaitsTimer(s.flushTask.value);
      assert s'.closers[c].AwaitsTimer?;
    }
  }

  lemma AttendedKept(cfg: Config, s: State, e: Event)
    requires 0 < cfg.cacheSize && Enabled(s, e) && LockInv(s) && TimerInv(s) && LogInv(cfg, s) && Attended(s)
    requires !e.EvCloserLeaves?
    ensures Attended(Step(cfg, s, e))
  {
    var s' := Step(cfg, s, e);
    if s'.pending == [] {
    } else if e.EvEnter? {
      NextRequestRescues(cfg, s, e.id);
    } else if SomeArmed(s) {
      var t :| 0 <= t < |s.timers| && s.timers[t].Armed?;
      if e.EvCloseBegins? {
        assert s'.closers[|s.closers|].AwaitsTimer?;
      } else {
        assert s'.timers[t].Armed?;
      }
    } else {
      var c :| 0 <= c < |s.closers| && (s.closers[c].AwaitsTimer? || s.closers[c].AwaitsLock?);
      assert s'.closers[c].AwaitsTimer? || s'.closers[c].AwaitsLock?;
    }
  }

  // ---- nothing lost, duplicated or reordered ----

  lemma TakeBatchPartition(cfg: Config, s: State, owner: Owner)
    requires Partition(cfg, s) && 1 <= |s.pending| <= cfg.maxBatch
    ensures Partition(cfg, TakeBatch(s, owner))
  {
    var s' := TakeBatch(s, owner);
    var n := |s.log.batches|;
    assert s'.log.batches[..n] == s.log.batches;
    assert Flatten(s'.log.batches) + [] == Flatten(s.log.batches) + s.pending;
  }

  lemma EnterLog(cfg: Config, s: State, id: nat)
    requires ValidConfig(cfg) && s.flight.None? && CallerAt(s, id, AtLock) && LogInv(cfg, s)
    ensures LogInv(cfg, Enter(cfg, s, id))
  {
    var r := Request(cfg.hash(s.callers[id].text), s.callers[id].text, id);
    var s1 := s.(pending := s.pending + [r],
                 callers := s.callers[id := s.callers[id].(stage := Queued)],
                 log := s.log.(enqueued := s.log.enqueued + [r]));
    assert Flatten(s.log.batches) + (s.pending + [r]) == s.log.enqueued + [r];
    assert !s.callers[id].stage.Served?;
    TakeBatchPartition(cfg, s1, ByCaller(id));
  }

  lemma SameLog(cfg: Config, s: State, s': State)
    requires LogInv(cfg, s)
    requires s.pending == s'.pending && s.flushCount == s'.flushCount
    requires s.log.batches == s'.log.batches && s.log.enqueued == s'.log.enqueued
    requires s'.totalRequests == |s'.callers| && (s.lockMade ==> s'.lockMade)
    requires !s'.lockMade ==> s'.flight.None? && AllServed(s'.callers)
    ensures LogInv(cfg, s')
  {
  }

  lemma LogInvKept(cfg: Config, s: State, e: Event)
    requires ValidConfig(cfg) && Enabled(s, e) && LogInv(cfg, s)
    requires forall i :: 0 <= i < |s.callers| ==> StageOk(s.callers[i])
    ensures LogInv(cfg, Step(cfg, s, e))
  {
    match e
    case EvEnter(id) => EnterLog(cfg, s, id);
    case EvTimerWakes(t) => TimerWakesLog(cfg, s, t);
    case EvCloserDrains(c) => CloserDrainsLog(cfg, s, c);
    case EvCallerLeaves(id) =>
      assert !s.callers[id].stage.Served?;
      SameLog(cfg, s, CallerLeaves(s, id));
    case _ => SameLog(cfg, s, Step(cfg, s, e));
  }

  lemma TimerWakesLog(cfg: Config, s: State, t: nat)
    requires ValidConfig(cfg) && TimerAt(s, t, Armed) && s.flight.None? && LogInv(cfg, s)
    ensures LogInv(cfg, TimerWakes(s, t))
  {
    if s.pending != [] { TakeBatchPartition(cfg, s, ByTimer(t)); } else { SameLog(cfg, s, TimerWakes(s, t)); }
  }

  lemma CloserDrainsLog(cfg: Config, s: State, c: nat)
    requires ValidConfig(cfg) && CloserWaits(s, c) && (s.lockMade ==> s.flight.None?) && LogInv(cfg, s)
    ensures LogInv(cfg, CloserDrains(s, c))
  {
    if s.lockMade && s.pending != [] {
      TakeBatchPartition(cfg, s, ByCloser(c));
    } else {
      SameLog(cfg, s, CloserDrains(s, c));
    }
  }

  // ---- every future is settled by the flush that took it ----

  /** The batch in flight is the end of the queue order. */
  lemma FlightInLog(cfg: Config, s: State)
    requires LockInv(s) && Partition(cfg, s) && s.flight.Some?
    ensures SuffixOf(s.flight.value.batch, s.log.enqueued)
  {
    var n := |s.log.batches| - 1;
    assert s.log.enqueued == Flatten(s.log.batches[..n]) + s.flight.value.batch;
  }

  ghost predicate SameCalls(a: seq<Caller>, b: seq<Caller>) {
    |a| == |b| && forall i :: 0 <= i < |a| ==> a[i].text == b[i].text && a[i].stage == b[i].stage
  }

  /** A flush that ends leaves its whole batch settled and every other call as it was. */
  ghost predicate SettledBatch(before: seq<Caller>, after: seq<Caller>, batch: seq<Request>) {
    && SameCalls(before, after)
    && (forall i :: 0 <= i < |before| && InBatch(batch, i) ==> !after[i].outcome.Waiting?)
    && (forall i :: 0 <= i < |before| && !before[i].outcome.Waiting? ==> after[i] == before[i])
    && (forall i :: 0 <= i < |before| && !InBatch(batch, i) ==> after[i] == before[i])
  }

  lemma FailAllSettles(callers: seq<Caller>, batch: seq<Request>, reason: Failure)
    ensures SettledBatch(callers, FailAll(callers, batch, reason), batch)
  {
    forall i | 0 <= i < |callers| { FailAllAt(callers, batch, reason, i); }
  }

  lemma ResolveAllSettles(callers: seq<Caller>, batch: seq<Request>, vectors: seq<Vector>)
    requires |batch| == |vectors| && DistinctIds(batch)
    ensures SettledBatch(callers, ResolveAll(callers, batch, vectors), batch)
  {
    forall i | 0 <= i < |callers| { ResolveAllAt(callers, batch, vectors, i); }
  }

  lemma FlushEndCallers(cfg: Config, s: State, s': State)
    requires LockInv(s) && CallerInv(cfg, s) && s.flight.Some?
    requires SettledBatch(s.callers, s'.callers, s.flight.value.batch)
    requires s'.log.enqueued == s.log.enqueued
    requires forall i :: 0 <= i < |s.callers| && s.callers[i].stage.AtLock? ==> s'.callers[i].outcome.Waiting?
    ensures CallerInv(cfg, s')
  {
    forall id | 0 <= id < |s'.callers| && s.callers[id].stage.Queued? && s.callers[id].outcome.Waiting?
      ensures !s'.callers[id].outcome.Waiting?
    {
      assert InReach(s, id);
    }
    forall k | 0 <= k < |s'.log.enqueued|
      ensures RequestOk(cfg, s'.callers, s'.log.enqueued[k])
    {
      assert RequestOk(cfg, s.callers, s.log.enqueued[k]);
    }
    forall i | 0 <= i < |s'.callers|
      ensures StageOk(s'.callers[i])
    {
      assert StageOk(s.callers[i]);
    }
  }

  lemma QueuedOnlyInBatch(cfg: Config, s: State)
    requires LockInv(s) && Partition(cfg, s) && CallerInv(cfg, s) && s.flight.Some?
    ensures DistinctIds(s.flight.value.batch)
    ensures forall k :: 0 <= k < |s.flight.value.batch| ==> RequestOk(cfg, s.callers, s.flight.value.batch[k])
  {
    FlightInLog(cfg, s);
    SuffixRequestsOk(cfg, s.callers, s.flight.value.batch, s.log.enqueued);
  }

  lemma SuffixRequestsOk(cfg: Config, callers: seq<Caller>, batch: seq<Request>, enqueued: seq<Request>)
    requires RequestsOk(cfg, callers, enqueued) && SuffixOf(batch, enqueued)
    ensures DistinctIds(batch)
    ensures forall k :: 0 <= k < |batch| ==> RequestOk(cfg, callers, batch[k])
  {
    var d := |enqueued| - |batch|;
    assert forall k :: 0 <= k < |batch| ==> batch[k] == enqueued[d + k];
  }

  lemma AnsweredCallers(cfg: Config, s: State, vectors: seq<Vector>)
    requires 0 < cfg.cacheSize && LockInv(s) && Partition(cfg, s) && CallerInv(cfg, s) && s.flight.Some?
    ensures SettledBatch(s.callers, Answered(cfg, s, vectors).callers, s.flight.value.batch)
    ensures CallerInv(cfg, Answered(cfg, s, vectors))
  {
    var batch := s.flight.value.batch;
    QueuedOnlyInBatch(cfg, s);
    if |vectors| != |batch| { FailAllSettles(s.callers, batch, SizeMismatch); } else { ResolveAllSettles(s.callers, batch, vectors); }
    FlushEndCallers(cfg, s, Answered(cfg, s, vectors));
  }

  lemma FlushFailsCallers(cfg: Config, s: State, reason: Failure)
    requires LockInv(s) && Partition(cfg, s) && CallerInv(cfg, s) && s.flight.Some?
    ensures SettledBatch(s.callers, FlushFails(s, reason).callers, s.flight.value.batch)
    ensures CallerInv(cfg, FlushFails(s, reason))
  {
    QueuedOnlyInBatch(cfg, s);
    FailAllSettles(s.callers, s.flight.value.batch, reason);
    FlushEndCallers(cfg, s, FlushFails(s, reason));
  }

  lemma EnterCallers(cfg: Config, s: State, id: nat)
    requires s.flight.None? && CallerAt(s, id, AtLock) && CallerInv(cfg, s)
    ensures CallerInv(cfg, Enter(cfg, s, id))
  {
    var s' := Enter(cfg, s, id);
    var r := s'.log.enqueued[|s.log.enqueued|];
    JoinKeepsRequests(cfg, s.callers, s.log.enqueued, id);
    forall i | 0 <= i < |s'.callers| && s'.callers[i].stage.Queued? && s'.callers[i].outcome.Waiting?
      ensures InBatch(s.pending + [r], i)
    {
      if i != id { assert InReach(s, i); }
      InLonger(s.pending, r, i);
    }
  }

  lemma InLonger(batch: seq<Request>, r: Request, i: nat)
    requires InBatch(batch, i) || r.id == i
    ensures InBatch(batch + [r], i)
  {
    if r.id == i {
      assert (batch + [r])[|batch|].id == i;
    } else {
      var k :| 0 <= k < |batch| && batch[k].id == i;
      assert (batch + [r])[k].id == i;
    }
  }

  lemma JoinKeepsRequests(cfg: Config, callers: seq<Caller>, enqueued: seq<Request>, id: nat)
    requires RequestsOk(cfg, callers, enqueued) && id < |callers| && callers[id].stage.AtLock?
    ensures RequestsOk(cfg, callers[id := callers[id].(stage := Queued)],
                       enqueued + [Request(cfg.hash(callers[id].text), callers[id].text, id)])
  {
    forall k | 0 <= k < |enqueued|
      ensures RequestOk(cfg, callers[id := callers[id].(stage := Queued)], enqueued[k]) && enqueued[k].id != id
    {
      assert RequestOk(cfg, callers, enqueued[k]);
    }
  }

  lemma TakeBatchCallers(cfg: Config, s: State, owner: Owner)
    requires s.flight.None? && CallerInv(cfg, s)
    ensures CallerInv(cfg, TakeBatch(s, owner))
  {
    forall id | 0 <= id < |s.callers| && s.callers[id].stage.Queued? && s.callers[id].outcome.Waiting?
      ensures InReach(TakeBatch(s, owner), id)
    {
      assert InReach(s, id);
    }
  }

  lemma SameCallers(cfg: Config, s: State, s': State)
    requires CallerInv(cfg, s)
    requires s'.callers == s.callers && s'.log.enqueued == s.log.enqueued
    requires s'.pending == s.pending && s'.flight == s.flight
    ensures CallerInv(cfg, s')
  {
    forall id | 0 <= id < |s.callers| && s.callers[id].stage.Queued? && s.callers[id].outcome.Waiting?
      ensures InReach(s', id)
    {
      assert InReach(s, id);
    }
  }

  lemma AskCallers(cfg: Config, s: State, text: string)
    requires CallerInv(cfg, s)
    ensures CallerInv(cfg, Ask(cfg, s, text))
  {
    var s' := Ask(cfg, s, text);
    forall k | 0 <= k < |s.log.enqueued|
      ensures RequestOk(cfg, s'.callers, s.log.enqueued[k])
    {
      assert RequestOk(cfg, s.callers, s.log.enqueued[k]);
    }
    forall id | 0 <= id < |s'.callers| && s'.callers[id].stage.Queued? && s'.callers[id].outcome.Waiting?
      ensures InReach(s', id)
    {
      assert InReach(s, id);
    }
  }

  lemma CallerLeavesCallers(cfg: Config, s: State, id: nat)
    requires CallerInv(cfg, s) && Enabled(s, EvCallerLeaves(id))
    ensures CallerInv(cfg, CallerLeaves(s, id))
  {
    var s' := CallerLeaves(s, id);
    assert StageOk(s.callers[id]);
    forall k | 0 <= k < |s.log.enqueued|
      ensures RequestOk(cfg, s'.callers, s.log.enqueued[k])
    {
      assert RequestOk(cfg, s.callers, s.log.enqueued[k]);
    }
    forall i | 0 <= i < |s'.callers| && s'.callers[i].stage.Queued? && s'.callers[i].outcome.Waiting?
      ensures InReach(s', i)
    {
      assert InReach(s, i);
    }
  }

  lemma CallerInvKept(cfg: Config, s: State, e: Event)
    requires ValidConfig(cfg) && Enabled(s, e) && LockInv(s) && Partition(cfg, s) && CallerInv(cfg, s)
    requires !s.lockMade ==> s.flight.None?
    ensures CallerInv(cfg, Step(cfg, s, e))
  {
    match e
    case EvAsk(text) => AskCallers(cfg, s, text);
    case EvEnter(id) => EnterCallers(cfg, s, id);
    case EvTimerWakes(t) => if s.pending != [] { TakeBatchCallers(cfg, s, ByTimer(t)); } else { SameCallers(cfg, s, Step(cfg, s, e)); }
    case EvAnswered(vectors) => AnsweredCallers(cfg, s, vectors);
    case EvFlushFails(reason) => FlushFailsCallers(cfg, s, reason);
    case EvCallerLeaves(id) => CallerLeavesCallers(cfg, s, id);
    case EvCloserDrains(c) =>
      if s.lockMade && s.pending != [] { TakeBatchCallers(cfg, s, ByCloser(c)); } else { SameCallers(cfg, s, Step(cfg, s, e)); }
    case _ => SameCallers(cfg, s, Step(cfg, s, e));
  }

  // ---- where every vector comes from ----

  lemma ProvidedStays(answers: seq<Answer>, more: seq<Answer>, text: string, v: Vector)
    requires Provided(answers, text, v)
    ensures Provided(answers + more, text, v)
  {
    var n, i :|
      && 0 <= n < |answers|
      && |answers[n].texts| == |answers[n].vectors|
      && 0 <= i < |answers[n].texts|
      && answers[n].texts[i] == text
      && answers[n].vectors[i] == v;
    assert (answers + more)[n] == answers[n];
  }

  lemma TracesStay(cfg: Config, answers: seq<Answer>, more: seq<Answer>, cache: Cache)
    requires CacheTraced(cfg, answers, cache)
    ensures CacheTraced(cfg, answers + more, cache)
  {
    forall k | k in cache.vals
      ensures EntryTraced(cfg, answers + more, k, cache.vals[k])
    {
      assert EntryTraced(cfg, answers, k, cache.vals[k]);
      var text :| cfg.hash(text) == k && Provided(answers, text, cache.vals[k]);
      ProvidedStays(answers, more, text, cache.vals[k]);
    }
  }

  lemma AfterPutVals(c: Cache, size: nat, key: string, v: Vector)
    requires 0 < size
    ensures forall k :: k in AfterPut(c, size, key, v).vals ==>
              (if k == key then AfterPut(c, size, key, v).vals[k] == v
               else k in c.vals && AfterPut(c, size, key, v).vals[k] == c.vals[k])
  {
  }

  lemma {:induction false} PutAllTraced(cfg: Config, answers: seq<Answer>, cache: Cache, batch: seq<Request>, vectors: seq<Vector>)
    requires 0 < cfg.cacheSize && |batch| == |vectors| && CacheTraced(cfg, answers, cache)
    requires forall k :: 0 <= k < |batch| ==> EntryTraced(cfg, answers, batch[k].key, vectors[k])
    ensures CacheTraced(cfg, answers, PutAll(cache, cfg.cacheSize, batch, vectors))
  {
    if batch != [] {
      var n := |batch| - 1;
      PutAllTraced(cfg, answers, cache, batch[..n], vectors[..n]);
      AfterPutVals(PutAll(cache, cfg.cacheSize, batch[..n], vectors[..n]), cfg.cacheSize, batch[n].key, vectors[n]);
      assert EntryTraced(cfg, answers, batch[n].key, vectors[n]);
    }
  }

  lemma PutsSplit(batch: seq<Request>, vectors: seq<Vector>)
    requires |batch| == |vectors| && batch != []
    ensures var n := |batch| - 1;
            Puts(batch, vectors) == Puts(batch[..n], vectors[..n]) + [Put(batch[n].key, vectors[n])]
  {
  }

  lemma {:induction false} PutAllReached(ts: seq<Touch>, size: nat, cache: Cache, batch: seq<Request>, vectors: seq<Vector>)
    requires 0 < size && |batch| == |vectors| && Reaches(ts, size, cache)
    ensures Reaches(ts + Puts(batch, vectors), size, PutAll(cache, size, batch, vectors))
  {
    if batch == [] {
      assert ts + Puts(batch, vectors) == ts;
    } else {
      var n := |batch| - 1;
      var before := Puts(batch[..n], vectors[..n]);
      PutAllReached(ts, size, cache, batch[..n], vectors[..n]);
      ReachesNext(ts + before, size, PutAll(cache, size, batch[..n], vectors[..n]), Put(batch[n].key, vectors[n]));
      PutsSplit(batch, vectors);
      assert ts + Puts(batch, vectors) == ts + before + [Put(batch[n].key, vectors[n])];
    }
  }

  lemma AskTraced(cfg: Config, s: State, text: string)
    requires ValidConfig(cfg) && TraceInv(cfg, s)
    ensures TraceInv(cfg, Ask(cfg, s, text))
  {
    var s' := Ask(cfg, s, text);
    var key := cfg.hash(text);
    if key in s.cache.vals {
      var ts := s'.log.touches;
      assert ts[..|ts| - 1] == s.log.touches && ts[|ts| - 1] == Hit(key);
      assert EntryTraced(cfg, s.log.answers, key, s.cache.vals[key]);
      assert Provided(s.log.answers, text, s.cache.vals[key]);
      assert s'.cache.vals == s.cache.vals;
    }
  }

  lemma AnsweredTraced(cfg: Config, s: State, vectors: seq<Vector>)
    requires ValidConfig(cfg) && LockInv(s) && Partition(cfg, s) && CallerInv(cfg, s) && TraceInv(cfg, s) && s.flight.Some?
    ensures TraceInv(cfg, Answered(cfg, s, vectors))
  {
    var s' := Answered(cfg, s, vectors);
    var batch := s.flight.value.batch;
    var more := [Answer(Texts(batch), vectors)];
    QueuedOnlyInBatch(cfg, s);
    TracesStay(cfg, s.log.answers, more, s.cache);
    if |vectors| == |batch| {
      forall k | 0 <= k < |batch|
        ensures Provided(s'.log.answers, batch[k].text, vectors[k])
        ensures EntryTraced(cfg, s'.log.answers, batch[k].key, vectors[k])
      {
        assert s'.log.answers[|s.log.answers|] == more[0];
        assert more[0].texts[k] == batch[k].text;
        assert RequestOk(cfg, s.callers, batch[k]);
      }
      PutAllTraced(cfg, s'.log.answers, s.cache, batch, vectors);
      PutAllReached(s.log.touches, cfg.cacheSize, s.cache, batch, vectors);
    }
    forall i | 0 <= i < |s'.callers| && s'.callers[i].outcome.Resolved?
      ensures Provided(s'.log.answers, s'.callers[i].text, s'.callers[i].outcome.v)
    {
      if |vectors| == |batch| {
        ResolveAllAt(s.callers, batch, vectors, i);
        if !(s.callers[i].outcome.Waiting? && InBatch(batch, i)) {
          ProvidedStays(s.log.answers, more, s.callers[i].text, s.callers[i].outcome.v);
        } else {
          var k :| 0 <= k < |batch| && batch[k].id == i && s'.callers[i] == s.callers[i].(outcome := Resolved(vectors[k]));
          assert RequestOk(cfg, s.callers, batch[k]);
        }
      } else {
        FailAllAt(s.callers, batch, SizeMismatch, i);
        ProvidedStays(s.log.answers, more, s.callers[i].text, s.callers[i].outcome.v);
      }
    }
  }

  lemma FlushFailsTraced(cfg: Config, s: State, reason: Failure)
    requires 0 < cfg.cacheSize && TraceInv(cfg, s) && s.flight.Some?
    ensures TraceInv(cfg, FlushFails(s, reason))
  {
    forall i | 0 <= i < |s.callers| { FailAllAt(s.callers, s.flight.value.batch, reason, i); }
  }

  lemma SameTraces(cfg: Config, s: State, s': State)
    requires 0 < cfg.cacheSize && TraceInv(cfg, s)
    requires s'.cache == s.cache && s'.log.touches == s.log.touches && s'.log.answers == s.log.answers
    requires |s'.callers| == |s.callers|
    requires forall i :: 0 <= i < |s.callers| ==> s'.callers[i].text == s.callers[i].text
    requires forall i :: 0 <= i < |s.callers| && s'.callers[i].outcome.Resolved? ==> s'.callers[i].outcome == s.callers[i].outcome
    ensures TraceInv(cfg, s')
  {
  }

  /** Every other step leaves the cache, the history and every vector handed out alone. */
  lemma QuietStep(cfg: Config, s: State, e: Event)
    requires 0 < cfg.cacheSize && Enabled(s, e) && !e.EvAsk? && !e.EvAnswered? && !e.EvFlushFails?
    ensures var s' := Step(cfg, s, e);
            && s'.cache == s.cache && s'.log.touches == s.log.touches && s'.log.answers == s.log.answers
            && |s'.callers| == |s.callers|
            && (forall i :: 0 <= i < |s.callers| ==> s'.callers[i].text == s.callers[i].text)
            && (forall i :: 0 <= i < |s.callers| && (s'.callers[i].outcome.Resolved? || !s.callers[i].outcome.Waiting?) ==>
                  s'.callers[i].outcome == s.callers[i].outcome)
  {
  }

  lemma TraceInvKept(cfg: Config, s: State, e: Event)
    requires ValidConfig(cfg) && Enabled(s, e) && LockInv(s) && Partition(cfg, s) && CallerInv(cfg, s) && TraceInv(cfg, s)
    ensures TraceInv(cfg, Step(cfg, s, e))
  {
    match e
    case EvAsk(text) => AskTraced(cfg, s, text);
    case EvAnswered(vectors) => AnsweredTraced(cfg, s, vectors);
    case EvFlushFails(reason) => FlushFailsTraced(cfg, s, reason);
    case _ =>
      QuietStep(cfg, s, e);
      SameTraces(cfg, s, Step(cfg, s, e));
  }

  lemma InvKept(cfg: Config, s: State, e: Event)
    requires ValidConfig(cfg) && Enabled(s, e) && Inv(cfg, s)
    ensures Inv(cfg, Step(cfg, s, e))
  {
    ControlKept(cfg, s, e);
    LogInvKept(cfg, s, e);
    CallerInvKept(cfg, s, e);
    TraceInvKept(cfg, s, e);
  }
}
