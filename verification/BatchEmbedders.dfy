/** The class of utils/batch_embedder.py. Each method is the code a task runs between two awaits and is
    proved to be one step of the batching protocol; the tasks and futures asyncio keeps for it
    (`callers`, `timers`, `closers`, `flight`) are fields beside the ones the source declares. */
module BatchEmbedders {
  import opened Sequences
  import opened OrderedDicts
  import opened EmbeddingCache
  import opened BatchProtocol
  import opened BatchInvariants

  lemma ResolveNext(callers: seq<Caller>, cache: Cache, size: nat, batch: seq<Request>, vectors: seq<Vector>, i: nat)
    requires 0 < size && i < |batch| == |vectors|
    ensures ResolveAll(callers, batch[..i + 1], vectors[..i + 1])
            == Settle(ResolveAll(callers, batch[..i], vectors[..i]), batch[i].id, Resolved(vectors[i]))
    ensures PutAll(cache, size, batch[..i + 1], vectors[..i + 1])
            == AfterPut(PutAll(cache, size, batch[..i], vectors[..i]), size, batch[i].key, vectors[i])
  {
    assert batch[..i + 1][..i] == batch[..i] && vectors[..i + 1][..i] == vectors[..i];
  }

  /** What taking the batch changes, field by field. */
  lemma TakenIs(s: State, owner: Owner, stopped: seq<Timer>, s': State)
    requires owner.ByTimer? ==> owner.t < |stopped|
    requires owner.ByCloser? ==> owner.c < |s.closers|
    requires stopped == if s.flushTask.Some? && owner != ByTimer(s.flushTask.value)
                        then StopTimer(s.timers, s.flushTask.value) else s.timers
    requires s' == s.(pending := [], flushCount := s.flushCount + 1, flushTask := None,
                      timers := if owner.ByTimer? then stopped[owner.t := Flushing] else stopped,
                      closers := if owner.ByCloser? then s.closers[owner.c := Draining] else s.closers,
                      flight := Some(Flight(s.pending, owner)), log := s.log.(batches := s.log.batches + [s.pending]))
    ensures s' == TakeBatch(s, owner)
  {
  }

  class BatchEmbedder {
    const cfg: Config
    var cache: Cache
    var pending: seq<Request>
    var flushTask: Option<nat>
    var lockMade: bool
    var flight: Option<Flight>
    var callers: seq<Caller>
    var timers: seq<Timer>
    var closers: seq<Closer>
    var totalRequests: nat
    var cacheHits: nat
    var flushCount: nat
    var providerErrors: nat
    var orphaned: nat
    ghost var log: Log

    ghost function View(): State
      reads this
    {
      State(cache, pending, flushTask, lockMade, flight, callers, timers, closers,
            totalRequests, cacheHits, flushCount, providerErrors, orphaned, log)
    }

    /** The invariant of the protocol. */
    ghost predicate Valid()
      reads this
    {
      ValidConfig(cfg) && Inv(cfg, View())
    }

    /** What the methods need of the state to be safe; it follows from the invariant. */
    ghost predicate InRange()
      reads this
    {
      && 0 < cfg.cacheSize
      && (flushTask.Some? ==> flushTask.value < |timers|)
      && (flight.Some? ==>
            && (flight.value.owner.ByTimer? ==> flight.value.owner.t < |timers|)
            && (flight.value.owner.ByCloser? ==> flight.value.owner.c < |closers|)
            && forall k :: 0 <= k < |flight.value.batch| ==> flight.value.batch[k].id < |callers|)
    }

    lemma ValidInRange()
      requires Valid()
      ensures InRange()
    {
      if flight.Some? {
        QueuedOnlyInBatch(cfg, View());
        assert forall k :: 0 <= k < |flight.value.batch| ==> RequestOk(cfg, callers, flight.value.batch[k]);
      }
    }

    /** Every method below is one enabled step of the protocol, so every method keeps the invariant. */
    twostate lemma MethodKeepsValid(e: Event)
      requires old(Valid()) && Enabled(old(View()), e) && View() == Step(cfg, old(View()), e)
      ensures Valid() && InRange()
    {
      InvKept(cfg, old(View()), e);
      ValidInRange();
    }

    constructor (cfg: Config)
      requires ValidConfig(cfg)
      ensures this.cfg == cfg && View() == Init() && Valid()
    {
      this.cfg := cfg;
      cache := Empty();
      pending, callers, timers, closers := [], [], [], [];
      flushTask, flight := None, None;
      lockMade := false;
      totalRequests, cacheHits, flushCount, providerErrors, orphaned := 0, 0, 0, 0, 0;
      log := Log([], [], [], [], []);
    }

    method CacheGet(key: string) returns (val: Option<Vector>)
      modifies this`cache
      ensures val == old(cache).Get(key)
      ensures cache == AfterGet(old(cache), key)
    {
      val := cache.Get(key);
      if val.Some? {
        cache := cache.MoveToEnd(key);
      }
    }

    method CachePut(key: string, embedding: Vector)
      requires 0 < cfg.cacheSize
      modifies this`cache
      ensures cache == AfterPut(old(cache), cfg.cacheSize, key, embedding)
    {
      if cache.Size() >= cfg.cacheSize {
        cache := cache.PopFirst();
      }
      cache := cache.Set(key, embedding);
      cache := cache.MoveToEnd(key);
    }

    /** `embed_one` until it returns a cached vector or asks for the lock. */
    method EmbedOne(text: string) returns (cached: Option<Vector>, id: nat)
      requires Valid()
      modifies this
      ensures Valid() && View() == Step(cfg, old(View()), EvAsk(text))
      ensures cached == old(cache).Get(cfg.hash(text)) && id == old(|callers|)
    {
      id := |callers|;
      cached := LookUp(text);
      MethodKeepsValid(EvAsk(text));
    }

    method LookUp(text: string) returns (cached: Option<Vector>)
      modifies this
      ensures View() == Ask(cfg, old(View()), text)
      ensures cached == old(cache).Get(cfg.hash(text))
    {
      totalRequests := totalRequests + 1;
      var key := cfg.hash(text);
      cached := CacheGet(key);
      if cached.Some? {
        NoteHit(text, key, cached.value);
      } else {
        JoinLock(text);
      }
    }

    method NoteHit(text: string, key: string, v: Vector)
      modifies this
      ensures View() == old(View()).(cacheHits := old(cacheHits) + 1,
                                     callers := old(callers) + [Caller(text, Served, Resolved(v))],
                                     log := old(log).(touches := old(log).touches + [Hit(key)]))
    {
      cacheHits := cacheHits + 1;
      callers := callers + [Caller(text, Served, Resolved(v))];
      log := log.(touches := log.touches + [Hit(key)]);
    }

    method JoinLock(text: string)
      modifies this`callers, this`lockMade
      ensures View() == old(View()).(callers := old(callers) + [Caller(text, AtLock, Waiting)], lockMade := true)
    {
      callers := callers + [Caller(text, AtLock, Waiting)];
      lockMade := true;
    }

    /** `_flush` from its start to the provider call; `owner` is the current task. */
    method Flush(owner: Owner)
      requires flight.None?
      requires owner.ByTimer? ==> owner.t < |timers|
      requires owner.ByCloser? ==> owner.c < |closers|
      modifies this
      ensures View() == if old(pending) == [] then old(View()) else TakeBatch(old(View()), owner)
    {
      if pending == [] { return; }
      TakePending(owner);
    }

    method TakePending(owner: Owner)
      requires owner.ByTimer? ==> owner.t < |timers|
      requires owner.ByCloser? ==> owner.c < |closers|
      modifies this
      ensures View() == TakeBatch(old(View()), owner)
    {
      ghost var s := View();
      var batch := pending;
      pending := [];
      flushCount := flushCount + 1;
      StopStaleTimer(owner);
      ghost var stopped := timers;
      StartFlight(batch, owner);
      TakenIs(s, owner, stopped, View());
    }

    /** The task that flushes goes on to the provider call. */
    method StartFlight(batch: seq<Request>, owner: Owner)
      requires owner.ByTimer? ==> owner.t < |timers|
      requires owner.ByCloser? ==> owner.c < |closers|
      modifies `timers, `closers, `flight, `log
      ensures timers == if owner.ByTimer? then old(timers)[owner.t := Flushing] else old(timers)
      ensures closers == if owner.ByCloser? then old(closers)[owner.c := Draining] else old(closers)
      ensures flight == Some(Flight(batch, owner)) && log == old(log).(batches := old(log).batches + [batch])
      ensures OthersKept()
    {
      if owner.ByTimer? { timers := timers[owner.t := Flushing]; }
      if owner.ByCloser? { closers := closers[owner.c := Draining]; }
      flight := Some(Flight(batch, owner));
      log := log.(batches := log.batches + [batch]);
    }

    /** What a flush leaves alone when it starts. */
    twostate predicate OthersKept()
      reads this
    {
      && cache == old(cache) && lockMade == old(lockMade) && callers == old(callers) && orphaned == old(orphaned)
      && totalRequests == old(totalRequests) && cacheHits == old(cacheHits) && providerErrors == old(providerErrors)
    }

    /** The recorded timer is cancelled unless it is the one that flushes. */
    method StopStaleTimer(owner: Owner)
      modifies `timers, `flushTask
      ensures flushTask.None? && OthersKept()
      ensures timers == if old(flushTask).Some? && owner != ByTimer(old(flushTask).value)
                        then StopTimer(old(timers), old(flushTask).value) else old(timers)
    {
      if flushTask.Some? && owner != ByTimer(flushTask.value) {
        timers := StopTimer(timers, flushTask.value);
      }
      flushTask := None;
    }

    /** `embed_one` once it holds the lock. */
    method EnterQueue(id: nat)
      requires Valid() && Enabled(View(), EvEnter(id))
      modifies this
      ensures Valid() && View() == Step(cfg, old(View()), EvEnter(id))
    {
      ValidInRange();
      JoinQueue(id);
      MethodKeepsValid(EvEnter(id));
    }

    method JoinQueue(id: nat)
      requires InRange() && Enabled(View(), EvEnter(id))
      modifies this
      ensures View() == Enter(cfg, old(View()), id)
    {
      var c := callers[id];
      var r := Request(cfg.hash(c.text), c.text, id);
      pending := pending + [r];
      callers := callers[id := c.(stage := Queued)];
      log := log.(enqueued := log.enqueued + [r]);
      if |pending| >= cfg.maxBatch {
        Flush(ByCaller(id));
      } else if flushTask.None? || timers[flushTask.value].Done? {
        flushTask := Some(|timers|);
        timers := timers + [Armed];
      }
    }

    /** `_delayed_flush` once it holds the lock. */
    method DelayedFlush(t: nat)
      requires Valid() && Enabled(View(), EvTimerWakes(t))
      modifies this
      ensures Valid() && View() == Step(cfg, old(View()), EvTimerWakes(t))
    {
      FlushExpired(t);
      MethodKeepsValid(EvTimerWakes(t));
    }

    method FlushExpired(t: nat)
      requires t < |timers| && flight.None?
      modifies this
      ensures View() == if old(pending) != [] then TakeBatch(old(View()), ByTimer(t))
                        else old(View()).(timers := old(timers)[t := Done])
    {
      if pending != [] {
        Flush(ByTimer(t));
      } else {
        timers := timers[t := Done];
      }
    }

    /** A cancelled `_delayed_flush` ends without having had the lock. */
    method TimerDies(t: nat)
      requires Valid() && Enabled(View(), EvTimerDies(t))
      modifies this`timers
      ensures Valid() && View() == Step(cfg, old(View()), EvTimerDies(t))
    {
      ValidInRange();
      timers := timers[t := Done];
      MethodKeepsValid(EvTimerDies(t));
    }

    /** The lock is released at the end of a flush; `closer` is where a closing task then stands. */
    method Release(closer: Closer)
      requires flight.Some?
      requires flight.value.owner.ByTimer? ==> flight.value.owner.t < |timers|
      requires flight.value.owner.ByCloser? ==> flight.value.owner.c < |closers|
      modifies this`flight, this`timers, this`closers
      ensures View() == EndFlush(old(View()), closer)
    {
      var owner := flight.value.owner;
      flight := None;
      if owner.ByTimer? { timers := timers[owner.t := Done]; }
      if owner.ByCloser? { closers := closers[owner.c := closer]; }
    }

    /** The loop over `futures` of the two failing paths. */
    method FailFutures(batch: seq<Request>, reason: Failure) returns (settled: nat)
      requires forall k :: 0 <= k < |batch| ==> batch[k].id < |callers|
      modifies this`callers
      ensures callers == FailAll(old(callers), batch, reason)
      ensures settled == Orphans(old(callers), batch, reason)
    {
      settled := 0;
      for i := 0 to |batch|
        invariant callers == FailAll(old(callers), batch[..i], reason)
        invariant settled == Orphans(old(callers), batch[..i], reason)
      {
        assert batch[..i + 1][..i] == batch[..i];
        var id := batch[i].id;
        if callers[id].outcome.Waiting? {
          callers := callers[id := callers[id].(outcome := Failed(reason))];
          settled := settled + 1;
        }
      }
      assert batch[..|batch|] == batch;
    }

    /** The loop of the successful path: cache first, then the future. */
    method ResolveFutures(batch: seq<Request>, embeddings: seq<Vector>)
      requires 0 < cfg.cacheSize && |batch| == |embeddings|
      requires forall k :: 0 <= k < |batch| ==> batch[k].id < |callers|
      modifies this`callers, this`cache
      ensures callers == ResolveAll(old(callers), batch, embeddings)
      ensures cache == PutAll(old(cache), cfg.cacheSize, batch, embeddings)
    {
      for i := 0 to |batch|
        invariant callers == ResolveAll(old(callers), batch[..i], embeddings[..i])
        invariant cache == PutAll(old(cache), cfg.cacheSize, batch[..i], embeddings[..i])
      {
        ResolveNext(old(callers), old(cache), cfg.cacheSize, batch, embeddings, i);
        CachePut(batch[i].key, embeddings[i]);
        var id := batch[i].id;
        if callers[id].outcome.Waiting? {
          callers := callers[id := callers[id].(outcome := Resolved(embeddings[i]))];
        }
      }
      assert batch[..|batch|] == batch && embeddings[..|batch|] == embeddings;
    }

    /** `_flush` after the provider has answered. */
    method FlushAnswered(embeddings: seq<Vector>)
      requires Valid() && flight.Some?
      modifies this
      ensures Valid() && View() == Step(cfg, old(View()), EvAnswered(embeddings))
    {
      ValidInRange();
      var batch := flight.value.batch;
      if |embeddings| != |batch| {
        RejectAnswer(batch, embeddings);
      } else {
        AcceptAnswer(batch, embeddings);
      }
      MethodKeepsValid(EvAnswered(embeddings));
    }

    /** The answer has the wrong size. */
    method RejectAnswer(batch: seq<Request>, embeddings: seq<Vector>)
      requires InRange() && flight.Some? && batch == flight.value.batch && |embeddings| != |batch|
      modifies this
      ensures View() == Answered(cfg, old(View()), embeddings)
    {
      log := log.(answers := log.answers + [Answer(Texts(batch), embeddings)], failures := log.failures + [SizeMismatch]);
      providerErrors := providerErrors + 1;
      var _ := FailFutures(batch, SizeMismatch);
      Release(Closed);
    }

    /** The answer has the right size. */
    method AcceptAnswer(batch: seq<Request>, embeddings: seq<Vector>)
      requires InRange() && flight.Some? && batch == flight.value.batch && |embeddings| == |batch|
      modifies this
      ensures View() == Answered(cfg, old(View()), embeddings)
    {
      ResolveFutures(batch, embeddings);
      log := log.(answers := log.answers + [Answer(Texts(batch), embeddings)], touches := log.touches + Puts(batch, embeddings));
      Release(Closed);
    }

    /** `_flush` when the provider raises or the flushing task is cancelled. */
    method FlushFailed(reason: Failure)
      requires Valid() && Enabled(View(), EvFlushFails(reason))
      modifies this
      ensures Valid() && View() == Step(cfg, old(View()), EvFlushFails(reason))
    {
      ValidInRange();
      FailFlight(reason);
      MethodKeepsValid(EvFlushFails(reason));
    }

    method FailFlight(reason: Failure)
      requires InRange() && flight.Some?
      modifies this
      ensures View() == FlushFails(old(View()), reason)
    {
      var batch := flight.value.batch;
      if reason.ProviderError? {
        providerErrors := providerErrors + 1;
      }
      AbandonBatch(batch, reason);
    }

    /** What both failing paths go on to do. */
    method AbandonBatch(batch: seq<Request>, reason: Failure)
      requires InRange() && flight.Some? && batch == flight.value.batch
      modifies this
      ensures View() == EndFlush(
                old(View()).(
                orphaned := old(orphaned) + Orphans(old(callers), batch, reason),
                callers := FailAll(old(callers), batch, reason),
                log := old(log).(failures := old(log).failures + [reason])),
                if reason.FlushCancelled? then Aborted else Closed)
    {
      var settled := FailFutures(batch, reason);
      orphaned := orphaned + settled;
      log := log.(failures := log.failures + [reason]);
      Release(if reason.FlushCancelled? then Aborted else Closed);
    }

    /** The task awaiting `embed_one` is cancelled. */
    method CallerCancelled(id: nat)
      requires Valid() && Enabled(View(), EvCallerLeaves(id))
      modifies this`callers
      ensures Valid() && View() == Step(cfg, old(View()), EvCallerLeaves(id))
    {
      ValidInRange();
      var c := callers[id];
      callers := callers[id := Caller(c.text, if c.stage.AtLock? then Withdrawn else c.stage, Cancelled)];
      MethodKeepsValid(EvCallerLeaves(id));
    }

    /** Whether `async with` would have to wait for the lock. */
    predicate LockContended()
      reads this
    {
      || flight.Some?
      || (exists i :: 0 <= i < |callers| && callers[i].stage.AtLock?)
      || (exists t :: 0 <= t < |timers| && !timers[t].Done?)
      || (exists c :: 0 <= c < |closers| && closers[c] == AwaitsLock(true))
    }

    /** `flush_and_close` until it awaits the timer or the lock. */
    method FlushAndClose() returns (c: nat)
      requires Valid()
      modifies this`timers, this`closers
      ensures Valid() && View() == Step(cfg, old(View()), EvCloseBegins)
      ensures c == old(|closers|)
    {
      ValidInRange();
      c := |closers|;
      if flushTask.Some? && !timers[flushTask.value].Done? {
        timers := StopTimer(timers, flushTask.value);
        closers := closers + [AwaitsTimer(flushTask.value)];
      } else {
        closers := closers + [AwaitsLock(LockContended())];
      }
      MethodKeepsValid(EvCloseBegins);
    }

    /** The awaited timer is over: `flush_and_close` goes on to the lock. */
    method CloserResumes(c: nat)
      requires Valid() && Enabled(View(), EvCloserResumes(c))
      modifies this`closers
      ensures Valid() && View() == Step(cfg, old(View()), EvCloserResumes(c))
    {
      ValidInRange();
      closers := closers[c := AwaitsLock(LockContended())];
      MethodKeepsValid(EvCloserResumes(c));
    }

    /** `flush_and_close` from the lock on. */
    method DrainAndClose(c: nat)
      requires Valid() && Enabled(View(), EvCloserDrains(c))
      modifies this
      ensures Valid() && View() == Step(cfg, old(View()), EvCloserDrains(c))
    {
      DrainQueue(c);
      MethodKeepsValid(EvCloserDrains(c));
    }

    method DrainQueue(c: nat)
      requires CloserWaits(View(), c) && (lockMade ==> flight.None?)
      modifies this
      ensures View() == CloserDrains(old(View()), c)
    {
      if lockMade {
        if pending != [] {
          Flush(ByCloser(c));
          return;
        }
      } else if pending != [] {
        orphaned := orphaned + |pending|;
      }
      closers := closers[c := Closed];
    }

    /** A close cancelled while it waits for the lock. */
    method CloserCancelled(c: nat)
      requires Valid() && Enabled(View(), EvCloserLeaves(c))
      modifies this`closers
      ensures Valid() && View() == Step(cfg, old(View()), EvCloserLeaves(c))
    {
      ValidInRange();
      closers := closers[c := Aborted];
      MethodKeepsValid(EvCloserLeaves(c));
    }
  }
}
