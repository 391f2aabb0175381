/** The batching protocol of utils/batch_embedder.py as a state machine. One step is the code a task
    runs between two awaits; the lock is held across an await exactly while a flush waits for the
    provider, so the flush in flight is part of the state. Steps may interleave in any order. */
module BatchProtocol {
  import opened Sequences
  import opened OrderedDicts
  import opened EmbeddingCache

  datatype Failure = SizeMismatch | ProviderError | FlushCancelled

  /** What one call of `embed_one` has come to; for a queued call this is its future. */
  datatype Outcome = Waiting | Cancelled | Resolved(v: Vector) | Failed(reason: Failure)

  /** Where a call of `embed_one` stands: served from the cache, waiting for the lock, its request
      queued, or cancelled before it was queued. */
  datatype Stage = Served | AtLock | Queued | Withdrawn

  datatype Caller = Caller(text: string, stage: Stage, outcome: Outcome)

  /** An entry of `_pending`; `id` is the caller that awaits its future. */
  datatype Request = Request(key: string, text: string, id: nat)

  /** A `_delayed_flush` task: sleeping or waiting for the lock, told to stop, in its flush, over. */
  datatype Timer = Armed | Cancelling | Flushing | Done

  datatype Owner = ByCaller(id: nat) | ByTimer(t: nat) | ByCloser(c: nat)

  datatype Flight = Flight(batch: seq<Request>, owner: Owner)

  /** A call of `flush_and_close`. A close that reaches a free lock goes on without an await; only one that
      had to queue for it (`queued`) can be cancelled there. */
  datatype Closer = AwaitsTimer(t: nat) | AwaitsLock(queued: bool) | Draining | Closed | Aborted

  datatype Answer = Answer(texts: seq<string>, vectors: seq<Vector>)

  datatype Config = Config(hash: string -> string, maxBatch: nat, cacheSize: nat)

  /** The settings the code validates at start-up; the hash is assumed free of collisions. */
  ghost predicate ValidConfig(cfg: Config) {
    && 1 <= cfg.maxBatch
    && 1 <= cfg.cacheSize
    && forall a, b :: cfg.hash(a) == cfg.hash(b) ==> a == b
  }

  datatype State = State(
    cache: Cache,
    pending: seq<Request>,
    flushTask: Option<nat>,
    lockMade: bool,
    flight: Option<Flight>,
    callers: seq<Caller>,
    timers: seq<Timer>,
    closers: seq<Closer>,
    totalRequests: nat,
    cacheHits: nat,
    flushCount: nat,
    providerErrors: nat,
    orphaned: nat,
    log: Log)

  /** History: cache touches, requests in the order they were queued, batches in the order they were
      flushed, everything the provider returned, and how flushes failed. */
  datatype Log = Log(
    touches: seq<Touch>,
    enqueued: seq<Request>,
    batches: seq<seq<Request>>,
    answers: seq<Answer>,
    failures: seq<Failure>)

  function Init(): State {
    State(Empty(), [], None, false, None, [], [], [], 0, 0, 0, 0, 0, Log([], [], [], [], []))
  }

  function Texts(batch: seq<Request>): (ts: seq<string>)
    ensures |ts| == |batch|
    ensures forall i :: 0 <= i < |ts| ==> ts[i] == batch[i].text
  {
    seq(|batch|, i requires 0 <= i < |batch| => batch[i].text)
  }

  // ---- settling futures ----

  /** `if not future.done(): future.set_...(...)`. */
  function Settle(callers: seq<Caller>, id: nat, o: Outcome): (r: seq<Caller>)
    ensures |r| == |callers|
  {
    if id < |callers| && callers[id].outcome.Waiting? then callers[id := callers[id].(outcome := o)] else callers
  }

  function FailAll(callers: seq<Caller>, batch: seq<Request>, reason: Failure): (r: seq<Caller>)
    ensures |r| == |callers|
  {
    if batch == [] then callers
    else Settle(FailAll(callers, batch[..|batch| - 1], reason), batch[|batch| - 1].id, Failed(reason))
  }

  /** How many futures the failure loop settles: the `orphaned` count. */
  function Orphans(callers: seq<Caller>, batch: seq<Request>, reason: Failure): nat {
    if batch == [] then 0
    else
      var n := |batch| - 1;
      var before := FailAll(callers, batch[..n], reason);
      Orphans(callers, batch[..n], reason)
      + if batch[n].id < |before| && before[batch[n].id].outcome.Waiting? then 1 else 0
  }

  function ResolveAll(callers: seq<Caller>, batch: seq<Request>, vectors: seq<Vector>): (r: seq<Caller>)
    requires |batch| == |vectors|
    ensures |r| == |callers|
  {
    if batch == [] then callers
    else
      var n := |batch| - 1;
      Settle(ResolveAll(callers, batch[..n], vectors[..n]), batch[n].id, Resolved(vectors[n]))
  }

  function PutAll(cache: Cache, size: nat, batch: seq<Request>, vectors: seq<Vector>): Cache
    requires 0 < size && |batch| == |vectors|
  {
    if batch == [] then cache
    else
      var n := |batch| - 1;
      AfterPut(PutAll(cache, size, batch[..n], vectors[..n]), size, batch[n].key, vectors[n])
  }

  function Puts(batch: seq<Request>, vectors: seq<Vector>): (ts: seq<Touch>)
    requires |batch| == |vectors|
    ensures |ts| == |batch|
  {
    seq(|batch|, i requires 0 <= i < |batch| => Put(batch[i].key, vectors[i]))
  }

  // ---- steps ----

  /** `embed_one` up to the lock: a cache hit returns at once. */
  function Ask(cfg: Config, s: State, text: string): State {
    var key := cfg.hash(text);
    var s1 := s.(totalRequests := s.totalRequests + 1);
    if key in s.cache.vals then
      s1.(cache := AfterGet(s.cache, key),
      cacheHits := s.cacheHits + 1,
      callers := s.callers + [Caller(text, Served, Resolved(s.cache.vals[key]))],
      log := s.log.(touches := s.log.touches + [Hit(key)]))
    else
      s1.(callers := s.callers + [Caller(text, AtLock, Waiting)], lockMade := true)
  }

  predicate TimerAt(s: State, t: nat, st: Timer) {
    t < |s.timers| && s.timers[t] == st
  }

  predicate CloserAt(s: State, c: nat, st: Closer) {
    c < |s.closers| && s.closers[c] == st
  }

  predicate CallerAt(s: State, id: nat, st: Stage) {
    id < |s.callers| && s.callers[id].stage == st
  }

  predicate CloserWaits(s: State, c: nat) {
    c < |s.closers| && s.closers[c].AwaitsLock?
  }

  /** Somebody may hold the lock or queue for it. */
  predicate Contended(s: State) {
    || s.flight.Some?
    || (exists i :: 0 <= i < |s.callers| && s.callers[i].stage.AtLock?)
    || (exists t :: 0 <= t < |s.timers| && !s.timers[t].Done?)
    || (exists c :: 0 <= c < |s.closers| && s.closers[c] == AwaitsLock(true))
  }

  /** `task.cancel()` on a timer that is asleep or waiting for the lock. */
  function StopTimer(timers: seq<Timer>, t: nat): (r: seq<Timer>)
    ensures |r| == |timers|
  {
    if t < |timers| && timers[t].Armed? then timers[t := Cancelling] else timers
  }

  /** `_flush` up to the provider call. */
  function TakeBatch(s: State, owner: Owner): State {
    var stale := s.flushTask.Some? && owner != ByTimer(s.flushTask.value);
    var timers := if stale then StopTimer(s.timers, s.flushTask.value) else s.timers;
    s.(pending := [],
    flushCount := s.flushCount + 1,
    flushTask := None,
    timers := if owner.ByTimer? && owner.t < |timers| then timers[owner.t := Flushing] else timers,
    closers := if owner.ByCloser? && owner.c < |s.closers| then s.closers[owner.c := Draining] else s.closers,
    flight := Some(Flight(s.pending, owner)),
    log := s.log.(batches := s.log.batches + [s.pending]))
  }

  /** `embed_one` inside the lock. */
  function Enter(cfg: Config, s: State, id: nat): State
    requires CallerAt(s, id, AtLock)
  {
    var r := Request(cfg.hash(s.callers[id].text), s.callers[id].text, id);
    var s1 := s.(pending := s.pending + [r],
                 callers := s.callers[id := s.callers[id].(stage := Queued)],
                 log := s.log.(enqueued := s.log.enqueued + [r]));
    if |s1.pending| >= cfg.maxBatch then TakeBatch(s1, ByCaller(id))
    else if s.flushTask.None? || TimerAt(s, s.flushTask.value, Done) then
      s1.(timers := s.timers + [Armed], flushTask := Some(|s.timers|))
    else s1
  }

  /** `_delayed_flush` once it has the lock. */
  function TimerWakes(s: State, t: nat): State
    requires TimerAt(s, t, Armed)
  {
    if s.pending != [] then TakeBatch(s, ByTimer(t)) else s.(timers := s.timers[t := Done])
  }

  /** The flush returns or raises: the lock is released and its task goes on. */
  function EndFlush(s: State, closer: Closer): State
    requires s.flight.Some?
  {
    var o := s.flight.value.owner;
    s.(flight := None,
    timers := if o.ByTimer? && o.t < |s.timers| then s.timers[o.t := Done] else s.timers,
    closers := if o.ByCloser? && o.c < |s.closers| then s.closers[o.c := closer] else s.closers)
  }

  function Answered(cfg: Config, s: State, vectors: seq<Vector>): State
    requires s.flight.Some? && 0 < cfg.cacheSize
  {
    var batch := s.flight.value.batch;
    var log := s.log.(answers := s.log.answers + [Answer(Texts(batch), vectors)]);
    if |vectors| != |batch| then
      EndFlush(s.(providerErrors := s.providerErrors + 1,
                  callers := FailAll(s.callers, batch, SizeMismatch),
                  log := log.(failures := log.failures + [SizeMismatch])), Closed)
    else
      EndFlush(s.(cache := PutAll(s.cache, cfg.cacheSize, batch, vectors),
                  callers := ResolveAll(s.callers, batch, vectors),
                  log := log.(touches := log.touches + Puts(batch, vectors))), Closed)
  }

  function FlushFails(s: State, reason: Failure): State
    requires s.flight.Some?
  {
    var batch := s.flight.value.batch;
    EndFlush(s.(providerErrors := if reason.ProviderError? then s.providerErrors + 1 else s.providerErrors,
                orphaned := s.orphaned + Orphans(s.callers, batch, reason),
                callers := FailAll(s.callers, batch, reason),
                log := s.log.(failures := s.log.failures + [reason])),
             if reason.FlushCancelled? then Aborted else Closed)
  }

  /** The task that called `embed_one` is cancelled while it waits for the lock or for its future. */
  function CallerLeaves(s: State, id: nat): State
    requires id < |s.callers|
  {
    var c := s.callers[id];
    s.(callers := s.callers[id := Caller(c.text, if c.stage.AtLock? then Withdrawn else c.stage, Cancelled)])
  }

  /** `flush_and_close` up to its first await. */
  function CloseBegins(s: State): State {
    if s.flushTask.Some? && !TimerAt(s, s.flushTask.value, Done) then
      s.(timers := StopTimer(s.timers, s.flushTask.value),
      closers := s.closers + [AwaitsTimer(s.flushTask.value)])
    else s.(closers := s.closers + [AwaitsLock(Contended(s))])
  }

  /** `flush_and_close` from the lock on; without a lock nothing can be pending. */
  function CloserDrains(s: State, c: nat): State
    requires CloserWaits(s, c)
  {
    if s.lockMade then
      if s.pending != [] then TakeBatch(s, ByCloser(c)) else s.(closers := s.closers[c := Closed])
    else
      s.(orphaned := s.orphaned + |s.pending|, closers := s.closers[c := Closed])
  }

  datatype Event =
    | EvAsk(text: string)
    | EvEnter(id: nat)
    | EvTimerWakes(t: nat)
    | EvTimerDies(t: nat)
    | EvAnswered(vectors: seq<Vector>)
    | EvFlushFails(reason: Failure)
    | EvCallerLeaves(id: nat)
    | EvCloseBegins
    | EvCloserResumes(c: nat)
    | EvCloserDrains(c: nat)
    | EvCloserLeaves(c: nat)

  predicate Enabled(s: State, e: Event) {
    match e
    case EvAsk(_) => true
    case EvEnter(id) => CallerAt(s, id, AtLock) && s.flight.None?
    case EvTimerWakes(t) => TimerAt(s, t, Armed) && s.flight.None?
    case EvTimerDies(t) => TimerAt(s, t, Cancelling)
    case EvAnswered(_) => s.flight.Some?
    case EvFlushFails(reason) => s.flight.Some? && !reason.SizeMismatch?
    case EvCallerLeaves(id) =>
      && id < |s.callers|
      && s.callers[id].outcome.Waiting?
      && !(s.flight.Some? && s.flight.value.owner == ByCaller(id))
    case EvCloseBegins => true
    case EvCloserResumes(c) =>
      c < |s.closers| && s.closers[c].AwaitsTimer? && TimerAt(s, s.closers[c].t, Done)
    case EvCloserDrains(c) => CloserWaits(s, c) && (s.lockMade ==> s.flight.None?)
    case EvCloserLeaves(c) => CloserAt(s, c, AwaitsLock(true))
  }

  function Step(cfg: Config, s: State, e: Event): State
    requires 0 < cfg.cacheSize && Enabled(s, e)
  {
    match e
    case EvAsk(text) => Ask(cfg, s, text)
    case EvEnter(id) => Enter(cfg, s, id)
    case EvTimerWakes(t) => TimerWakes(s, t)
    case EvTimerDies(t) => s.(timers := s.timers[t := Done])
    case EvAnswered(vectors) => Answered(cfg, s, vectors)
    case EvFlushFails(reason) => FlushFails(s, reason)
    case EvCallerLeaves(id) => CallerLeaves(s, id)
    case EvCloseBegins => CloseBegins(s)
    case EvCloserResumes(c) => s.(closers := s.closers[c := AwaitsLock(Contended(s))])
    case EvCloserDrains(c) => CloserDrains(s, c)
    case EvCloserLeaves(c) => s.(closers := s.closers[c := Aborted])
  }

  /** The state after the events `es` from `s`, if each was enabled in its turn. */
  function Exec(cfg: Config, s: State, es: seq<Event>): Option<State>
    requires 0 < cfg.cacheSize
    decreases |es|
  {
    if es == [] then Some(s)
    else if Enabled(s, es[0]) then Exec(cfg, Step(cfg, s, es[0]), es[1..])
    else None
  }

  /** `s` is reached by the run `es` of a fresh embedder. */
  ghost predicate Reached(cfg: Config, es: seq<Event>, s: State) {
    ValidConfig(cfg) && Exec(cfg, Init(), es) == Some(s)
  }
}
