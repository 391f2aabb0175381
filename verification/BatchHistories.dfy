/** The run of the batch embedder read off its events alone: what was asked, queued, flushed, answered and cached.
    The logs of the protocol are shown to say just that, and the cache to follow it. */
module BatchHistories {
  import opened Sequences
  import opened EmbeddingCache
  import opened BatchProtocol
  import opened BatchInvariants
  import opened BatchTheorems

  /** An event, under which settings and in which state it happened. */
  datatype Happened = Happened(cfg: Config, before: State, e: Event)

  function History(cfg: Config, s: State, es: seq<Event>): (h: seq<Happened>)
    requires 0 < cfg.cacheSize
    decreases |es|
  {
    if es == [] || !Enabled(s, es[0]) then [] else [Happened(cfg, s, es[0])] + History(cfg, Step(cfg, s, es[0]), es[1..])
  }

  function Each<T>(h: seq<Happened>, part: Happened -> seq<T>): seq<T> {
    if h == [] then [] else part(h[0]) + Each(h[1..], part)
  }

  // ---- what each event amounts to ----

  function TextsAsked(h: Happened): seq<string> {
    if h.e.EvAsk? then [h.e.text] else []
  }

  /** The request of the call that gets the lock. */
  function RequestMade(h: Happened): seq<Request> {
    if h.e.EvEnter? && h.e.id < |h.before.callers| then
      [Request(h.cfg.hash(h.before.callers[h.e.id].text), h.before.callers[h.e.id].text, h.e.id)]
    else []
  }

  /** The batch flushed: the queue, when a request makes it `max_batch` long, when the timer gets the lock, or when a
      close gets it. */
  function BatchTaken(h: Happened): seq<seq<Request>> {
    match h.e
    case EvEnter(_) =>
      if |h.before.pending| + 1 >= h.cfg.maxBatch then [h.before.pending + RequestMade(h)] else []
    case EvTimerWakes(_) => if h.before.pending != [] then [h.before.pending] else []
    case EvCloserDrains(_) => if h.before.pending != [] then [h.before.pending] else []
    case _ => []
  }

  function InFlight(h: Happened): seq<Request> {
    if h.before.flight.Some? then h.before.flight.value.batch else []
  }

  predicate AnsweredInFull(h: Happened) {
    h.e.EvAnswered? && |h.e.vectors| == |InFlight(h)|
  }

  function AnswerGiven(h: Happened): seq<Answer> {
    if h.e.EvAnswered? then [Answer(Texts(InFlight(h)), h.e.vectors)] else []
  }

  function FailureSeen(h: Happened): seq<Failure> {
    if h.e.EvFlushFails? then [h.e.reason]
    else if h.e.EvAnswered? && !AnsweredInFull(h) then [SizeMismatch]
    else []
  }

  /** What the cache ought to be told: a hit for a text it knows, a put for each text of a batch answered in full. */
  function CacheUse(h: Happened): seq<Touch> {
    if h.e.EvAsk? && h.cfg.hash(h.e.text) in h.before.cache.vals then [Hit(h.cfg.hash(h.e.text))]
    else if AnsweredInFull(h) then
      seq(|h.e.vectors|, i requires 0 <= i < |h.e.vectors| => Put(h.cfg.hash(InFlight(h)[i].text), h.e.vectors[i]))
    else []
  }

  function CallerTexts(callers: seq<Caller>): (r: seq<string>)
    ensures |r| == |callers|
  {
    seq(|callers|, i requires 0 <= i < |callers| => callers[i].text)
  }

  // ---- the logs say what happened ----

  lemma FlightRequests(cfg: Config, s: State)
    requires 0 < cfg.cacheSize && Inv(cfg, s) && s.flight.Some?
    ensures forall i :: 0 <= i < |s.flight.value.batch| ==> s.flight.value.batch[i].key == cfg.hash(s.flight.value.batch[i].text)
  {
    QueuedOnlyInBatch(cfg, s);
    forall i | 0 <= i < |s.flight.value.batch|
      ensures s.flight.value.batch[i].key == cfg.hash(s.flight.value.batch[i].text)
    {
      assert RequestOk(cfg, s.callers, s.flight.value.batch[i]);
    }
  }

  ghost predicate LogGrows(h: Happened, log: Log) {
    && log.touches == h.before.log.touches + CacheUse(h)
    && log.enqueued == h.before.log.enqueued + RequestMade(h)
    && log.batches == h.before.log.batches + BatchTaken(h)
    && log.answers == h.before.log.answers + AnswerGiven(h)
    && log.failures == h.before.log.failures + FailureSeen(h)
  }

  lemma AnswerLogs(cfg: Config, s: State, vectors: seq<Vector>)
    requires 0 < cfg.cacheSize && Inv(cfg, s) && s.flight.Some?
    ensures LogGrows(Happened(cfg, s, EvAnswered(vectors)), Answered(cfg, s, vectors).log)
  {
    FlightRequests(cfg, s);
    if |vectors| == |s.flight.value.batch| {
      assert Puts(s.flight.value.batch, vectors) == CacheUse(Happened(cfg, s, EvAnswered(vectors)));
    }
  }

  lemma EnterLogs(cfg: Config, s: State, id: nat)
    requires Enabled(s, EvEnter(id))
    ensures LogGrows(Happened(cfg, s, EvEnter(id)), Enter(cfg, s, id).log)
  {
  }

  /** A timer or a close that has the lock. */
  lemma LockTakerLogs(cfg: Config, s: State, e: Event)
    requires 0 < cfg.cacheSize && LogInv(cfg, s) && Enabled(s, e) && (e.EvTimerWakes? || e.EvCloserDrains?)
    ensures LogGrows(Happened(cfg, s, e), Step(cfg, s, e).log)
  {
  }

  lemma OtherLogs(cfg: Config, s: State, e: Event)
    requires 0 < cfg.cacheSize && Enabled(s, e)
    requires !e.EvEnter? && !e.EvTimerWakes? && !e.EvCloserDrains? && !e.EvAnswered?
    ensures LogGrows(Happened(cfg, s, e), Step(cfg, s, e).log)
  {
  }

  lemma StepLogs(cfg: Config, s: State, e: Event)
    requires 0 < cfg.cacheSize && Inv(cfg, s) && Enabled(s, e)
    ensures LogGrows(Happened(cfg, s, e), Step(cfg, s, e).log)
  {
    if e.EvAnswered? {
      AnswerLogs(cfg, s, e.vectors);
    } else if e.EvEnter? {
      EnterLogs(cfg, s, e.id);
    } else if e.EvTimerWakes? || e.EvCloserDrains? {
      LockTakerLogs(cfg, s, e);
    } else {
      OtherLogs(cfg, s, e);
    }
  }

  lemma SameTexts(before: seq<Caller>, after: seq<Caller>)
    requires |before| == |after| && forall i :: 0 <= i < |before| ==> after[i].text == before[i].text
    ensures CallerTexts(after) == CallerTexts(before)
  {
  }

  lemma QuietTexts(cfg: Config, s: State, e: Event)
    requires 0 < cfg.cacheSize && Enabled(s, e) && !e.EvAsk? && !e.EvAnswered? && !e.EvFlushFails?
    ensures CallerTexts(Step(cfg, s, e).callers) == CallerTexts(s.callers)
  {
    SameTexts(s.callers, Step(cfg, s, e).callers);
  }

  lemma FlushTexts(cfg: Config, s: State, e: Event)
    requires ValidConfig(cfg) && Inv(cfg, s) && Enabled(s, e) && (e.EvAnswered? || e.EvFlushFails?)
    ensures CallerTexts(Step(cfg, s, e).callers) == CallerTexts(s.callers)
  {
    if e.EvAnswered? { AnsweredCallers(cfg, s, e.vectors); } else { FlushFailsCallers(cfg, s, e.reason); }
    SameTexts(s.callers, Step(cfg, s, e).callers);
  }

  lemma StepAsks(cfg: Config, s: State, e: Event)
    requires ValidConfig(cfg) && Inv(cfg, s) && Enabled(s, e)
    ensures CallerTexts(Step(cfg, s, e).callers) == CallerTexts(s.callers) + TextsAsked(Happened(cfg, s, e))
  {
    if e.EvAsk? {
      AskTexts(cfg, s, e.text);
    } else if e.EvAnswered? || e.EvFlushFails? {
      FlushTexts(cfg, s, e);
    } else {
      QuietTexts(cfg, s, e);
    }
  }

  lemma AskTexts(cfg: Config, s: State, text: string)
    ensures CallerTexts(Ask(cfg, s, text).callers) == CallerTexts(s.callers) + [text]
  {
  }

  /** Since `before`, the logs have grown by what the events amount to, and so have the callers. */
  ghost predicate Tells(before: State, h: seq<Happened>, after: State) {
    && CallerTexts(after.callers) == CallerTexts(before.callers) + Each(h, TextsAsked)
    && after.log.touches == before.log.touches + Each(h, CacheUse)
    && after.log.enqueued == before.log.enqueued + Each(h, RequestMade)
    && after.log.batches == before.log.batches + Each(h, BatchTaken)
    && after.log.answers == before.log.answers + Each(h, AnswerGiven)
    && after.log.failures == before.log.failures + Each(h, FailureSeen)
  }

  lemma EachFirst<T>(x: Happened, h: seq<Happened>, part: Happened -> seq<T>)
    ensures Each([x] + h, part) == part(x) + Each(h, part)
  {
    assert ([x] + h)[1..] == h;
  }

  lemma Longer<T>(x: Happened, h: seq<Happened>, part: Happened -> seq<T>, first: seq<T>, mid: seq<T>, last: seq<T>)
    requires mid == first + part(x) && last == mid + Each(h, part)
    ensures last == first + Each([x] + h, part)
  {
    EachFirst(x, h, part);
  }

  lemma TellsMore(x: Happened, mid: State, h: seq<Happened>, after: State)
    requires CallerTexts(mid.callers) == CallerTexts(x.before.callers) + TextsAsked(x) && LogGrows(x, mid.log)
    requires Tells(mid, h, after)
    ensures Tells(x.before, [x] + h, after)
  {
    Longer(x, h, TextsAsked, CallerTexts(x.before.callers), CallerTexts(mid.callers), CallerTexts(after.callers));
    Longer(x, h, CacheUse, x.before.log.touches, mid.log.touches, after.log.touches);
    Longer(x, h, RequestMade, x.before.log.enqueued, mid.log.enqueued, after.log.enqueued);
    Longer(x, h, BatchTaken, x.before.log.batches, mid.log.batches, after.log.batches);
    Longer(x, h, AnswerGiven, x.before.log.answers, mid.log.answers, after.log.answers);
    Longer(x, h, FailureSeen, x.before.log.failures, mid.log.failures, after.log.failures);
  }

  lemma StepTells(cfg: Config, s: State, e: Event)
    requires ValidConfig(cfg) && Inv(cfg, s) && Enabled(s, e)
    ensures Inv(cfg, Step(cfg, s, e))
    ensures var x, s' := Happened(cfg, s, e), Step(cfg, s, e);
            CallerTexts(s'.callers) == CallerTexts(s.callers) + TextsAsked(x) && LogGrows(x, s'.log)
  {
    InvKept(cfg, s, e);
    StepLogs(cfg, s, e);
    StepAsks(cfg, s, e);
  }

  lemma {:induction false} RunTells(cfg: Config, s: State, es: seq<Event>)
    requires ValidConfig(cfg) && Inv(cfg, s) && Exec(cfg, s, es).Some?
    ensures Tells(s, History(cfg, s, es), Exec(cfg, s, es).value)
    decreases |es|
  {
    if es != [] {
      StepTells(cfg, s, es[0]);
      var s1 := Step(cfg, s, es[0]);
      RunTells(cfg, s1, es[1..]);
      TellsMore(Happened(cfg, s, es[0]), s1, History(cfg, s1, es[1..]), Exec(cfg, s1, es[1..]).value);
      RunFirst(cfg, s, es);
    }
  }

  lemma RunFirst(cfg: Config, s: State, es: seq<Event>)
    requires 0 < cfg.cacheSize && es != [] && Enabled(s, es[0])
    ensures History(cfg, s, es) == [Happened(cfg, s, es[0])] + History(cfg, Step(cfg, s, es[0]), es[1..])
    ensures Exec(cfg, s, es) == Exec(cfg, Step(cfg, s, es[0]), es[1..])
  {
  }

  /** In every run the calls are those made, and queue, batches, answers, failures and the use of the cache are logged
      as they happened, in order. */
  lemma LogsAreTrue(cfg: Config, es: seq<Event>, s: State)
    requires Reached(cfg, es, s)
    ensures var h := History(cfg, Init(), es);
            && CallerTexts(s.callers) == Each(h, TextsAsked)
            && s.log.touches == Each(h, CacheUse)
            && s.log.enqueued == Each(h, RequestMade)
            && s.log.batches == Each(h, BatchTaken)
            && s.log.answers == Each(h, AnswerGiven)
            && s.log.failures == Each(h, FailureSeen)
  {
    assert Inv(cfg, Init());
    RunTells(cfg, Init(), es);
    assert CallerTexts(Init().callers) == [];
  }

  // ---- the cache follows the events ----

  /** The vector put last for the key. */
  ghost predicate LastPut(ts: seq<Touch>, key: string, v: Vector) {
    exists i :: 0 <= i < |ts| && ts[i] == Put(key, v) && forall j :: i < j < |ts| && ts[j].Put? ==> ts[j].key != key
  }

  lemma LastPutStays(ts: seq<Touch>, t: Touch, key: string, v: Vector)
    requires if t.Put? && t.key == key then v == t.v else LastPut(ts, key, v)
    ensures LastPut(ts + [t], key, v)
  {
    if t.Put? && t.key == key {
      assert (ts + [t])[|ts|] == Put(key, v);
    } else {
      var i :| 0 <= i < |ts| && ts[i] == Put(key, v) && forall j :: i < j < |ts| && ts[j].Put? ==> ts[j].key != key;
      assert (ts + [t])[i] == Put(key, v);
    }
  }

  lemma HeldNext(ts: seq<Touch>, c: Cache, size: nat, key: string)
    requires 0 < size && ts != [] && CanTouch(c, ts[|ts| - 1]) && key in Apply(c, size, ts[|ts| - 1]).vals
    requires key in c.vals ==> LastPut(ts[..|ts| - 1], key, c.vals[key])
    ensures LastPut(ts, key, Apply(c, size, ts[|ts| - 1]).vals[key])
  {
    var n := |ts| - 1;
    LastPutStays(ts[..n], ts[n], key, Apply(c, size, ts[n]).vals[key]);
    assert ts[..n] + [ts[n]] == ts;
  }

  lemma BeforeLast(ts: seq<Touch>, size: nat, c: Cache) returns (c0: Cache)
    requires 0 < size && ts != [] && Reaches(ts, size, c)
    ensures var n := |ts| - 1; Reaches(ts[..n], size, c0) && CanTouch(c0, ts[n]) && c == Apply(c0, size, ts[n])
  {
    var n := |ts| - 1;
    c0 :| Reaches(ts[..n], size, c0) && CanTouch(c0, ts[n]) && c == Apply(c0, size, ts[n]);
  }

  lemma {:induction false} HeldIsLastPut(ts: seq<Touch>, size: nat, c: Cache, key: string)
    requires 0 < size && Reaches(ts, size, c) && key in c.vals
    ensures LastPut(ts, key, c.vals[key])
    decreases |ts|
  {
    var n := |ts| - 1;
    var c0 := BeforeLast(ts, size, c);
    if key in c0.vals { HeldIsLastPut(ts[..n], size, c0, key); }
    HeldNext(ts, c0, size, key);
  }

  /** The cache after the uses `used`: for a key it holds, the vector put last; its keys the latest ones, without gap or
      duplicate and within the size, the very last one last; and as many as a least-recently-used cache holds if no
      put shrank it. */
  ghost predicate Follows(c: Cache, size: nat, used: seq<Touch>)
    requires 0 < size
  {
    && (forall key :: key in c.vals ==> LastPut(used, key, c.vals[key]))
    && Sound(c, size, Recency(used))
    && (used != [] ==> c.order != [] && c.order[|c.order| - 1] == used[|used| - 1].key)
    && (ShrinkFree(used, size) ==> ExactlyLru(c, size, Recency(used)))
  }

  lemma ReachedFollows(c: Cache, size: nat, used: seq<Touch>)
    requires 0 < size && Reaches(used, size, c)
    ensures Follows(c, size, used)
  {
    CacheIsRecencySuffix(used, size, c);
    if ShrinkFree(used, size) { LruWhenShrinkFree(used, size, c); }
    forall key | key in c.vals ensures LastPut(used, key, c.vals[key]) { HeldIsLastPut(used, size, c, key); }
  }

  /** In every run the cache follows the hits, and the puts of the batches answered in full. */
  lemma CacheFollowsAnswers(cfg: Config, es: seq<Event>, s: State)
    requires Reached(cfg, es, s)
    ensures Follows(s.cache, cfg.cacheSize, Each(History(cfg, Init(), es), CacheUse))
  {
    LogsAreTrue(cfg, es, s);
    ReachedInv(cfg, es, s);
    ReachedFollows(s.cache, cfg.cacheSize, s.log.touches);
  }

  // ---- what an answer leaves in the cache ----

  /** At most `n` keys are newer in the cache than `key`, which stands for `v`. */
  ghost predicate HeldWithin(c: Cache, key: string, v: Vector, n: nat) {
    && c.Valid()
    && key in c.vals && c.vals[key] == v
    && exists p :: 0 <= p < |c.order| && c.order[p] == key && |c.order| - 1 - p <= n
  }

  lemma {:induction false} WithoutShorter(s: seq<string>, x: string)
    ensures |Without(s, x)| <= |s|
  {
    if s != [] { WithoutShorter(s[1..], x); }
  }

  lemma StillWithin(order: seq<string>, p: nat, key: string, other: string)
    requires p < |order| && order[p] == key != other
    ensures var o := Without(order, other) + [other];
            exists q :: 0 <= q < |o| && o[q] == key && |o| - 1 - q <= |order| - p
  {
    var a, b := order[..p], order[p + 1..];
    assert order == a + ([key] + b);
    WithoutConcat(a, [key] + b, other);
    WithoutConcat([key], b, other);
    assert Without([key], other) == [key];
    WithoutShorter(b, other);
    var o := Without(order, other) + [other];
    assert o == Without(a, other) + [key] + Without(b, other) + [other];
    assert o[|Without(a, other)|] == key;
  }

  /** Putting another key makes at most one more of them, and loses none but the oldest of a full cache. */
  lemma PutElsewhere(c: Cache, size: nat, key: string, v: Vector, n: nat, other: string, w: Vector)
    requires 0 < size && HeldWithin(c, key, v, n) && c.Size() <= size && n + 1 < size && other != key
    ensures HeldWithin(AfterPut(c, size, other, w), key, v, n + 1)
  {
    PutShape(c, size, other, w);
    var p :| 0 <= p < |c.order| && c.order[p] == key && |c.order| - 1 - p <= n;
    var kept := if c.Size() >= size then c.order[1..] else c.order;
    var q := if c.Size() >= size then p - 1 else p;
    assert kept[q] == key;
    StillWithin(kept, q, key, other);
    if c.Size() >= size { assert c.order[0] != key; }
  }

  lemma PutHere(c: Cache, size: nat, key: string, v: Vector)
    requires 0 < size && c.Valid() && c.Size() <= size
    ensures HeldWithin(AfterPut(c, size, key, v), key, v, 0)
    ensures AfterPut(c, size, key, v).Size() <= size
  {
    PutShape(c, size, key, v);
    var order := AfterPut(c, size, key, v).order;
    assert order[|order| - 1] == key;
  }

  lemma {:induction false} PutAllHolds(c: Cache, size: nat, batch: seq<Request>, vectors: seq<Vector>, i: nat)
    requires 0 < size && c.Valid() && c.Size() <= size && |batch| == |vectors| && i < |batch| && |batch| - i <= size
    requires forall j :: i < j < |batch| ==> batch[j].key != batch[i].key
    ensures HeldWithin(PutAll(c, size, batch, vectors), batch[i].key, vectors[i], |batch| - 1 - i)
    ensures PutAll(c, size, batch, vectors).Size() <= size
    decreases |batch|
  {
    var n := |batch| - 1;
    PutAllSound(c, size, batch[..n], vectors[..n]);
    if i == n {
      PutHere(PutAll(c, size, batch[..n], vectors[..n]), size, batch[n].key, vectors[n]);
    } else {
      PutAllHolds(c, size, batch[..n], vectors[..n], i);
      PutElsewhere(PutAll(c, size, batch[..n], vectors[..n]), size, batch[i].key, vectors[i], n - 1 - i, batch[n].key, vectors[n]);
      PutShape(PutAll(c, size, batch[..n], vectors[..n]), size, batch[n].key, vectors[n]);
    }
  }

  lemma {:induction false} PutAllSound(c: Cache, size: nat, batch: seq<Request>, vectors: seq<Vector>)
    requires 0 < size && c.Valid() && c.Size() <= size && |batch| == |vectors|
    ensures PutAll(c, size, batch, vectors).Valid() && PutAll(c, size, batch, vectors).Size() <= size
    decreases |batch|
  {
    if batch != [] {
      var n := |batch| - 1;
      PutAllSound(c, size, batch[..n], vectors[..n]);
      PutShape(PutAll(c, size, batch[..n], vectors[..n]), size, batch[n].key, vectors[n]);
    }
  }

  /** A flush that is answered in full is remembered: a text of its batch that is not asked for again further on in it,
      among the last `cache_size` of the batch, is served next time with the very vector it was given. */
  lemma AnswerIsServedNext(cfg: Config, es: seq<Event>, s: State, vectors: seq<Vector>, i: nat)
    requires Reached(cfg, es, s) && s.flight.Some? && |vectors| == |s.flight.value.batch|
    requires i < |vectors| && |vectors| - i <= cfg.cacheSize
    requires forall j :: i < j < |vectors| ==> s.flight.value.batch[j].text != s.flight.value.batch[i].text
    ensures var text, s' := s.flight.value.batch[i].text, Step(cfg, s, EvAnswered(vectors));
            var asked := Step(cfg, s', EvAsk(text));
            && asked.callers == s'.callers + [Caller(text, Served, Resolved(vectors[i]))]
            && asked.cacheHits == s.cacheHits + 1 && asked.pending == s'.pending
  {
    ReachedInv(cfg, es, s);
    FlightRequests(cfg, s);
    var batch := s.flight.value.batch;
    CacheIsRecencySuffix(s.log.touches, cfg.cacheSize, s.cache);
    forall j | i < j < |batch| ensures batch[j].key != batch[i].key { KeysTellTextsApart(cfg, batch[j].text, batch[i].text); }
    PutAllHolds(s.cache, cfg.cacheSize, batch, vectors, i);
  }

  lemma KeysTellTextsApart(cfg: Config, a: string, b: string)
    requires ValidConfig(cfg) && a != b
    ensures cfg.hash(a) != cfg.hash(b)
  {
  }

  // ---- the counters, by events ----

  predicate ProviderFailed(h: Happened) {
    (h.e.EvFlushFails? && h.e.reason == ProviderError) || (h.e.EvAnswered? && !AnsweredInFull(h))
  }

  predicate WasHit(h: Happened) { h.e.EvAsk? && h.cfg.hash(h.e.text) in h.before.cache.vals }

  function Tally(h: seq<Happened>, p: Happened -> bool): nat {
    if h == [] then 0 else (if p(h[0]) then 1 else 0) + Tally(h[1..], p)
  }

  lemma StepCounts(cfg: Config, s: State, e: Event)
    requires 0 < cfg.cacheSize && Enabled(s, e)
    ensures var x, s' := Happened(cfg, s, e), Step(cfg, s, e);
            && s'.totalRequests == s.totalRequests + |TextsAsked(x)|
            && s'.cacheHits == s.cacheHits + (if WasHit(x) then 1 else 0)
            && s'.providerErrors == s.providerErrors + (if ProviderFailed(x) then 1 else 0)
  {
  }

  lemma {:induction false} RunCounts(cfg: Config, s: State, es: seq<Event>)
    requires 0 < cfg.cacheSize && Exec(cfg, s, es).Some?
    ensures var h, s' := History(cfg, s, es), Exec(cfg, s, es).value;
            && s'.totalRequests == s.totalRequests + |Each(h, TextsAsked)|
            && s'.cacheHits == s.cacheHits + Tally(h, WasHit)
            && s'.providerErrors == s.providerErrors + Tally(h, ProviderFailed)
    decreases |es|
  {
    if es != [] {
      StepCounts(cfg, s, es[0]);
      RunCounts(cfg, Step(cfg, s, es[0]), es[1..]);
      var x, h := Happened(cfg, s, es[0]), History(cfg, Step(cfg, s, es[0]), es[1..]);
      EachFirst(x, h, TextsAsked);
      assert ([x] + h)[1..] == h;
    }
  }

  /** The figures of `stats()` count what happened in the run: calls, hits, flushes begun and provider failures; and the
      futures that failed for another reason than a wrong number of vectors. */
  lemma StatsCountEvents(cfg: Config, es: seq<Event>, s: State)
    requires Reached(cfg, es, s)
    ensures var h := History(cfg, Init(), es);
            && s.totalRequests == |Each(h, TextsAsked)|
            && s.cacheHits == Tally(h, WasHit)
            && s.flushCount == |Each(h, BatchTaken)|
            && s.providerErrors == Tally(h, ProviderFailed)
            && s.orphaned == Count(s.callers, Lost)
  {
    RunCounts(cfg, Init(), es);
    LogsAreTrue(cfg, es, s);
    StatsAreTrue(cfg, es, s);
  }

  // ---- who flushes what ----

  /** A batch taken by a call has exactly `max_batch` requests. */
  lemma CallsFlushFullBatches(cfg: Config, es: seq<Event>, s: State)
    requires Reached(cfg, es, s) && s.flight.Some? && s.flight.value.owner.ByCaller?
    ensures |s.flight.value.batch| == cfg.maxBatch
  {
    assert Inv(cfg, Init());
    RunKeepsFull(cfg, Init(), es);
  }

  ghost predicate FullByCaller(cfg: Config, s: State) {
    s.flight.Some? && s.flight.value.owner.ByCaller? ==> |s.flight.value.batch| == cfg.maxBatch
  }

  lemma {:induction false} RunKeepsFull(cfg: Config, s: State, es: seq<Event>)
    requires ValidConfig(cfg) && Inv(cfg, s) && FullByCaller(cfg, s) && Exec(cfg, s, es).Some?
    ensures FullByCaller(cfg, Exec(cfg, s, es).value)
    decreases |es|
  {
    if es != [] {
      InvKept(cfg, s, es[0]);
      StepKeepsFull(cfg, s, es[0]);
      RunKeepsFull(cfg, Step(cfg, s, es[0]), es[1..]);
    }
  }

  lemma StepKeepsFull(cfg: Config, s: State, e: Event)
    requires 0 < cfg.cacheSize && LogInv(cfg, s) && Enabled(s, e) && FullByCaller(cfg, s)
    ensures FullByCaller(cfg, Step(cfg, s, e))
  {
  }

  /** A close that runs a flush goes through whatever the provider does, unless the close is itself cancelled. */
  lemma CloseEndsWith(cfg: Config, s: State, e: Event)
    requires 0 < cfg.cacheSize && LockInv(s) && Enabled(s, e) && (e.EvAnswered? || e.EvFlushFails?)
    requires s.flight.value.owner.ByCloser?
    ensures CloserAt(Step(cfg, s, e), s.flight.value.owner.c, if e == EvFlushFails(FlushCancelled) then Aborted else Closed)
  {
  }
}
