/** The one way the batching protocol can leave a request behind, along a run the event loop can take. */
module StrandedRequests {
  import opened Sequences
  import opened OrderedDicts
  import opened BatchProtocol
  import opened BatchInvariants
  import opened BatchTheorems
  import opened LockOrder

  // ---- the run ----

  /** A request is pending whose caller waits, and nothing is left that would flush it. */
  ghost predicate Stranded(s: State) {
    && s.flight.None? && !SomeArmed(s) && !Closing(s)
    && exists k :: 0 <= k < |s.pending| && s.pending[k].id < |s.callers| && s.callers[s.pending[k].id].outcome.Waiting?
  }

  /** Three calls queue behind a flush that has just ended, and nothing else is going on. */
  ghost predicate ThreeWait(l: Locked, n: nat, t: nat, c: nat) {
    var s := l.s;
    && s.flight.None? && s.pending == [] && s.flushTask.None? && !SomeArmed(s) && !Closing(s)
    && |s.callers| == n + 3 && s.lockMade && |s.timers| == t && |s.closers| == c
    && (forall i :: n <= i < n + 3 ==> s.callers[i].stage.AtLock? && s.callers[i].outcome.Waiting?)
    && l.q == LockQueue([CallWaits(n), CallWaits(n + 1), CallWaits(n + 2)], None)
  }

  /** The first is queued and its timer sleeps; a close begins, stops the timer and awaits it. */
  function Opening(n: nat): seq<Event> { [EvEnter(n), EvCloseBegins] }

  ghost predicate Opened(l: Locked, n: nat, t: nat, c: nat) {
    var s := l.s;
    && s.flight.None? && |s.pending| == 1 && s.pending[0].id == n && !SomeArmed(s)
    && n + 2 < |s.callers| && s.callers[n].outcome.Waiting?
    && (forall i :: n + 1 <= i < n + 3 ==> s.callers[i].stage.AtLock? && s.callers[i].outcome.Waiting?)
    && t < |s.timers| && s.timers[t] == Cancelling
    && c < |s.closers| && s.closers[c] == AwaitsTimer(t) && !OtherClosing(s, c)
    && l.q == LockQueue([CallWaits(n + 1), CallWaits(n + 2)], None)
  }

  lemma OpeningRuns(cfg: Config, l: Locked, n: nat, t: nat, c: nat)
    requires 2 <= cfg.maxBatch && 0 < cfg.cacheSize && ThreeWait(l, n, t, c)
    ensures RunLocked(cfg, l, Opening(n)).Some?
    ensures Opened(RunLocked(cfg, l, Opening(n)).value, n, t, c)
  {
    var l1 := Locked(Enter(cfg, l.s, n), NextQueue(cfg, l, EvEnter(n)));
    EnterQueues(cfg, l, n, t, c);
    var l2 := Locked(CloseBegins(l1.s), NextQueue(cfg, l1, EvCloseBegins));
    CloseAwaits(cfg, l1, n, t, c);
    OneMore(cfg, l, [], l, EvEnter(n));
    OneMore(cfg, l, [EvEnter(n)], l1, EvCloseBegins);
    assert [] + [EvEnter(n)] == [EvEnter(n)] && [EvEnter(n)] + [EvCloseBegins] == Opening(n);
  }

  ghost predicate FirstQueued(l: Locked, n: nat, t: nat) {
    var s := l.s;
    && s.flight.None? && |s.pending| == 1 && s.pending[0].id == n && s.flushTask == Some(t)
    && |s.timers| == t + 1 && s.timers[t] == Armed && (forall u :: 0 <= u < t ==> !s.timers[u].Armed?) && !Closing(s)
    && n + 2 < |s.callers| && s.callers[n].outcome.Waiting?
    && (forall i :: n + 1 <= i < n + 3 ==> s.callers[i].stage.AtLock? && s.callers[i].outcome.Waiting?)
    && l.q == LockQueue([CallWaits(n + 1), CallWaits(n + 2)], None)
  }

  lemma EnterQueues(cfg: Config, l: Locked, n: nat, t: nat, c: nat)
    requires 2 <= cfg.maxBatch && 0 < cfg.cacheSize && ThreeWait(l, n, t, c)
    ensures Enabled(l.s, EvEnter(n)) && Allows(l, EvEnter(n))
    ensures FirstQueued(Locked(Enter(cfg, l.s, n), NextQueue(cfg, l, EvEnter(n))), n, t) && |l.s.closers| == c
  {
    LeaveFront(CallWaits(n), [CallWaits(n + 1), CallWaits(n + 2)]);
    assert l.q.waiting == [CallWaits(n)] + [CallWaits(n + 1), CallWaits(n + 2)];
  }

  lemma LeaveFront(w: Waiter, rest: seq<Waiter>)
    requires w !in rest
    ensures Without([w] + rest, w) == rest
  {
    assert ([w] + rest)[1..] == rest;
    WithoutAbsent(rest, w);
  }

  lemma CloseAwaits(cfg: Config, l: Locked, n: nat, t: nat, c: nat)
    requires 0 < cfg.cacheSize && FirstQueued(l, n, t) && c == |l.s.closers|
    ensures Allows(l, EvCloseBegins)
    ensures Opened(Locked(CloseBegins(l.s), NextQueue(cfg, l, EvCloseBegins)), n, t, c)
  {
    var s' := CloseBegins(l.s);
    assert s'.closers[c] == AwaitsTimer(t);
    forall d | 0 <= d < |s'.closers| && d != c
      ensures !s'.closers[d].AwaitsTimer? && !s'.closers[d].AwaitsLock?
    {
      assert s'.closers[d] == l.s.closers[d];
    }
  }

  /** The second call, next in the queue, is cancelled; the timer is over, and the close queues behind the
      third call, which is cancelled too; and then so is the close. */
  function Ending(n: nat, t: nat, c: nat): seq<Event> {
    [EvCallerLeaves(n + 1), EvTimerDies(t), EvCloserResumes(c), EvCallerLeaves(n + 2), EvCloserLeaves(c)]
  }

  ghost predicate Left(l: Locked, n: nat, c: nat, closer: Closer, waiting: seq<Waiter>) {
    var s := l.s;
    && s.flight.None? && |s.pending| == 1 && s.pending[0].id == n && !SomeArmed(s)
    && n + 2 < |s.callers| && s.callers[n].outcome.Waiting?
    && c < |s.closers| && s.closers[c] == closer && !OtherClosing(s, c)
    && l.q == LockQueue(waiting, None)
  }

  lemma EndingRuns(cfg: Config, l: Locked, n: nat, t: nat, c: nat)
    requires 0 < cfg.cacheSize && Opened(l, n, t, c)
    ensures RunLocked(cfg, l, Ending(n, t, c)).Some?
    ensures Stranded(RunLocked(cfg, l, Ending(n, t, c)).value.s)
  {
    var m := CloseGetsInLine(cfg, l, n, t, c);
    BothLeave(cfg, m, n, c);
    RunInParts(cfg, l, [EvCallerLeaves(n + 1), EvTimerDies(t), EvCloserResumes(c)], [EvCallerLeaves(n + 2), EvCloserLeaves(c)]);
    assert [EvCallerLeaves(n + 1), EvTimerDies(t), EvCloserResumes(c)] + [EvCallerLeaves(n + 2), EvCloserLeaves(c)] == Ending(n, t, c);
  }

  lemma CloseGetsInLine(cfg: Config, l: Locked, n: nat, t: nat, c: nat) returns (l3: Locked)
    requires 0 < cfg.cacheSize && Opened(l, n, t, c)
    ensures RunLocked(cfg, l, [EvCallerLeaves(n + 1), EvTimerDies(t), EvCloserResumes(c)]) == Some(l3)
    ensures Left(l3, n, c, AwaitsLock(true), [CallWaits(n + 2), CloseWaits(c)])
    ensures l3.s.callers[n + 2].stage.AtLock? && l3.s.callers[n + 2].outcome.Waiting?
  {
    var e1, e2, e3 := EvCallerLeaves(n + 1), EvTimerDies(t), EvCloserResumes(c);
    SecondLeaves(cfg, l, n, t, c);
    OneMore(cfg, l, [], l, e1);
    assert [] + [e1] == [e1];
    var l1 := Locked(Step(cfg, l.s, e1), NextQueue(cfg, l, e1));
    TimerOver(cfg, l1, n, t, c);
    OneMore(cfg, l, [e1], l1, e2);
    assert [e1] + [e2] == [e1, e2];
    var l2 := Locked(Step(cfg, l1.s, e2), NextQueue(cfg, l1, e2));
    CloseQueues(cfg, l2, n, t, c);
    OneMore(cfg, l, [e1, e2], l2, e3);
    assert [e1, e2] + [e3] == [e1, e2, e3];
    l3 := Locked(Step(cfg, l2.s, e3), NextQueue(cfg, l2, e3));
  }

  lemma TimerOver(cfg: Config, l: Locked, n: nat, t: nat, c: nat)
    requires 0 < cfg.cacheSize && Left(l, n, c, AwaitsTimer(t), [CallWaits(n + 2)])
    requires t < |l.s.timers| && l.s.timers[t].Cancelling?
    ensures Enabled(l.s, EvTimerDies(t)) && Allows(l, EvTimerDies(t))
    ensures var l' := Locked(Step(cfg, l.s, EvTimerDies(t)), NextQueue(cfg, l, EvTimerDies(t)));
            && Left(l', n, c, AwaitsTimer(t), [CallWaits(n + 2)])
            && |l'.s.timers| == |l.s.timers| && l'.s.timers[t].Done? && l'.s.callers == l.s.callers
  {
    SameClosers(l.s, Step(cfg, l.s, EvTimerDies(t)), c);
  }

  lemma BothLeave(cfg: Config, l: Locked, n: nat, c: nat)
    requires 0 < cfg.cacheSize && Left(l, n, c, AwaitsLock(true), [CallWaits(n + 2), CloseWaits(c)])
    requires l.s.callers[n + 2].stage.AtLock? && l.s.callers[n + 2].outcome.Waiting?
    ensures RunLocked(cfg, l, [EvCallerLeaves(n + 2), EvCloserLeaves(c)]).Some?
    ensures Stranded(RunLocked(cfg, l, [EvCallerLeaves(n + 2), EvCloserLeaves(c)]).value.s)
  {
    var e4, e5 := EvCallerLeaves(n + 2), EvCloserLeaves(c);
    ThirdLeaves(cfg, l, n, c);
    OneMore(cfg, l, [], l, e4);
    assert [] + [e4] == [e4];
    var l1 := Locked(Step(cfg, l.s, e4), NextQueue(cfg, l, e4));
    CloseLeaves(cfg, l1, n, c);
    OneMore(cfg, l, [e4], l1, e5);
    assert [e4] + [e5] == [e4, e5];
  }

  lemma SameClosers(s: State, s': State, c: nat)
    requires |s'.closers| == |s.closers| && !OtherClosing(s, c)
    requires forall d :: 0 <= d < |s.closers| && d != c ==> s'.closers[d] == s.closers[d]
    ensures !OtherClosing(s', c)
  {
  }

  lemma SecondLeaves(cfg: Config, l: Locked, n: nat, t: nat, c: nat)
    requires 0 < cfg.cacheSize && Opened(l, n, t, c)
    ensures Enabled(l.s, EvCallerLeaves(n + 1)) && Allows(l, EvCallerLeaves(n + 1))
    ensures var l' := Locked(CallerLeaves(l.s, n + 1), NextQueue(cfg, l, EvCallerLeaves(n + 1)));
            && Left(l', n, c, AwaitsTimer(t), [CallWaits(n + 2)])
            && l'.s.timers == l.s.timers && l'.s.callers[n + 2] == l.s.callers[n + 2]
  {
    LeaveFront(CallWaits(n + 1), [CallWaits(n + 2)]);
    assert l.q.waiting == [CallWaits(n + 1)] + [CallWaits(n + 2)];
    SameClosers(l.s, CallerLeaves(l.s, n + 1), c);
  }

  lemma CloseQueues(cfg: Config, l: Locked, n: nat, t: nat, c: nat)
    requires 0 < cfg.cacheSize && Left(l, n, c, AwaitsTimer(t), [CallWaits(n + 2)])
    requires t < |l.s.timers| && l.s.timers[t].Done? && l.s.callers[n + 2].stage.AtLock?
    ensures Enabled(l.s, EvCloserResumes(c)) && Allows(l, EvCloserResumes(c))
    ensures var l' := Locked(Step(cfg, l.s, EvCloserResumes(c)), NextQueue(cfg, l, EvCloserResumes(c)));
            && Left(l', n, c, AwaitsLock(true), [CallWaits(n + 2), CloseWaits(c)])
            && l'.s.callers == l.s.callers
  {
    assert Contended(l.s);
    SameClosers(l.s, Step(cfg, l.s, EvCloserResumes(c)), c);
  }

  lemma ThirdLeaves(cfg: Config, l: Locked, n: nat, c: nat)
    requires 0 < cfg.cacheSize && Left(l, n, c, AwaitsLock(true), [CallWaits(n + 2), CloseWaits(c)])
    requires l.s.callers[n + 2].stage.AtLock? && l.s.callers[n + 2].outcome.Waiting?
    ensures Enabled(l.s, EvCallerLeaves(n + 2)) && Allows(l, EvCallerLeaves(n + 2))
    ensures Left(Locked(CallerLeaves(l.s, n + 2), NextQueue(cfg, l, EvCallerLeaves(n + 2))), n, c, AwaitsLock(true), [CloseWaits(c)])
  {
    LeaveFront(CallWaits(n + 2), [CloseWaits(c)]);
    assert l.q.waiting == [CallWaits(n + 2)] + [CloseWaits(c)];
    SameClosers(l.s, CallerLeaves(l.s, n + 2), c);
  }

  lemma CloseLeaves(cfg: Config, l: Locked, n: nat, c: nat)
    requires 0 < cfg.cacheSize && Left(l, n, c, AwaitsLock(true), [CloseWaits(c)])
    ensures Enabled(l.s, EvCloserLeaves(c)) && Allows(l, EvCloserLeaves(c)) && Strands(l.s, EvCloserLeaves(c))
    ensures Stranded(Step(cfg, l.s, EvCloserLeaves(c)))
  {
    var s' := Step(cfg, l.s, EvCloserLeaves(c));
    assert s'.pending[0].id == n && s'.callers[n].outcome.Waiting?;
    SameClosers(l.s, s', c);
    NobodyCloses(s', c);
  }

  lemma NobodyCloses(s: State, c: nat)
    requires c < |s.closers| && s.closers[c].Aborted? && !OtherClosing(s, c)
    ensures !Closing(s)
  {
  }

  /** A flush is in flight and nothing else is going on. */
  ghost predicate OnlyFlight(l: Locked) {
    var s := l.s;
    && s.flight.Some? && s.pending == [] && s.flushTask.None? && s.lockMade && !SomeArmed(s) && !Closing(s)
    && (forall k :: 0 <= k < |s.flight.value.batch| ==> s.flight.value.batch[k].id < |s.callers|)
    && l.q == UNLOCKED
  }

  function Arrivals(a: string, b: string, c: string): seq<Event> { [EvAsk(a), EvAsk(b), EvAsk(c), EvFlushFails(ProviderError)] }

  function CallsFrom(n: nat, k: nat): seq<Waiter> {
    if k == 0 then [] else CallsFrom(n, k - 1) + [CallWaits(n + k - 1)]
  }

  /** Meanwhile three calls that miss the cache queue for the lock. */
  ghost predicate Queueing(l: Locked, n: nat, k: nat, was: State) {
    var s := l.s;
    && s.flight.Some? && s.pending == [] && s.flushTask.None? && s.lockMade && !SomeArmed(s) && !Closing(s)
    && (forall i :: 0 <= i < |s.flight.value.batch| ==> s.flight.value.batch[i].id < n)
    && |s.callers| == n + k && s.cache == was.cache && s.timers == was.timers && s.closers == was.closers
    && (forall i :: n <= i < n + k ==> s.callers[i].stage.AtLock? && s.callers[i].outcome.Waiting?)
    && l.q == LockQueue(CallsFrom(n, k), None)
  }

  lemma OneQueues(cfg: Config, l: Locked, n: nat, k: nat, was: State, text: string)
    requires 0 < cfg.cacheSize && Queueing(l, n, k, was) && cfg.hash(text) !in l.s.cache.vals
    ensures Enabled(l.s, EvAsk(text)) && Allows(l, EvAsk(text))
    ensures Queueing(Locked(Step(cfg, l.s, EvAsk(text)), NextQueue(cfg, l, EvAsk(text))), n, k + 1, was)
  {
  }

  lemma FlightEnds(cfg: Config, l: Locked, n: nat, was: State)
    requires 0 < cfg.cacheSize && Queueing(l, n, 3, was)
    ensures ThreeWait(Locked(FlushFails(l.s, ProviderError), l.q), n, |was.timers|, |was.closers|)
  {
    var s, s' := l.s, FlushFails(l.s, ProviderError);
    OthersUntouched(s.callers, s.flight.value.batch, n);
    assert CallsFrom(n, 1) == [CallWaits(n)] && CallsFrom(n, 2) == [CallWaits(n), CallWaits(n + 1)];
    assert l.q.waiting == [CallWaits(n), CallWaits(n + 1), CallWaits(n + 2)];
    forall t | 0 <= t < |s'.timers| ensures !s'.timers[t].Armed? {
      assert !s.timers[t].Armed?;
    }
    forall d | 0 <= d < |s'.closers| ensures !s'.closers[d].AwaitsTimer? && !s'.closers[d].AwaitsLock? {
      assert !s.closers[d].AwaitsTimer? && !s.closers[d].AwaitsLock?;
    }
  }

  lemma {:induction false} OthersUntouched(callers: seq<Caller>, batch: seq<Request>, n: nat)
    requires forall i :: 0 <= i < |batch| ==> batch[i].id < n
    ensures forall i :: n <= i < |callers| ==> FailAll(callers, batch, ProviderError)[i] == callers[i]
  {
    if batch != [] { OthersUntouched(callers, batch[..|batch| - 1], n); }
  }

  lemma ArrivalsRun(cfg: Config, l: Locked, a: string, b: string, c: string)
    requires 0 < cfg.cacheSize && OnlyFlight(l)
    requires cfg.hash(a) !in l.s.cache.vals && cfg.hash(b) !in l.s.cache.vals && cfg.hash(c) !in l.s.cache.vals
    ensures RunLocked(cfg, l, Arrivals(a, b, c)).Some?
    ensures ThreeWait(RunLocked(cfg, l, Arrivals(a, b, c)).value, |l.s.callers|, |l.s.timers|, |l.s.closers|)
  {
    var n := |l.s.callers|;
    OneQueues(cfg, l, n, 0, l.s, a);
    OneMore(cfg, l, [], l, EvAsk(a));
    assert [] + [EvAsk(a)] == [EvAsk(a)];
    var l1 := Locked(Step(cfg, l.s, EvAsk(a)), NextQueue(cfg, l, EvAsk(a)));
    OneQueues(cfg, l1, n, 1, l.s, b);
    OneMore(cfg, l, [EvAsk(a)], l1, EvAsk(b));
    assert [EvAsk(a)] + [EvAsk(b)] == [EvAsk(a), EvAsk(b)];
    var l2 := Locked(Step(cfg, l1.s, EvAsk(b)), NextQueue(cfg, l1, EvAsk(b)));
    OneQueues(cfg, l2, n, 2, l.s, c);
    OneMore(cfg, l, [EvAsk(a), EvAsk(b)], l2, EvAsk(c));
    assert [EvAsk(a), EvAsk(b)] + [EvAsk(c)] == [EvAsk(a), EvAsk(b), EvAsk(c)];
    var l3 := Locked(Step(cfg, l2.s, EvAsk(c)), NextQueue(cfg, l2, EvAsk(c)));
    FlightEnds(cfg, l3, n, l.s);
    OneMore(cfg, l, [EvAsk(a), EvAsk(b), EvAsk(c)], l3, EvFlushFails(ProviderError));
    assert [EvAsk(a), EvAsk(b), EvAsk(c)] + [EvFlushFails(ProviderError)] == Arrivals(a, b, c);
  }

  /** The whole run, from any moment at which only a flush is under way. */
  function Abandonment(s: State, a: string, b: string, c: string): seq<Event>
    requires s.flight.Some?
  {
    var n := |s.callers|;
    Arrivals(a, b, c) + Opening(n) + Ending(n, |s.timers|, |s.closers|)
  }

  /** From every such moment a close can be abandoned so that a request is left pending whose caller waits,
      with no timer, no flush and no close to see to it: three calls arrive while the flush is in flight; the
      first is queued; a close stops its timer and then has to wait behind the other two; these are cancelled,
      and so is the close. The lock is handed out as asyncio does it throughout. */
  lemma AbandonedCloseStrands(cfg: Config, l: Locked, a: string, b: string, c: string)
    requires 2 <= cfg.maxBatch && 0 < cfg.cacheSize && OnlyFlight(l)
    requires cfg.hash(a) !in l.s.cache.vals && cfg.hash(b) !in l.s.cache.vals && cfg.hash(c) !in l.s.cache.vals
    ensures var end := RunLocked(cfg, l, Abandonment(l.s, a, b, c)); end.Some? && Stranded(end.value.s)
  {
    var n := |l.s.callers|;
    ArrivalsRun(cfg, l, a, b, c);
    var m := RunLocked(cfg, l, Arrivals(a, b, c)).value;
    OpeningRuns(cfg, m, n, |l.s.timers|, |l.s.closers|);
    RunInParts(cfg, l, Arrivals(a, b, c), Opening(n));
    EndingRuns(cfg, RunLocked(cfg, m, Opening(n)).value, n, |l.s.timers|, |l.s.closers|);
    RunInParts(cfg, l, Arrivals(a, b, c) + Opening(n), Ending(n, |l.s.timers|, |l.s.closers|));
  }

  // ---- for which settings it can happen ----

  /** A fresh embedder, one call, its timer: now a flush is in flight. */
  lemma FirstFlight(cfg: Config, text: string) returns (l: Locked)
    requires 2 <= cfg.maxBatch && 0 < cfg.cacheSize
    ensures RunLocked(cfg, START, [EvAsk(text), EvEnter(0), EvTimerWakes(0)]) == Some(l)
    ensures OnlyFlight(l) && l.s.cache == Empty()
  {
    var l1 := Locked(Ask(cfg, Init(), text), LockQueue([], Some(CallWaits(0))));
    OneMore(cfg, START, [], START, EvAsk(text));
    assert [] + [EvAsk(text)] == [EvAsk(text)];
    var l2 := Locked(Enter(cfg, l1.s, 0), Gone(l1.q, CallWaits(0)));
    OneMore(cfg, START, [EvAsk(text)], l1, EvEnter(0));
    assert [EvAsk(text)] + [EvEnter(0)] == [EvAsk(text), EvEnter(0)];
    l := Locked(TimerWakes(l2.s, 0), l2.q);
    OneMore(cfg, START, [EvAsk(text), EvEnter(0)], l2, EvTimerWakes(0));
    assert [EvAsk(text), EvEnter(0)] + [EvTimerWakes(0)] == [EvAsk(text), EvEnter(0), EvTimerWakes(0)];
  }

  ghost predicate StrandsWith(cfg: Config, es: seq<Event>)
    requires 0 < cfg.cacheSize
  {
    RunLocked(cfg, START, es).Some? && Stranded(RunLocked(cfg, START, es).value.s)
  }

  /** A fresh embedder can come to strand a request exactly when batches may hold more than one. */
  lemma StrandingPossibleIff(cfg: Config)
    requires ValidConfig(cfg)
    ensures (exists es :: StrandsWith(cfg, es)) <==> 2 <= cfg.maxBatch
  {
    if 2 <= cfg.maxBatch {
      var l := FirstFlight(cfg, "");
      AbandonedCloseStrands(cfg, l, "", "", "");
      var first := [EvAsk(""), EvEnter(0), EvTimerWakes(0)];
      RunInParts(cfg, START, first, Abandonment(l.s, "", "", ""));
      assert StrandsWith(cfg, first + Abandonment(l.s, "", "", ""));
    }
    if es :| StrandsWith(cfg, es) {
      LockedRunsAreRuns(cfg, START, es);
      ReachedInv(cfg, es, RunLocked(cfg, START, es).value.s);
    }
  }
}
