/** The order in which the lock is handed out, and that the protocol always comes to rest under it. */
module LockOrder {
  import opened Sequences
  import opened BatchProtocol
  import opened BatchInvariants
  import opened BatchTheorems

  // ---- the lock as asyncio hands it out ----

  datatype Waiter = CallWaits(id: nat) | CloseWaits(c: nat)

  /** Who queues for the lock, in order of arrival, and who found it free and goes on without an await. */
  datatype LockQueue = LockQueue(waiting: seq<Waiter>, entering: Option<Waiter>)

  datatype Locked = Locked(s: State, q: LockQueue)

  /** A newcomer gets the lock at once only if it is free and nobody queues for it. */
  function Arrive(s: State, q: LockQueue, w: Waiter): LockQueue {
    if s.flight.None? && q.waiting == [] then q.(entering := Some(w)) else q.(waiting := q.waiting + [w])
  }

  function Gone(q: LockQueue, w: Waiter): LockQueue { LockQueue(Without(q.waiting, w), None) }

  function EntryOf(w: Waiter): Event {
    match w
    case CallWaits(id) => EvEnter(id)
    case CloseWaits(c) => EvCloserDrains(c)
  }

  /** The lock goes to whoever waits longest; nothing comes between finding it free and using it; only who
      queues for it can be cancelled there; and a timer that wakes finds it free. */
  predicate Allows(l: Locked, e: Event) {
    if l.q.entering.Some? then e == EntryOf(l.q.entering.value)
    else
      match e
      case EvEnter(id) => l.q.waiting != [] && l.q.waiting[0] == CallWaits(id)
      case EvCloserDrains(c) => l.q.waiting != [] && l.q.waiting[0] == CloseWaits(c)
      case EvTimerWakes(_) => l.q.waiting == []
      case EvCallerLeaves(id) => CallerAt(l.s, id, AtLock) ==> CallWaits(id) in l.q.waiting
      case EvCloserLeaves(c) => CloseWaits(c) in l.q.waiting
      case _ => true
  }

  function NextQueue(cfg: Config, l: Locked, e: Event): LockQueue
    requires 0 < cfg.cacheSize && Enabled(l.s, e)
  {
    match e
    case EvAsk(text) => if cfg.hash(text) in l.s.cache.vals then l.q else Arrive(l.s, l.q, CallWaits(|l.s.callers|))
    case EvEnter(id) => Gone(l.q, CallWaits(id))
    case EvCallerLeaves(id) => l.q.(waiting := Without(l.q.waiting, CallWaits(id)))
    case EvCloseBegins =>
      if CloserWaits(CloseBegins(l.s), |l.s.closers|) then Arrive(l.s, l.q, CloseWaits(|l.s.closers|)) else l.q
    case EvCloserResumes(c) => Arrive(l.s, l.q, CloseWaits(c))
    case EvCloserDrains(c) => Gone(l.q, CloseWaits(c))
    case EvCloserLeaves(c) => l.q.(waiting := Without(l.q.waiting, CloseWaits(c)))
    case _ => l.q
  }

  function Next(cfg: Config, l: Locked, e: Event): Locked
    requires 0 < cfg.cacheSize && Enabled(l.s, e)
  {
    Locked(Step(cfg, l.s, e), NextQueue(cfg, l, e))
  }

  /** A run that also keeps to the discipline of the lock. */
  function RunLocked(cfg: Config, l: Locked, es: seq<Event>): Option<Locked>
    requires 0 < cfg.cacheSize
    decreases |es|
  {
    if es == [] then Some(l)
    else if Enabled(l.s, es[0]) && Allows(l, es[0]) then
      RunLocked(cfg, Next(cfg, l, es[0]), es[1..])
    else None
  }

  const UNLOCKED := LockQueue([], None)

  const START := Locked(Init(), UNLOCKED)

  lemma {:induction false} LockedRunsAreRuns(cfg: Config, l: Locked, es: seq<Event>)
    requires 0 < cfg.cacheSize && RunLocked(cfg, l, es).Some?
    ensures Exec(cfg, l.s, es) == Some(RunLocked(cfg, l, es).value.s)
    decreases |es|
  {
    if es != [] {
      LockedRunsAreRuns(cfg, Locked(Step(cfg, l.s, es[0]), NextQueue(cfg, l, es[0])), es[1..]);
    }
  }

  lemma {:induction false} RunInParts(cfg: Config, l: Locked, es: seq<Event>, more: seq<Event>)
    requires 0 < cfg.cacheSize && RunLocked(cfg, l, es).Some?
    ensures RunLocked(cfg, l, es + more) == RunLocked(cfg, RunLocked(cfg, l, es).value, more)
    decreases |es|
  {
    if es == [] {
      assert es + more == more;
    } else {
      assert (es + more)[1..] == es[1..] + more;
      RunInParts(cfg, Locked(Step(cfg, l.s, es[0]), NextQueue(cfg, l, es[0])), es[1..], more);
    }
  }

  /** One more step at the end of a run. */
  lemma OneMore(cfg: Config, l: Locked, es: seq<Event>, m: Locked, e: Event)
    requires 0 < cfg.cacheSize && RunLocked(cfg, l, es) == Some(m) && Enabled(m.s, e) && Allows(m, e)
    ensures RunLocked(cfg, l, es + [e]) == Some(Locked(Step(cfg, m.s, e), NextQueue(cfg, m, e)))
  {
    RunInParts(cfg, l, es, [e]);
    assert [e][1..] == [];
  }

  // ---- who is in line ----

  ghost predicate InLine(q: LockQueue, w: Waiter) { w in q.waiting || q.entering == Some(w) }

  /** In line are exactly the calls and closes that want the lock; and a lock found free is free. */
  ghost predicate QueueInv(l: Locked) {
    && (forall id: nat :: InLine(l.q, CallWaits(id)) <==> CallerAt(l.s, id, AtLock))
    && (forall c: nat :: InLine(l.q, CloseWaits(c)) <==> CloserWaits(l.s, c))
    && (l.q.entering.Some? ==> l.s.flight.None?)
  }

  lemma {:induction false} WithoutMembers(s: seq<Waiter>, x: Waiter, w: Waiter)
    ensures w in Without(s, x) <==> w in s && w != x
  {
    if s != [] {
      WithoutMembers(s[1..], x, w);
      assert w in s <==> w == s[0] || w in s[1..];
    }
  }

  lemma ArriveInLine(s: State, q: LockQueue, x: Waiter)
    requires q.entering.None?
    ensures forall w :: InLine(Arrive(s, q, x), w) <==> InLine(q, w) || w == x
    ensures Arrive(s, q, x).entering.Some? ==> s.flight.None?
  {
  }

  /** Who leaves the line, whether with the lock or without. */
  lemma LeaveInLine(q: LockQueue, x: Waiter)
    requires q.entering.Some? ==> q.entering == Some(x)
    ensures forall w :: InLine(Gone(q, x), w) <==> InLine(q, w) && w != x
    ensures q.entering.None? ==> Gone(q, x) == q.(waiting := Without(q.waiting, x))
  {
    forall w
      ensures InLine(Gone(q, x), w) <==> InLine(q, w) && w != x
    {
      WithoutMembers(q.waiting, x, w);
    }
  }

  /** What a step that leaves the line alone must leave alone. */
  lemma SameLine(l: Locked, s': State)
    requires QueueInv(l) && l.q.entering.None?
    requires forall id: nat :: CallerAt(s', id, AtLock) <==> CallerAt(l.s, id, AtLock)
    requires forall c: nat :: CloserWaits(s', c) <==> CloserWaits(l.s, c)
    ensures QueueInv(Locked(s', l.q))
  {
  }

  lemma FlushEndsLine(cfg: Config, l: Locked, e: Event)
    requires ValidConfig(cfg) && Inv(cfg, l.s) && QueueInv(l) && Enabled(l.s, e) && (e.EvAnswered? || e.EvFlushFails?)
    ensures QueueInv(Locked(Step(cfg, l.s, e), l.q))
  {
    FlushEndsCalls(cfg, l.s, e);
    FlushEndsClosers(cfg, l.s, e);
    SameLine(l, Step(cfg, l.s, e));
  }

  lemma FlushEndsCalls(cfg: Config, s: State, e: Event)
    requires ValidConfig(cfg) && Inv(cfg, s) && Enabled(s, e) && (e.EvAnswered? || e.EvFlushFails?)
    ensures forall id: nat :: CallerAt(Step(cfg, s, e), id, AtLock) <==> CallerAt(s, id, AtLock)
  {
    if e.EvAnswered? { AnsweredCallers(cfg, s, e.vectors); } else { FlushFailsCallers(cfg, s, e.reason); }
  }

  lemma FlushEndsClosers(cfg: Config, s: State, e: Event)
    requires 0 < cfg.cacheSize && LockInv(s) && Enabled(s, e) && (e.EvAnswered? || e.EvFlushFails?)
    ensures forall c: nat :: CloserWaits(Step(cfg, s, e), c) <==> CloserWaits(s, c)
  {
  }

  lemma AskLine(cfg: Config, l: Locked, text: string)
    requires 0 < cfg.cacheSize && QueueInv(l) && l.q.entering.None?
    ensures QueueInv(Next(cfg, l, EvAsk(text)))
  {
    if cfg.hash(text) in l.s.cache.vals {
      SameLine(l, Ask(cfg, l.s, text));
    } else {
      ArriveInLine(l.s, l.q, CallWaits(|l.s.callers|));
    }
  }

  lemma EnterLine(cfg: Config, l: Locked, id: nat)
    requires 0 < cfg.cacheSize && QueueInv(l) && Enabled(l.s, EvEnter(id))
    requires l.q.entering.Some? ==> l.q.entering == Some(CallWaits(id))
    ensures QueueInv(Next(cfg, l, EvEnter(id)))
  {
    LeaveInLine(l.q, CallWaits(id));
  }

  lemma CallerLeavesLine(cfg: Config, l: Locked, id: nat)
    requires 0 < cfg.cacheSize && QueueInv(l) && Enabled(l.s, EvCallerLeaves(id)) && l.q.entering.None?
    ensures QueueInv(Next(cfg, l, EvCallerLeaves(id)))
  {
    LeaveInLine(l.q, CallWaits(id));
  }

  lemma CloseBeginsLine(cfg: Config, l: Locked)
    requires 0 < cfg.cacheSize && QueueInv(l) && l.q.entering.None?
    ensures QueueInv(Next(cfg, l, EvCloseBegins))
  {
    var c := |l.s.closers|;
    if CloserWaits(CloseBegins(l.s), c) {
      ArriveInLine(l.s, l.q, CloseWaits(c));
    } else {
      SameLine(l, CloseBegins(l.s));
    }
  }

  lemma CloserLine(cfg: Config, l: Locked, e: Event)
    requires 0 < cfg.cacheSize && QueueInv(l) && Enabled(l.s, e) && Allows(l, e)
    requires e.EvCloserResumes? || e.EvCloserDrains? || e.EvCloserLeaves?
    ensures QueueInv(Next(cfg, l, e))
  {
    if e.EvCloserResumes? {
      ArriveInLine(l.s, l.q, CloseWaits(e.c));
    } else {
      LeaveInLine(l.q, CloseWaits(e.c));
    }
  }

  /** Every step keeps the line right. */
  lemma LineKept(cfg: Config, l: Locked, e: Event)
    requires ValidConfig(cfg) && Inv(cfg, l.s) && QueueInv(l) && Enabled(l.s, e) && Allows(l, e)
    ensures QueueInv(Next(cfg, l, e))
  {
    match e
    case EvAsk(text) => AskLine(cfg, l, text);
    case EvEnter(id) => EnterLine(cfg, l, id);
    case EvTimerWakes(t) => SameLine(l, TimerWakes(l.s, t));
    case EvTimerDies(t) => SameLine(l, Step(cfg, l.s, e));
    case EvAnswered(_) => FlushEndsLine(cfg, l, e);
    case EvFlushFails(_) => FlushEndsLine(cfg, l, e);
    case EvCallerLeaves(id) => CallerLeavesLine(cfg, l, id);
    case EvCloseBegins => CloseBeginsLine(cfg, l);
    case _ => CloserLine(cfg, l, e);
  }

  lemma {:induction false} RunKeepsLine(cfg: Config, l: Locked, es: seq<Event>)
    requires ValidConfig(cfg) && Inv(cfg, l.s) && QueueInv(l) && RunLocked(cfg, l, es).Some?
    ensures Inv(cfg, RunLocked(cfg, l, es).value.s) && QueueInv(RunLocked(cfg, l, es).value)
    decreases |es|
  {
    if es != [] {
      InvKept(cfg, l.s, es[0]);
      LineKept(cfg, l, es[0]);
      RunKeepsLine(cfg, Next(cfg, l, es[0]), es[1..]);
    }
  }

  // ---- it always comes to rest ----

  /** The event is possible and asks for nothing new. */
  predicate CanMove(l: Locked, e: Event) { Progress(e) && Enabled(l.s, e) && Allows(l, e) }

  /** The protocol cannot deadlock: whatever is left to run, the lock lets somebody move. */
  lemma NeverStuck(cfg: Config, l: Locked, answer: seq<Vector>) returns (e: Event)
    requires ValidConfig(cfg) && Inv(cfg, l.s) && QueueInv(l) && !Quiescent(l.s)
    ensures CanMove(l, e) && (e.EvAnswered? ==> e.vectors == answer)
  {
    var s := l.s;
    if s.flight.Some? {
      e := EvAnswered(answer);
    } else if l.q.entering.Some? || l.q.waiting != [] {
      e := FirstInLine(l);
    } else {
      e := OutOfLine(cfg, l);
    }
  }

  lemma FirstInLine(l: Locked) returns (e: Event)
    requires QueueInv(l) && l.s.flight.None? && (l.q.entering.Some? || l.q.waiting != [])
    ensures CanMove(l, e)
  {
    var w := if l.q.entering.Some? then l.q.entering.value else l.q.waiting[0];
    assert InLine(l.q, w);
    e := EntryOf(w);
  }

  lemma OutOfLine(cfg: Config, l: Locked) returns (e: Event)
    requires TimerInv(l.s) && LockInv(l.s) && QueueInv(l) && l.s.flight.None? && l.q == UNLOCKED && !Quiescent(l.s)
    ensures CanMove(l, e)
  {
    var s := l.s;
    forall i: nat | i < |s.callers|
      ensures !s.callers[i].stage.AtLock?
    {
      assert !InLine(l.q, CallWaits(i));
    }
    if t :| 0 <= t < |s.timers| && !s.timers[t].Done? {
      e := if s.timers[t].Armed? then EvTimerWakes(t) else EvTimerDies(t);
    } else {
      var c :| 0 <= c < |s.closers| && !s.closers[c].Closed? && !s.closers[c].Aborted?;
      assert !InLine(l.q, CloseWaits(c));
      e := EvCloserResumes(c);
    }
  }

  lemma RestIsFinal(l: Locked)
    requires Quiescent(l.s)
    ensures forall e :: !CanMove(l, e)
  {
    forall e
      ensures !CanMove(l, e)
    {
    }
  }

  lemma AttendedAfter(cfg: Config, past: seq<Event>, s: State)
    requires Reached(cfg, past, s) && NeverStrands(cfg, Init(), past)
    ensures Attended(s)
  {
    ReachedInv(cfg, past, s);
    WatchedFromStart(cfg, past);
    WatchedToTheEnd(cfg, Init(), past);
    WatchedIsAttended(s);
  }

  lemma {:induction false} ProgressAttends(cfg: Config, s: State, es: seq<Event>)
    requires ValidConfig(cfg) && Inv(cfg, s) && Attended(s) && AllProgress(es) && Exec(cfg, s, es).Some?
    ensures Attended(Exec(cfg, s, es).value)
    decreases |es|
  {
    if es != [] {
      InvKept(cfg, s, es[0]);
      AttendedUnlessStranded(cfg, s, es[0]);
      ProgressAttends(cfg, Step(cfg, s, es[0]), es[1..]);
    }
  }

  lemma FromStart(cfg: Config, past: seq<Event>, l: Locked)
    requires ValidConfig(cfg) && RunLocked(cfg, START, past) == Some(l)
    ensures Reached(cfg, past, l.s) && Inv(cfg, l.s) && QueueInv(l)
  {
    assert Inv(cfg, Init()) && QueueInv(START);
    RunKeepsLine(cfg, START, past);
    LockedRunsAreRuns(cfg, START, past);
  }

  lemma RestIff(cfg: Config, l: Locked)
    requires ValidConfig(cfg) && Inv(cfg, l.s) && QueueInv(l)
    ensures (forall e :: !CanMove(l, e)) <==> Quiescent(l.s)
  {
    if Quiescent(l.s) { RestIsFinal(l); } else { var e := NeverStuck(cfg, l, []); }
  }

  lemma AnsweredAtRest(cfg: Config, s: State)
    requires ValidConfig(cfg) && Inv(cfg, s) && Quiescent(s) && Attended(s)
    ensures forall i :: 0 <= i < |s.callers| ==> !s.callers[i].outcome.Waiting?
  {
    QuiescentAnswers(cfg, s);
  }

  /** In every run of a fresh embedder under this lock: once nothing new is asked for, only so many steps are
      left, in whatever order; when none is possible any more nothing is left to run; and if no request had been
      stranded, every call then has its vector, its error or its cancellation. */
  lemma EveryRunRests(cfg: Config, past: seq<Event>, l: Locked, es: seq<Event>, end: Locked)
    requires ValidConfig(cfg) && RunLocked(cfg, START, past) == Some(l)
    requires AllProgress(es) && RunLocked(cfg, l, es) == Some(end)
    ensures |es| <= Work(l.s)
    ensures (forall e :: !CanMove(end, e)) <==> Quiescent(end.s)
    ensures Quiescent(end.s) && NeverStrands(cfg, Init(), past) ==>
              forall i :: 0 <= i < |end.s.callers| ==> !end.s.callers[i].outcome.Waiting?
  {
    FromStart(cfg, past, l);
    RunKeepsLine(cfg, l, es);
    RestIff(cfg, end);
    LockedRunsAreRuns(cfg, l, es);
    ProgressEnds(cfg, l.s, es);
    if NeverStrands(cfg, Init(), past) && Quiescent(end.s) {
      AttendedAfter(cfg, past, l.s);
      ProgressAttends(cfg, l.s, es);
      AnsweredAtRest(cfg, end.s);
    }
  }
}
