/** What the dispatcher takes and in which order: over whole runs, and without reference to how a step is defined. */
module DispatchOrders {
  import opened Sequences
  import opened Sections
  import opened Dispatchers

  // ---- which jobs are accepted ----

  /** The jobs one call of `enqueue_jobs` added. */
  function Added(lim: Limits, s: State, jobs: seq<Job>): seq<Job> {
    EnqueueGrows(lim, s, jobs);
    EnqueueAll(lim, s, jobs).queue[|s.queue|..]
  }

  /** The `k`-th job is the first of its document in the call, and the document is new. */
  predicate IsNew(s: State, jobs: seq<Job>, k: nat)
    requires k < |jobs|
  {
    !Known(s, jobs[k].docId) && forall j :: 0 <= j < k ==> jobs[j].docId != jobs[k].docId
  }

  function NewJobs(s: State, jobs: seq<Job>): seq<Job> {
    if jobs == [] then []
    else NewJobs(s, jobs[..|jobs| - 1]) + if IsNew(s, jobs, |jobs| - 1) then [jobs[|jobs| - 1]] else []
  }

  /** How many more jobs the queue may take. */
  function Room(lim: Limits, s: State): Option<nat> {
    if lim.capacity == 0 then None else if |s.queue| < lim.capacity then Some(lim.capacity - |s.queue|) else Some(0)
  }

  function UpToRoom(jobs: seq<Job>, room: Option<nat>): seq<Job> {
    if room.Some? then Take(jobs, room.value) else jobs
  }

  predicate HasJobFor(jobs: seq<Job>, x: string) {
    exists k :: 0 <= k < |jobs| && jobs[k].docId == x
  }

  lemma {:induction false} NewJobsAreGiven(s: State, jobs: seq<Job>, x: string)
    requires HasJobFor(NewJobs(s, jobs), x)
    ensures HasJobFor(jobs, x)
  {
    var n := |jobs| - 1;
    var k :| 0 <= k < |NewJobs(s, jobs)| && NewJobs(s, jobs)[k].docId == x;
    if k < |NewJobs(s, jobs[..n])| {
      assert HasJobFor(NewJobs(s, jobs[..n]), x);
      NewJobsAreGiven(s, jobs[..n], x);
      var j :| 0 <= j < n && jobs[..n][j].docId == x;
      assert jobs[j].docId == x;
    } else {
      assert jobs[n].docId == x;
    }
  }

  /** One more job given: accepted if it is new and there is room. */
  lemma AddedNext(lim: Limits, s: State, jobs: seq<Job>)
    requires jobs != []
    ensures var n := |jobs| - 1; var s1 := EnqueueAll(lim, s, jobs[..n]);
            && |s.queue| <= |s1.queue| && s1.queue == s.queue + Added(lim, s, jobs[..n])
            && Added(lim, s, jobs)
               == Added(lim, s, jobs[..n]) + if Known(s1, jobs[n].docId) || Full(lim, s1) then [] else [jobs[n]]
  {
    EnqueueGrows(lim, s, jobs[..|jobs| - 1]);
    EnqueueGrows(lim, s, jobs);
  }

  ghost predicate KnownAre(lim: Limits, s: State, jobs: seq<Job>) {
    forall x :: Known(EnqueueAll(lim, s, jobs), x) <==> Known(s, x) || HasJobFor(Added(lim, s, jobs), x)
  }

  lemma {:induction false} KnownAfter(lim: Limits, s: State, jobs: seq<Job>)
    ensures KnownAre(lim, s, jobs)
  {
    if jobs == [] {
      assert Added(lim, s, jobs) == [];
    } else {
      var n := |jobs| - 1;
      var s1, before, after := EnqueueAll(lim, s, jobs[..n]), Added(lim, s, jobs[..n]), Added(lim, s, jobs);
      KnownAfter(lim, s, jobs[..n]);
      AddedNext(lim, s, jobs);
      forall x
        ensures Known(EnqueueAll(lim, s, jobs), x) <==> Known(s, x) || HasJobFor(after, x)
      {
        assert Known(s1, x) <==> Known(s, x) || HasJobFor(before, x);
        HasJobForNext(before, jobs[n], x);
      }
    }
  }

  lemma HasJobForNext(jobs: seq<Job>, job: Job, x: string)
    ensures HasJobFor(jobs + [job], x) <==> HasJobFor(jobs, x) || job.docId == x
  {
    if k :| 0 <= k < |jobs| && jobs[k].docId == x { assert (jobs + [job])[k].docId == x; }
    assert (jobs + [job])[|jobs|] == job;
  }

  /** Whether the last job is accepted, said without the state the earlier ones led to. */
  lemma LastAccepted(lim: Limits, s: State, jobs: seq<Job>)
    requires jobs != []
    requires Added(lim, s, jobs[..|jobs| - 1]) == UpToRoom(NewJobs(s, jobs[..|jobs| - 1]), Room(lim, s))
    ensures var n := |jobs| - 1; var s1 := EnqueueAll(lim, s, jobs[..n]);
            Known(s1, jobs[n].docId) || Full(lim, s1) <==> !IsNew(s, jobs, n) || Full(lim, s1)
  {
    var n := |jobs| - 1;
    var x, given := jobs[n].docId, jobs[..n];
    KnownAfter(lim, s, given);
    assert Known(EnqueueAll(lim, s, given), x) <==> Known(s, x) || HasJobFor(Added(lim, s, given), x);
    if IsNew(s, jobs, n) && HasJobFor(Added(lim, s, given), x) {
      var k :| 0 <= k < |Added(lim, s, given)| && Added(lim, s, given)[k].docId == x;
      assert NewJobs(s, given)[k].docId == x;
      NewJobsAreGiven(s, given, x);
    }
    if !IsNew(s, jobs, n) && !Known(EnqueueAll(lim, s, given), x) {
      var j :| 0 <= j < n && jobs[j].docId == x;
      assert given[j] == jobs[j];
      RefusedOnlyWhenFull(lim, s, given, j);
    }
  }

  /** A call accepts, in the order given, the jobs of documents that are neither queued nor running, the first of
      each, until the queue is full; and it returns their number. */
  lemma {:induction false} AcceptedAre(lim: Limits, s: State, jobs: seq<Job>)
    ensures Added(lim, s, jobs) == UpToRoom(NewJobs(s, jobs), Room(lim, s))
    ensures EnqueueAll(lim, s, jobs).queue == s.queue + Added(lim, s, jobs)
    ensures EnqueueAll(lim, s, jobs).accepted - s.accepted == |Added(lim, s, jobs)|
  {
    EnqueueGrows(lim, s, jobs);
    if jobs != [] {
      AcceptedAre(lim, s, jobs[..|jobs| - 1]);
      AddedNext(lim, s, jobs);
      LastAccepted(lim, s, jobs);
    }
  }

  // ---- first come, first served ----

  function JobsOfTasks(tasks: seq<Task>): (r: seq<Job>)
    ensures |r| == |tasks|
  {
    seq(|tasks|, i requires 0 <= i < |tasks| => tasks[i].job)
  }

  /** Every job accepted so far: those that became tasks, in the order they did, then the one held, then the queue. */
  function InOrder(s: State): seq<Job> {
    JobsOfTasks(s.tasks) + (if s.held.Some? then [s.held.value] else []) + s.queue
  }

  /** The jobs a run accepted, call by call. */
  function Arrivals(lim: Limits, s: State, es: seq<Event>): seq<Job>
    decreases |es|
  {
    if es == [] || !Enabled(s, es[0]) then []
    else (if es[0].EvEnqueue? then Added(lim, s, es[0].jobs) else []) + Arrivals(lim, Step(lim, s, es[0]), es[1..])
  }

  lemma StepKeepsOrder(lim: Limits, s: State, e: Event)
    requires Enabled(s, e)
    ensures InOrder(Step(lim, s, e)) == InOrder(s) + if e.EvEnqueue? then Added(lim, s, e.jobs) else []
  {
    var s' := Step(lim, s, e);
    match e
    case EvEnqueue(jobs) =>
      EnqueueGrows(lim, s, jobs);
      EnqueueLeaves(lim, s, jobs);
    case EvTake => assert s.queue == [s.queue[0]] + s'.queue;
    case EvSpawn => assert JobsOfTasks(s'.tasks) == JobsOfTasks(s.tasks) + [s.held.value];
    case EvStop =>
    case _ => assert JobsOfTasks(s'.tasks) == JobsOfTasks(s.tasks);
  }

  lemma {:induction false} EnqueueLeaves(lim: Limits, s: State, jobs: seq<Job>)
    ensures EnqueueAll(lim, s, jobs).tasks == s.tasks && EnqueueAll(lim, s, jobs).held == s.held
  {
    if jobs != [] { EnqueueLeaves(lim, s, jobs[..|jobs| - 1]); }
  }

  lemma {:induction false} RunKeepsOrder(lim: Limits, s: State, es: seq<Event>)
    requires Exec(lim, s, es).Some?
    ensures InOrder(Exec(lim, s, es).value) == InOrder(s) + Arrivals(lim, s, es)
    decreases |es|
  {
    if es == [] {
      assert InOrder(s) + [] == InOrder(s);
    } else {
      StepKeepsOrder(lim, s, es[0]);
      RunKeepsOrder(lim, Step(lim, s, es[0]), es[1..]);
    }
  }

  /** Jobs become tasks in the order they were accepted, none twice and none left out. */
  lemma FirstComeFirstServed(lim: Limits, es: seq<Event>, s: State)
    requires Reached(lim, es, s)
    ensures JobsOfTasks(s.tasks) + (if s.held.Some? then [s.held.value] else []) + s.queue == Arrivals(lim, Init(lim), es)
  {
    RunKeepsOrder(lim, Init(lim), es);
  }

  // ---- slots ----

  /** A task that starts executes at once exactly when fewer than `max_workers` jobs execute and none waits. */
  lemma StartsAtOnceIff(lim: Limits, s: State, i: nat)
    requires Inv(lim, s) && Enabled(s, EvStart(i))
    ensures TaskAt(Step(lim, s, EvStart(i)), i, if Count(s.tasks, IsExecuting) < lim.maxWorkers && Count(s.tasks, IsWaiting) == 0
                                                then Executing else AtSemaphore)
  {
  }

  /** A waiting task can take a slot exactly when fewer than `max_workers` jobs execute. */
  lemma SlotForWaiterIff(lim: Limits, s: State, i: nat)
    requires Inv(lim, s) && TaskAt(s, i, AtSemaphore)
    ensures Enabled(s, EvAcquire(i)) <==> Count(s.tasks, IsExecuting) < lim.maxWorkers
  {
  }

  /** After `stop` nothing is taken off the queue any more. */
  lemma {:induction false} StoppedTakesNothing(lim: Limits, s: State, es: seq<Event>)
    requires s.stopped && Exec(lim, s, es).Some?
    ensures Exec(lim, s, es).value.stopped && s.queue <= Exec(lim, s, es).value.queue
    ensures |Exec(lim, s, es).value.tasks| <= |s.tasks| + HeldCount(s)
    decreases |es|
  {
    if es != [] {
      if es[0].EvEnqueue? {
        EnqueueGrows(lim, s, es[0].jobs);
        EnqueueLeaves(lim, s, es[0].jobs);
        EnqueueStopped(lim, s, es[0].jobs);
      }
      StoppedTakesNothing(lim, Step(lim, s, es[0]), es[1..]);
    }
  }

  lemma {:induction false} EnqueueStopped(lim: Limits, s: State, jobs: seq<Job>)
    ensures EnqueueAll(lim, s, jobs).stopped == s.stopped
  {
    if jobs != [] { EnqueueStopped(lim, s, jobs[..|jobs| - 1]); }
  }
}
