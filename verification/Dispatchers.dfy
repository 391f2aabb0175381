/** `_JobDispatcher` of api/main.py as a state machine: one step is what the loop runs between two awaits. */
module Dispatchers {
  import opened Sequences
  import opened Sections

  /** A `_run_job` task: created, waiting at the semaphore, inside it, over. */
  datatype Stage = Spawned | AtSemaphore | Executing | Finished

  datatype Task = Task(job: Job, stage: Stage)

  /** A capacity of zero means an unbounded queue, as in `asyncio.Queue`. */
  datatype Limits = Limits(maxWorkers: nat, capacity: nat)

  /** `held` is a job the consumer has taken off the queue but not yet made a task of. */
  datatype State = State(
    queue: seq<Job>,
    held: Option<Job>,
    queuedIds: set<string>,
    runningIds: set<string>,
    permits: nat,
    stopped: bool,
    tasks: seq<Task>,
    accepted: nat)

  function Init(lim: Limits): State { State([], None, {}, {}, lim.maxWorkers, false, [], 0) }

  predicate Known(s: State, docId: string) { docId in s.queuedIds || docId in s.runningIds }

  predicate Full(lim: Limits, s: State) { 0 < lim.capacity <= |s.queue| }

  function Enqueue(lim: Limits, s: State, job: Job): State {
    if Known(s, job.docId) || Full(lim, s) then s
    else s.(queue := s.queue + [job], queuedIds := s.queuedIds + {job.docId}, accepted := s.accepted + 1)
  }

  /** `enqueue_jobs`. */
  function EnqueueAll(lim: Limits, s: State, jobs: seq<Job>): State {
    if jobs == [] then s else Enqueue(lim, EnqueueAll(lim, s, jobs[..|jobs| - 1]), jobs[|jobs| - 1])
  }

  predicate TaskAt(s: State, i: nat, stage: Stage) { i < |s.tasks| && s.tasks[i].stage == stage }

  function SetStage(s: State, i: nat, stage: Stage): (tasks: seq<Task>)
    requires i < |s.tasks|
    ensures |tasks| == |s.tasks|
  {
    s.tasks[i := s.tasks[i].(stage := stage)]
  }

  predicate IsWaiting(t: Task) { t.stage.AtSemaphore? }

  predicate IsExecuting(t: Task) { t.stage.Executing? }

  predicate IsSpawned(t: Task) { t.stage.Spawned? }

  predicate IsFinished(t: Task) { t.stage.Finished? }

  predicate IsLive(t: Task) { !t.stage.Finished? }

  /** A slot is free for a newcomer only if nobody waits for one. */
  predicate SlotFree(s: State) { 0 < s.permits && Count(s.tasks, IsWaiting) == 0 }

  function Start(s: State, i: nat): State
    requires TaskAt(s, i, Spawned)
  {
    var x := s.tasks[i].job.docId;
    var s1 := s.(queuedIds := s.queuedIds - {x}, runningIds := s.runningIds + {x});
    if SlotFree(s) then s1.(permits := s.permits - 1, tasks := SetStage(s, i, Executing))
    else s1.(tasks := SetStage(s, i, AtSemaphore))
  }

  datatype Event =
    | EvEnqueue(jobs: seq<Job>)
    | EvTake
    | EvSpawn
    | EvStart(i: nat)
    | EvAcquire(i: nat)
    | EvFinish(i: nat)
    | EvStop

  predicate Enabled(s: State, e: Event) {
    match e
    case EvEnqueue(_) => true
    case EvTake => !s.stopped && s.held.None? && s.queue != []
    case EvSpawn => s.held.Some?
    case EvStart(i) => TaskAt(s, i, Spawned)
    case EvAcquire(i) => TaskAt(s, i, AtSemaphore) && 0 < s.permits
    case EvFinish(i) => TaskAt(s, i, Executing)
    case EvStop => true
  }

  function Step(lim: Limits, s: State, e: Event): State
    requires Enabled(s, e)
  {
    match e
    case EvEnqueue(jobs) => EnqueueAll(lim, s, jobs)
    case EvTake => s.(queue := s.queue[1..], held := Some(s.queue[0]))
    case EvSpawn => s.(held := None, tasks := s.tasks + [Task(s.held.value, Spawned)])
    case EvStart(i) => Start(s, i)
    case EvAcquire(i) => s.(permits := s.permits - 1, tasks := SetStage(s, i, Executing))
    case EvFinish(i) =>
      s.(runningIds := s.runningIds - {s.tasks[i].job.docId}, permits := s.permits + 1, tasks := SetStage(s, i, Finished))
    case EvStop => s.(stopped := true)
  }

  function Exec(lim: Limits, s: State, es: seq<Event>): Option<State>
    decreases |es|
  {
    if es == [] then Some(s)
    else if Enabled(s, es[0]) then Exec(lim, Step(lim, s, es[0]), es[1..])
    else None
  }

  // ---- what the two id sets mean ----

  function JobFor(x: string): Job -> bool { (j: Job) => j.docId == x }

  function SpawnedFor(x: string): Task -> bool { (t: Task) => t.job.docId == x && t.stage.Spawned? }

  function RunningFor(x: string): Task -> bool {
    (t: Task) => t.job.docId == x && (t.stage.AtSemaphore? || t.stage.Executing?)
  }

  function LiveFor(x: string): Task -> bool { (t: Task) => t.job.docId == x && IsLive(t) }

  function HeldFor(s: State, x: string): nat { if s.held.Some? && s.held.value.docId == x then 1 else 0 }

  /** How many jobs of the document wait for their task to start. */
  function Queued(s: State, x: string): nat {
    Count(s.queue, JobFor(x)) + HeldFor(s, x) + Count(s.tasks, SpawnedFor(x))
  }

  /** How many jobs of the document are past that point and not over. */
  function Running(s: State, x: string): nat { Count(s.tasks, RunningFor(x)) }

  function HeldCount(s: State): nat { if s.held.Some? then 1 else 0 }

  ghost predicate IdsRight(s: State, x: string) {
    && Queued(s, x) == (if x in s.queuedIds then 1 else 0)
    && Running(s, x) == (if x in s.runningIds then 1 else 0)
  }

  ghost predicate IdInv(s: State) {
    s.queuedIds !! s.runningIds && forall x :: IdsRight(s, x)
  }

  ghost predicate CountInv(lim: Limits, s: State) {
    && s.permits + Count(s.tasks, IsExecuting) == lim.maxWorkers
    && (0 < lim.capacity ==> |s.queue| <= lim.capacity)
    && s.accepted == |s.queue| + HeldCount(s) + |s.tasks|
    && |s.queuedIds| == |s.queue| + HeldCount(s) + Count(s.tasks, IsSpawned)
    && |s.runningIds| == Count(s.tasks, IsWaiting) + Count(s.tasks, IsExecuting)
  }

  ghost predicate Inv(lim: Limits, s: State) { IdInv(s) && CountInv(lim, s) }

  lemma SpawnedIsQueued(s: State, i: nat)
    requires IdInv(s) && TaskAt(s, i, Spawned)
    ensures s.tasks[i].job.docId in s.queuedIds && s.tasks[i].job.docId !in s.runningIds
  {
    var x := s.tasks[i].job.docId;
    CountOne(s.tasks, i, SpawnedFor(x));
    assert IdsRight(s, x);
  }

  lemma TakenIsRunning(s: State, i: nat)
    requires IdInv(s) && i < |s.tasks| && (s.tasks[i].stage.AtSemaphore? || s.tasks[i].stage.Executing?)
    ensures s.tasks[i].job.docId in s.runningIds
  {
    var x := s.tasks[i].job.docId;
    CountOne(s.tasks, i, RunningFor(x));
    assert IdsRight(s, x);
  }

  lemma EnqueueKeepsIds(lim: Limits, s: State, job: Job, x: string)
    requires IdsRight(s, x)
    ensures IdsRight(Enqueue(lim, s, job), x)
  {
    CountAppend(s.queue, job, JobFor(x));
  }

  lemma EnqueueKeeps(lim: Limits, s: State, job: Job)
    requires Inv(lim, s)
    ensures Inv(lim, Enqueue(lim, s, job))
  {
    forall x
      ensures IdsRight(Enqueue(lim, s, job), x)
    {
      assert IdsRight(s, x);
      EnqueueKeepsIds(lim, s, job, x);
    }
  }

  lemma {:induction false} EnqueueAllKeeps(lim: Limits, s: State, jobs: seq<Job>)
    requires Inv(lim, s)
    ensures Inv(lim, EnqueueAll(lim, s, jobs))
  {
    if jobs != [] {
      EnqueueAllKeeps(lim, s, jobs[..|jobs| - 1]);
      EnqueueKeeps(lim, EnqueueAll(lim, s, jobs[..|jobs| - 1]), jobs[|jobs| - 1]);
    }
  }

  lemma ConsumerKeepsIds(lim: Limits, s: State, e: Event, x: string)
    requires IdsRight(s, x) && Enabled(s, e) && (e.EvTake? || e.EvSpawn?)
    ensures IdsRight(Step(lim, s, e), x)
  {
    if e.EvTake? { TakeKeepsIds(s, x); } else { SpawnKeepsIds(s, x); }
  }

  lemma TakeKeepsIds(s: State, x: string)
    requires IdsRight(s, x) && s.held.None? && s.queue != []
    ensures IdsRight(s.(queue := s.queue[1..], held := Some(s.queue[0])), x)
  {
    CountHead(s.queue, JobFor(x));
  }

  lemma SpawnedAppended(tasks: seq<Task>, job: Job, x: string)
    ensures Count(tasks + [Task(job, Spawned)], SpawnedFor(x))
         == Count(tasks, SpawnedFor(x)) + if job.docId == x then 1 else 0
    ensures Count(tasks + [Task(job, Spawned)], RunningFor(x)) == Count(tasks, RunningFor(x))
  {
    CountAppend(tasks, Task(job, Spawned), SpawnedFor(x));
    CountAppend(tasks, Task(job, Spawned), RunningFor(x));
  }

  lemma SpawnKeepsIds(s: State, x: string)
    requires IdsRight(s, x) && s.held.Some?
    ensures IdsRight(s.(held := None, tasks := s.tasks + [Task(s.held.value, Spawned)]), x)
  {
    SpawnedAppended(s.tasks, s.held.value, x);
  }

  lemma ConsumerKeeps(lim: Limits, s: State, e: Event)
    requires Inv(lim, s) && Enabled(s, e) && (e.EvTake? || e.EvSpawn?)
    ensures Inv(lim, Step(lim, s, e))
  {
    forall x
      ensures IdsRight(Step(lim, s, e), x)
    {
      assert IdsRight(s, x);
      ConsumerKeepsIds(lim, s, e, x);
    }
    if e.EvSpawn? {
      CountAppend(s.tasks, Task(s.held.value, Spawned), IsExecuting);
      CountAppend(s.tasks, Task(s.held.value, Spawned), IsSpawned);
      CountAppend(s.tasks, Task(s.held.value, Spawned), IsWaiting);
    }
  }

  /** A task moves on, and the id sets move its document along with it. */
  lemma MoveKeepsIds(s: State, s': State, i: nat, x: string)
    requires IdsRight(s, x) && i < |s.tasks| == |s'.tasks|
    requires s'.tasks == s.tasks[i := s.tasks[i].(stage := s'.tasks[i].stage)]
    requires s'.queue == s.queue && s'.held == s.held
    requires x in s'.queuedIds <==> x in s.queuedIds && !SpawnedFor(x)(s.tasks[i])
    requires x in s'.runningIds <==> (x in s.runningIds && !RunningFor(x)(s.tasks[i])) || RunningFor(x)(s'.tasks[i])
    requires RunningFor(x)(s'.tasks[i]) ==> RunningFor(x)(s.tasks[i]) || x !in s.runningIds
    requires SpawnedFor(x)(s.tasks[i]) ==> x in s.queuedIds
    requires RunningFor(x)(s.tasks[i]) ==> x in s.runningIds
    requires !SpawnedFor(x)(s'.tasks[i])
    ensures IdsRight(s', x)
  {
    CountUpdate(s.tasks, i, s'.tasks[i], SpawnedFor(x));
    CountUpdate(s.tasks, i, s'.tasks[i], RunningFor(x));
  }

  lemma MoveTotals(s: State, i: nat, stage: Stage)
    requires i < |s.tasks|
    ensures var t, t', ts := s.tasks[i], s.tasks[i].(stage := stage), SetStage(s, i, stage);
            && Count(ts, IsSpawned) + (if IsSpawned(t) then 1 else 0)
               == Count(s.tasks, IsSpawned) + (if IsSpawned(t') then 1 else 0)
            && Count(ts, IsWaiting) + (if IsWaiting(t) then 1 else 0)
               == Count(s.tasks, IsWaiting) + (if IsWaiting(t') then 1 else 0)
            && Count(ts, IsExecuting) + (if IsExecuting(t) then 1 else 0)
               == Count(s.tasks, IsExecuting) + (if IsExecuting(t') then 1 else 0)
  {
    var t' := s.tasks[i].(stage := stage);
    CountUpdate(s.tasks, i, t', IsSpawned);
    CountUpdate(s.tasks, i, t', IsWaiting);
    CountUpdate(s.tasks, i, t', IsExecuting);
  }

  lemma TaskStepKeepsIds(lim: Limits, s: State, e: Event)
    requires IdInv(s) && Enabled(s, e) && (e.EvStart? || e.EvAcquire? || e.EvFinish?)
    ensures IdInv(Step(lim, s, e))
  {
    var s', i := Step(lim, s, e), e.i;
    if e.EvStart? { SpawnedIsQueued(s, i); } else { TakenIsRunning(s, i); }
    forall x
      ensures IdsRight(s', x)
    {
      assert IdsRight(s, x);
      MoveKeepsIds(s, s', i, x);
    }
  }

  lemma TaskStepKeeps(lim: Limits, s: State, e: Event)
    requires Inv(lim, s) && Enabled(s, e) && (e.EvStart? || e.EvAcquire? || e.EvFinish?)
    ensures Inv(lim, Step(lim, s, e))
  {
    var i := e.i;
    if e.EvStart? { SpawnedIsQueued(s, i); } else { TakenIsRunning(s, i); }
    TaskStepKeepsIds(lim, s, e);
    MoveTotals(s, i, Step(lim, s, e).tasks[i].stage);
  }

  lemma InvKept(lim: Limits, s: State, e: Event)
    requires Inv(lim, s) && Enabled(s, e)
    ensures Inv(lim, Step(lim, s, e))
  {
    match e
    case EvEnqueue(jobs) => EnqueueAllKeeps(lim, s, jobs);
    case EvTake => ConsumerKeeps(lim, s, e);
    case EvSpawn => ConsumerKeeps(lim, s, e);
    case EvStop =>
      forall x
        ensures IdsRight(s.(stopped := true), x)
      {
        assert IdsRight(s, x);
      }
    case _ => TaskStepKeeps(lim, s, e);
  }

  lemma {:induction false} RunKeepsInv(lim: Limits, s: State, es: seq<Event>)
    requires Inv(lim, s)
    ensures Exec(lim, s, es).Some? ==> Inv(lim, Exec(lim, s, es).value)
    decreases |es|
  {
    if es != [] && Enabled(s, es[0]) {
      InvKept(lim, s, es[0]);
      RunKeepsInv(lim, Step(lim, s, es[0]), es[1..]);
    }
  }

  ghost predicate Reached(lim: Limits, es: seq<Event>, s: State) {
    Exec(lim, Init(lim), es) == Some(s)
  }

  lemma ReachedInv(lim: Limits, es: seq<Event>, s: State)
    requires Reached(lim, es, s)
    ensures Inv(lim, s)
  {
    RunKeepsInv(lim, Init(lim), es);
  }

  // ---- what holds in every run ----

  /** Everything accepted for a document that is not over: in the queue, in the consumer's hands or a task. */
  function Live(s: State, x: string): nat {
    Count(s.queue, JobFor(x)) + HeldFor(s, x) + Count(s.tasks, LiveFor(x))
  }

  lemma {:induction false} LiveTasks(tasks: seq<Task>, x: string)
    ensures Count(tasks, LiveFor(x)) == Count(tasks, SpawnedFor(x)) + Count(tasks, RunningFor(x))
  {
    if tasks != [] { LiveTasks(tasks[..|tasks| - 1], x); }
  }

  /** A document has at most one live job, and has one exactly when its id is in one of the two sets; the
      sets never overlap. */
  lemma OneLiveJobPerDocument(lim: Limits, es: seq<Event>, s: State, x: string)
    requires Reached(lim, es, s)
    ensures Live(s, x) == if Known(s, x) then 1 else 0
    ensures !(x in s.queuedIds && x in s.runningIds)
  {
    ReachedInv(lim, es, s);
    LiveTasks(s.tasks, x);
    assert IdsRight(s, x);
  }

  /** In particular no two live tasks ever work on one document. */
  lemma LiveTasksDiffer(lim: Limits, s: State, i: nat, j: nat)
    requires Inv(lim, s) && i < j < |s.tasks| && IsLive(s.tasks[i]) && IsLive(s.tasks[j])
    ensures s.tasks[i].job.docId != s.tasks[j].job.docId
  {
    var x := s.tasks[i].job.docId;
    LiveTasks(s.tasks, x);
    assert IdsRight(s, x);
    if s.tasks[j].job.docId == x {
      CountTwo(s.tasks, i, j, LiveFor(x));
    }
  }

  lemma {:induction false} LiveAndFinished(tasks: seq<Task>)
    ensures Count(tasks, IsLive) + Count(tasks, IsFinished) == |tasks|
  {
    if tasks != [] { LiveAndFinished(tasks[..|tasks| - 1]); }
  }

  /** At most `max_workers` jobs execute, the queue never outgrows its capacity, and every accepted job is
      live or finished. */
  lemma BoundsInEveryRun(lim: Limits, es: seq<Event>, s: State)
    requires Reached(lim, es, s)
    ensures Count(s.tasks, IsExecuting) <= lim.maxWorkers
    ensures 0 < lim.capacity ==> |s.queue| <= lim.capacity
    ensures s.accepted == |s.queue| + HeldCount(s) + Count(s.tasks, IsLive) + Count(s.tasks, IsFinished)
  {
    ReachedInv(lim, es, s);
    LiveAndFinished(s.tasks);
  }

  /** What `snapshot` reports: a job taken off the queue still counts as queued until its task starts, and
      the running jobs include those that wait for a slot, so they may exceed `max_workers`. */
  lemma SnapshotMeaning(lim: Limits, es: seq<Event>, s: State)
    requires Reached(lim, es, s)
    ensures |s.queuedIds| == |s.queue| + HeldCount(s) + Count(s.tasks, IsSpawned)
    ensures |s.runningIds| == Count(s.tasks, IsWaiting) + Count(s.tasks, IsExecuting)
    ensures |s.runningIds| <= lim.maxWorkers <==> Count(s.tasks, IsWaiting) <= s.permits
  {
    ReachedInv(lim, es, s);
  }

  lemma {:induction false} EnqueueGrows(lim: Limits, s: State, jobs: seq<Job>)
    ensures var s' := EnqueueAll(lim, s, jobs);
            && s.queuedIds <= s'.queuedIds && s'.runningIds == s.runningIds
            && s.queue <= s'.queue && s'.accepted - s.accepted == |s'.queue| - |s.queue|
  {
    if jobs != [] { EnqueueGrows(lim, s, jobs[..|jobs| - 1]); }
  }

  /** A document that was enqueued and is not live afterwards was refused for one reason only: the queue is
      bounded and holds as many jobs as it may. So an unbounded queue refuses nobody. */
  lemma {:induction false} RefusedOnlyWhenFull(lim: Limits, s: State, jobs: seq<Job>, k: nat)
    requires k < |jobs| && !Known(EnqueueAll(lim, s, jobs), jobs[k].docId)
    ensures 0 < lim.capacity && |EnqueueAll(lim, s, jobs).queue| >= lim.capacity
  {
    var n := |jobs| - 1;
    EnqueueGrows(lim, s, jobs[..n]);
    if k < n {
      RefusedOnlyWhenFull(lim, s, jobs[..n], k);
    }
  }

  /** A finished document can be enqueued again at once. */
  lemma FinishedMayReturn(lim: Limits, s: State, i: nat)
    requires Inv(lim, s) && Enabled(s, EvFinish(i))
    ensures !Known(Step(lim, s, EvFinish(i)), s.tasks[i].job.docId)
  {
    TakenIsRunning(s, i);
  }

  class JobDispatcher {
    const limits: Limits
    var queue: seq<Job>
    var held: Option<Job>
    var queuedIds: set<string>
    var runningIds: set<string>
    var permits: nat
    var stopped: bool
    var tasks: seq<Task>
    ghost var accepted: nat

    ghost function View(): State
      reads this
    {
      State(queue, held, queuedIds, runningIds, permits, stopped, tasks, accepted)
    }

    /** The invariant of the dispatcher: what the two id sets and the counts mean. */
    ghost predicate Valid()
      reads this
    {
      Inv(limits, View())
    }

    twostate lemma MethodKeepsValid(e: Event)
      requires old(Valid()) && Enabled(old(View()), e) && View() == Step(limits, old(View()), e)
      ensures Valid()
    {
      InvKept(limits, old(View()), e);
    }

    constructor (maxWorkers: nat, queueCapacity: nat)
      ensures limits == Limits(maxWorkers, queueCapacity) && View() == Init(limits) && Valid()
    {
      limits := Limits(maxWorkers, queueCapacity);
      queue, held, queuedIds, runningIds := [], None, {}, {};
      permits, stopped, tasks, accepted := maxWorkers, false, [], 0;
      new;
      ReachedInv(limits, [], View());
    }

    method EnqueueJobs(jobs: seq<Job>) returns (enqueued: nat)
      requires Valid()
      modifies this
      ensures Valid() && View() == EnqueueAll(limits, old(View()), jobs)
      ensures enqueued == accepted - old(accepted)
    {
      enqueued := AcceptJobs(jobs);
      MethodKeepsValid(EvEnqueue(jobs));
    }

    /** The loop of `enqueue_jobs`. */
    method AcceptJobs(jobs: seq<Job>) returns (enqueued: nat)
      modifies this
      ensures View() == EnqueueAll(limits, old(View()), jobs)
      ensures enqueued == accepted - old(accepted)
    {
      enqueued := 0;
      for i := 0 to |jobs|
        invariant View() == EnqueueAll(limits, old(View()), jobs[..i])
        invariant enqueued == accepted - old(accepted)
      {
        assert jobs[..i + 1][..i] == jobs[..i];
        var job := jobs[i];
        if job.docId in queuedIds || job.docId in runningIds {
          continue;
        }
        if limits.capacity == 0 || |queue| < limits.capacity {
          queue := queue + [job];
          queuedIds := queuedIds + {job.docId};
          accepted := accepted + 1;
          enqueued := enqueued + 1;
        }
      }
      assert jobs[..|jobs|] == jobs;
    }

    /** `queue.get()` inside `wait_for`. */
    method ConsumerTakes()
      requires Valid() && Enabled(View(), EvTake)
      modifies this
      ensures Valid() && View() == Step(limits, old(View()), EvTake)
    {
      held := Some(queue[0]);
      queue := queue[1..];
      MethodKeepsValid(EvTake);
    }

    /** `create_task`. */
    method ConsumerSpawns()
      requires Valid() && Enabled(View(), EvSpawn)
      modifies this
      ensures Valid() && View() == Step(limits, old(View()), EvSpawn)
    {
      tasks := tasks + [Task(held.value, Spawned)];
      held := None;
      MethodKeepsValid(EvSpawn);
    }

    method CountWaiters() returns (waiters: nat)
      ensures waiters == Count(tasks, IsWaiting)
    {
      waiters := 0;
      for k := 0 to |tasks|
        invariant waiters == Count(tasks[..k], IsWaiting)
      {
        assert tasks[..k + 1][..k] == tasks[..k];
        if tasks[k].stage.AtSemaphore? { waiters := waiters + 1; }
      }
      assert tasks[..|tasks|] == tasks;
    }

    /** `_run_job` up to its first await, or to the end of `execute`'s first step if a slot is free. */
    method StartJob(i: nat)
      requires Valid() && Enabled(View(), EvStart(i))
      modifies this
      ensures Valid() && View() == Step(limits, old(View()), EvStart(i))
    {
      MoveToRunning(i);
      MethodKeepsValid(EvStart(i));
    }

    method MoveToRunning(i: nat)
      requires TaskAt(View(), i, Spawned)
      modifies this
      ensures View() == Start(old(View()), i)
    {
      var task := tasks[i];
      var waiters := CountWaiters();
      queuedIds := queuedIds - {task.job.docId};
      runningIds := runningIds + {task.job.docId};
      if 0 < permits && waiters == 0 {
        permits := permits - 1;
        tasks := tasks[i := task.(stage := Executing)];
      } else {
        tasks := tasks[i := task.(stage := AtSemaphore)];
      }
    }

    method AcquireSlot(i: nat)
      requires Valid() && Enabled(View(), EvAcquire(i))
      modifies this
      ensures Valid() && View() == Step(limits, old(View()), EvAcquire(i))
    {
      permits := permits - 1;
      tasks := tasks[i := tasks[i].(stage := Executing)];
      MethodKeepsValid(EvAcquire(i));
    }

    /** The `finally` block and the release of the semaphore. */
    method FinishJob(i: nat)
      requires Valid() && Enabled(View(), EvFinish(i))
      modifies this
      ensures Valid() && View() == Step(limits, old(View()), EvFinish(i))
    {
      runningIds := runningIds - {tasks[i].job.docId};
      permits := permits + 1;
      tasks := tasks[i := tasks[i].(stage := Finished)];
      MethodKeepsValid(EvFinish(i));
    }

    method Stop()
      requires Valid()
      modifies this
      ensures Valid() && View() == Step(limits, old(View()), EvStop)
    {
      stopped := true;
      MethodKeepsValid(EvStop);
    }

    method Snapshot() returns (queueDepth: nat, queuedJobs: nat, runningJobs: nat)
      ensures queueDepth == |queue| && queuedJobs == |queuedIds| && runningJobs == |runningIds|
    {
      queueDepth, queuedJobs, runningJobs := |queue|, |queuedIds|, |runningIds|;
    }
  }
}
