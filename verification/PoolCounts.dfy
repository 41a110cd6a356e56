/** The compute pool's counters and its wake-ups, as inductive facts about every step. */
module PoolCounts {
  import opened ComputePool
  import opened PoolRuns

  // ---- Counting threads and workers by where they are ---------------------------------------------------------

  /**
   Reserved but not yet counted; pushed but not yet counted; counted but not yet in a depth; pushed and in no depth yet;
   pushed and still to notify.
   */
  datatype ThreadKind = Unsubmitted | Uncounted | HalfCounted | NotInDepth(p: Priority) | WillNotify

  /**
   With a task, with a task that has left the depths, running one, with a popped task still in a depth, or sure to
   look at the queue before it can wait.
   */
  datatype WorkerKind = WithTask | InFlight | Active | StillInDepth(p: Priority) | WillLook

  predicate IsThread(k: ThreadKind, pc: ThreadPc) {
    match k
    case Unsubmitted => pc.Reserved? || pc.Locked? || pc.Pushed?
    case Uncounted => pc.Pushed?
    case HalfCounted => pc.Counted?
    case NotInDepth(p) => (pc.Pushed? || pc.Counted?) && pc.task.priority == p
    case WillNotify => pc.Pushed? || pc.Counted? || pc.Entered? || pc.Notifying?
  }

  predicate IsWorker(k: WorkerKind, pc: WorkerPc) {
    match k
    case WithTask => Holds(pc)
    case InFlight => Holds(pc) && !pc.Popped?
    case Active => pc.Running? || pc.Ran?
    case StillInDepth(p) => pc.Popped? && pc.task.priority == p
    case WillLook => pc.Idle? || pc.Woken? || pc.Testing? || pc.Past? || pc.Popping?
  }

  function ThreadsAt(threads: map<nat, ThreadPc>, k: ThreadKind): set<nat> {
    set p | p in threads && IsThread(k, threads[p])
  }

  function WorkersAt(workers: map<nat, WorkerPc>, k: WorkerKind): set<nat> {
    set w | w in workers && IsWorker(k, workers[w])
  }

  function Threads(s: State, k: ThreadKind): nat {
    |ThreadsAt(s.threads, k)|
  }

  function Workers(s: State, k: WorkerKind): nat {
    |WorkersAt(s.workers, k)|
  }

  function One(b: bool): int {
    if b then 1 else 0
  }

  /** Two sets that agree away from `p`. */
  lemma ChangeOne(a: set<nat>, b: set<nat>, p: nat)
    requires forall q :: q != p ==> (q in a <==> q in b)
    ensures |b| == |a| - One(p in a) + One(p in b)
  {
    var rest := a - {p};
    assert b - {p} == rest;
    assert |a| == |rest| + One(p in a);
    assert |b| == |rest| + One(p in b);
  }

  lemma ThreadCounts(threads: map<nat, ThreadPc>, p: nat, pc: ThreadPc, k: ThreadKind)
    ensures |ThreadsAt(threads[p := pc], k)| ==
            |ThreadsAt(threads, k)| - One(IsThread(k, PcOf(threads, p))) + One(IsThread(k, pc))
  {
    QuietCountsNowhere(k);
    hide IsThread;
    ChangeOne(ThreadsAt(threads, k), ThreadsAt(threads[p := pc], k), p);
  }

  lemma QuietCountsNowhere(k: ThreadKind)
    ensures !IsThread(k, Quiet)
  {}

  lemma WorkerCounts(workers: map<nat, WorkerPc>, w: nat, pc: WorkerPc, k: WorkerKind)
    requires w in workers
    ensures |WorkersAt(workers[w := pc], k)| ==
            |WorkersAt(workers, k)| - One(IsWorker(k, workers[w])) + One(IsWorker(k, pc))
  {
    hide IsWorker;
    ChangeOne(WorkersAt(workers, k), WorkersAt(workers[w := pc], k), w);
  }

  /** Waking a waiting worker changes no count of tasks. */
  lemma WakingMovesNoTask(workers: map<nat, WorkerPc>, workers': map<nat, WorkerPc>, k: WorkerKind)
    requires workers'.Keys == workers.Keys && !k.WillLook?
    requires forall w :: w in workers ==> workers'[w] == workers[w] || (workers[w].Waiting? && workers'[w].Woken?)
    ensures WorkersAt(workers', k) == WorkersAt(workers, k)
  {}

  // ---- Conservation ------------------------------------------------------------------------------------------

  function QueuedAt(queue: set<PriorityTask>, p: Priority): set<PriorityTask> {
    set t | t in queue && t.priority == p
  }

  /** Every pushed task is counted once: in the queue, in a worker's hands, or finished. */
  ghost predicate TasksAddUp(s: State) {
    s.shared.metrics.submitted + Threads(s, Uncounted) ==
    |s.shared.queue| + Workers(s, WithTask) + s.shared.metrics.completed + s.shared.metrics.failed
  }

  ghost predicate DepthAddsUp(s: State, p: Priority) {
    Depth(s.shared.metrics, p) + Threads(s, NotInDepth(p))
    == |QueuedAt(s.shared.queue, p)| + Workers(s, StillInDepth(p))
  }

  /** What a reader of the metrics sees, exactly. */
  ghost predicate ReaderSees(s: State) {
    s.shared.metrics.submitted == Accounted(s.shared.metrics) + Workers(s, InFlight) + Threads(s, HalfCounted)
  }

  ghost predicate ActiveAddsUp(s: State) {
    s.shared.metrics.active == Workers(s, Active)
  }

  ghost predicate SequencesAddUp(s: State) {
    s.shared.metrics.submitted + Threads(s, Unsubmitted) == s.shared.sequence
  }

  ghost predicate CountsOk(s: State) {
    SequencesAddUp(s) && TasksAddUp(s) && (forall p :: DepthAddsUp(s, p)) && ReaderSees(s) && ActiveAddsUp(s)
  }

  /** How many of each kind a thread's step adds. */
  lemma ThreadStepCounts(s: State, p: nat, op: ThreadOp, s': State)
    requires ThreadStep(s, p, op, s')
    ensures forall k :: Threads(s', k) ==
              Threads(s, k) - One(IsThread(k, PcOf(s.threads, p))) + One(IsThread(k, PcOf(s'.threads, p)))
    ensures forall k: WorkerKind :: !k.WillLook? ==> Workers(s', k) == Workers(s, k)
  {
    OnlyOneThreadMoves(s, p, op, s');
    hide ThreadStep, IsThread, IsWorker;
    forall k ensures Threads(s', k) ==
              Threads(s, k) - One(IsThread(k, PcOf(s.threads, p))) + One(IsThread(k, PcOf(s'.threads, p)))
    {
      ThreadCounts(s.threads, p, s'.threads[p], k);
    }
    forall k: WorkerKind | !k.WillLook? ensures Workers(s', k) == Workers(s, k) {
      WakingMovesNoTask(s.workers, s'.workers, k);
    }
  }

  lemma WorkerStepCounts(s: State, w: nat, op: WorkerOp, s': State)
    requires w in s.workers && WorkerStep(s, w, op, s')
    ensures w in s'.workers && s'.threads == s.threads
    ensures forall k :: Workers(s', k) ==
              Workers(s, k) - One(IsWorker(k, s.workers[w])) + One(IsWorker(k, s'.workers[w]))
  {
    OnlyOneWorkerMoves(s, w, op, s');
    hide WorkerStep, IsWorker;
    forall k ensures Workers(s', k) ==
              Workers(s, k) - One(IsWorker(k, s.workers[w])) + One(IsWorker(k, s'.workers[w]))
    {
      WorkerCounts(s.workers, w, s'.workers[w], k);
    }
  }

  lemma QueueGrows(queue: set<PriorityTask>, t: PriorityTask, p: Priority)
    requires t !in queue
    ensures |queue + {t}| == |queue| + 1
    ensures |QueuedAt(queue + {t}, p)| == |QueuedAt(queue, p)| + One(t.priority == p)
  {
    var now := QueuedAt(queue + {t}, p);
    assert now == if t.priority == p then QueuedAt(queue, p) + {t} else QueuedAt(queue, p);
  }

  lemma QueueShrinks(queue: set<PriorityTask>, t: PriorityTask, p: Priority)
    requires t in queue
    ensures |queue - {t}| == |queue| - 1
    ensures |QueuedAt(queue - {t}, p)| == |QueuedAt(queue, p)| - One(t.priority == p)
  {
    var now := QueuedAt(queue - {t}, p);
    assert now == if t.priority == p then QueuedAt(queue, p) - {t} else QueuedAt(queue, p);
  }

  lemma DepthsMove(m: Metrics, p: Priority)
    ensures Accounted(OneMoreQueued(m, p)) == Accounted(m) + 1
    ensures forall q :: Depth(OneMoreQueued(m, p), q) == Depth(m, q) + One(p == q)
    ensures Depth(m, p) > 0 ==>
              && Accounted(OneLessQueued(m, p)) == Accounted(m) - 1
              && forall q :: Depth(OneLessQueued(m, p), q) == Depth(m, q) - One(p == q)
    ensures SameBesidesDepths(OneMoreQueued(m, p), m) && SameBesidesDepths(OneLessQueued(m, p), m)
  {}

  predicate SameBesidesDepths(a: Metrics, b: Metrics) {
    a.submitted == b.submitted && a.completed == b.completed && a.failed == b.failed && a.active == b.active
  }

  lemma PushIsNew(s: State, p: nat, s': State)
    requires PlacesOk(s) && ThreadStep(s, p, Push, s')
    ensures PcOf(s.threads, p).Locked? && PcOf(s.threads, p).task !in s.shared.queue
    ensures var t := PcOf(s.threads, p).task; s'.shared == AfterPush(s.shared, t) && PcOf(s'.threads, p) == Pushed(t)
  {
    var t := PcOf(s.threads, p).task;
    assert KnownAt(s, t, AtThread(p));
  }

  lemma PushKeepsCounts(s: State, p: nat, s': State)
    requires CountsOk(s) && PlacesOk(s) && ThreadStep(s, p, Push, s')
    ensures CountsOk(s')
  {
    ThreadStepCounts(s, p, Push, s');
    PushIsNew(s, p, s');
    var t := PcOf(s.threads, p).task;
    hide ThreadStep, Threads, Workers, QueuedAt, Accounted, PlacesOk;
    forall q ensures DepthAddsUp(s', q) {
      QueueGrows(s.shared.queue, t, q);
      assert DepthAddsUp(s, q);
    }
    hide DepthAddsUp;
    QueueGrows(s.shared.queue, t, Low);
  }

  lemma EnterKeepsCounts(s: State, p: nat, s': State)
    requires CountsOk(s) && ThreadStep(s, p, Enter, s')
    ensures CountsOk(s')
  {
    ThreadStepCounts(s, p, Enter, s');
    var pc := PcOf(s.threads, p);
    assert s'.shared == AfterEnter(s.shared, pc.task.priority) && PcOf(s'.threads, p) == Entered;
    hide ThreadStep, Threads, Workers, OneMoreQueued, QueuedAt, Accounted;
    DepthsMove(s.shared.metrics, pc.task.priority);
    forall q ensures DepthAddsUp(s', q) {
      assert DepthAddsUp(s, q);
    }
  }

  lemma CountTaskKeepsCounts(s: State, p: nat, s': State)
    requires CountsOk(s) && ThreadStep(s, p, CountTask, s')
    ensures CountsOk(s')
  {
    ThreadStepCounts(s, p, CountTask, s');
    var pc := PcOf(s.threads, p);
    assert s'.shared == AfterCount(s.shared) && PcOf(s'.threads, p) == Counted(pc.task);
    hide ThreadStep, Threads, Workers, QueuedAt;
    forall q ensures DepthAddsUp(s', q) {
      assert DepthAddsUp(s, q);
    }
  }

  lemma ReserveKeepsCounts(s: State, p: nat, op: ThreadOp, s': State)
    requires CountsOk(s) && ThreadStep(s, p, op, s') && op.Reserve?
    ensures CountsOk(s')
  {
    ThreadStepCounts(s, p, op, s');
    assert s'.shared == AfterReserve(s.shared) && PcOf(s.threads, p).Quiet? && PcOf(s'.threads, p).Reserved?;
    hide ThreadStep, Threads, Workers, QueuedAt;
    forall q ensures DepthAddsUp(s', q) {
      assert DepthAddsUp(s, q);
    }
  }

  lemma ThreadKeepsCounts(s: State, p: nat, op: ThreadOp, s': State)
    requires CountsOk(s) && PlacesOk(s) && ThreadStep(s, p, op, s')
    ensures CountsOk(s')
  {
    if op.Push? {
      PushKeepsCounts(s, p, s');
    } else if op.Enter? {
      EnterKeepsCounts(s, p, s');
    } else if op.CountTask? {
      CountTaskKeepsCounts(s, p, s');
    } else if op.Reserve? {
      ReserveKeepsCounts(s, p, op, s');
    } else {
      OtherThreadStepsKeepCounts(s, p, op, s');
    }
  }

  lemma OtherThreadStepsKeepCounts(s: State, p: nat, op: ThreadOp, s': State)
    requires CountsOk(s) && ThreadStep(s, p, op, s')
    requires !op.Reserve? && !op.Push? && !op.Enter? && !op.CountTask?
    ensures CountsOk(s')
  {
    ThreadStepCounts(s, p, op, s');
    assert s'.shared == s.shared;
    forall k: ThreadKind | !k.WillNotify? ensures IsThread(k, PcOf(s.threads, p)) == IsThread(k, PcOf(s'.threads, p)) {}
    hide ThreadStep, Threads, Workers, QueuedAt, IsThread, Accounted;
    forall q ensures DepthAddsUp(s', q) {
      assert DepthAddsUp(s, q);
    }
  }

  lemma PopKeepsCounts(s: State, w: nat, t: PriorityTask, s': State)
    requires CountsOk(s) && w in s.workers && WorkerStep(s, w, Pop(t), s')
    ensures CountsOk(s')
  {
    hide Threads, Workers, QueuedAt, Accounted, Cmp;
    WorkerStepCounts(s, w, Pop(t), s');
    assert s'.shared == AfterPop(s.shared, t) && s'.workers[w] == Popped(t) && s.workers[w].Popping?;
    assert t in s.shared.queue;
    hide WorkerStep;
    SameThreads(s, s');
    forall q ensures DepthAddsUp(s', q) {
      QueueShrinks(s.shared.queue, t, q);
      assert DepthAddsUp(s, q);
    }
    QueueShrinks(s.shared.queue, t, Low);
  }

  lemma SameThreads(s: State, s': State)
    requires s'.threads == s.threads
    ensures forall k :: Threads(s', k) == Threads(s, k)
  {}

  /** While a worker is between its pop and its decrement nobody else is in the section, so its depth is not zero. */
  lemma DepthIsPositive(s: State, w: nat)
    requires CountsOk(s) && LockOk(s) && w in s.workers && s.workers[w].Popped?
    ensures Depth(s.shared.metrics, s.workers[w].task.priority) > 0
  {
    var p := s.workers[w].task.priority;
    assert DepthAddsUp(s, p);
    assert ThreadsAt(s.threads, NotInDepth(p)) == {};
    assert w in WorkersAt(s.workers, StillInDepth(p));
  }

  lemma ActiveIsPositive(s: State, w: nat)
    requires CountsOk(s) && w in s.workers && s.workers[w].Ran?
    ensures s.shared.metrics.active > 0
  {
    assert w in WorkersAt(s.workers, Active);
  }

  lemma LeaveKeepsCounts(s: State, w: nat, s': State)
    requires CountsOk(s) && LockOk(s) && w in s.workers && WorkerStep(s, w, Leave, s')
    ensures CountsOk(s')
  {
    WorkerStepCounts(s, w, Leave, s');
    SameThreads(s, s');
    DepthIsPositive(s, w);
    var t := s.workers[w].task;
    assert s.workers[w] == Popped(t) && s'.workers[w] == Left(t) && s'.shared == AfterLeave(s.shared, t.priority);
    hide WorkerStep, Threads, Workers, OneLessQueued, QueuedAt, Accounted, LockOk;
    DepthsMove(s.shared.metrics, t.priority);
    forall q ensures DepthAddsUp(s', q) {
      assert DepthAddsUp(s, q);
    }
  }

  /** The steps around the closure. */
  lemma RunningKeepsCounts(s: State, w: nat, op: WorkerOp, s': State)
    requires CountsOk(s) && w in s.workers && WorkerStep(s, w, op, s') && (op.Begin? || op.End? || op.Settle?)
    ensures CountsOk(s')
  {
    WorkerStepCounts(s, w, op, s');
    SameThreads(s, s');
    if op.End? {
      ActiveIsPositive(s, w);
    }
    hide Threads, Workers, QueuedAt;
    forall q ensures DepthAddsUp(s', q) {
      assert DepthAddsUp(s, q);
    }
  }

  lemma OtherWorkerStepsKeepCounts(s: State, w: nat, op: WorkerOp, s': State)
    requires CountsOk(s) && w in s.workers && WorkerStep(s, w, op, s')
    requires !op.Pop? && !op.Leave? && !op.Begin? && !op.End? && !op.Settle?
    ensures CountsOk(s')
  {
    WorkerStepCounts(s, w, op, s');
    SameThreads(s, s');
    assert s'.shared == s.shared;
    forall k: WorkerKind | !k.WillLook? ensures IsWorker(k, s.workers[w]) == IsWorker(k, s'.workers[w]) {}
    hide WorkerStep, Threads, Workers, QueuedAt, IsWorker, Accounted;
    forall q ensures DepthAddsUp(s', q) {
      assert DepthAddsUp(s, q);
    }
  }

  lemma WorkerKeepsCounts(s: State, w: nat, op: WorkerOp, s': State)
    requires CountsOk(s) && LockOk(s) && w in s.workers && WorkerStep(s, w, op, s')
    ensures CountsOk(s')
  {
    hide CountsOk, LockOk, WorkerStep;
    match op
    case Pop(t) => PopKeepsCounts(s, w, t, s');
    case Leave => LeaveKeepsCounts(s, w, s');
    case Begin => RunningKeepsCounts(s, w, op, s');
    case End => RunningKeepsCounts(s, w, op, s');
    case Settle => RunningKeepsCounts(s, w, op, s');
    case _ => OtherWorkerStepsKeepCounts(s, w, op, s');
  }

  lemma DropKeepsCounts(s: State, op: DropOp, s': State)
    requires CountsOk(s) && DropStep(s, op, s')
    ensures CountsOk(s')
  {
    SameThreads(s, s');
    forall k: WorkerKind | !k.WillLook? ensures Workers(s', k) == Workers(s, k) {
      WakingMovesNoTask(s.workers, s'.workers, k);
    }
    assert s'.shared.metrics == s.shared.metrics && s'.shared.queue == s.shared.queue;
    hide DropStep, Threads, Workers, QueuedAt, Accounted;
    forall q ensures DepthAddsUp(s', q) {
      assert DepthAddsUp(s, q);
    }
  }

  // ---- No stranded task --------------------------------------------------------------------------------------

  /** While any worker waits, every queued task has a notification to come or a worker sure to look. */
  ghost predicate NoneStranded(s: State) {
    AnyWaiting(s.workers) ==> |s.shared.queue| <= Threads(s, WillNotify) + Workers(s, WillLook)
  }

  /** A wake-up gains a worker that will look. */
  lemma WakingGains(s: State, w: nat, workers': map<nat, WorkerPc>)
    requires w in s.workers && s.workers[w].Waiting? && workers' == s.workers[w := Woken]
    ensures |WorkersAt(workers', WillLook)| == Workers(s, WillLook) + 1
  {
    WorkerCounts(s.workers, w, Woken, WillLook);
  }

  lemma ThreadKeepsNoneStranded(s: State, p: nat, op: ThreadOp, s': State)
    requires NoneStranded(s) && ThreadStep(s, p, op, s')
    ensures NoneStranded(s')
  {
    ThreadStepCounts(s, p, op, s');
    hide Threads;
    match op
    case NotifyOne(woken) =>
      if woken.Some? {
        WakingGains(s, woken.value, s'.workers);
      }
    case _ =>
      assert s'.workers == s.workers;
      hide WorkersAt, OneMoreQueued, Moved;
  }

  lemma WorkerKeepsNoneStranded(s: State, w: nat, op: WorkerOp, s': State)
    requires NoneStranded(s) && QueueOk(s) && w in s.workers && WorkerStep(s, w, op, s')
    ensures NoneStranded(s')
  {
    WorkerStepCounts(s, w, op, s');
    OnlyOneWorkerMoves(s, w, op, s');
    SameThreads(s, s');
    hide Threads, Workers;
    assert op.Pop? ==> |s'.shared.queue| < |s.shared.queue|;
    assert (op.Wait? || op.Test?) && s'.workers[w].Waiting? ==> s.shared.queue == {};
    assert s'.workers[w].AboutToWait? || s'.workers[w].Exited? ==> s'.shared.queue == {};
    assert s'.workers[w].Waiting? ==> op.Wait?;
  }

  lemma DropKeepsNoneStranded(s: State, op: DropOp, s': State)
    requires NoneStranded(s) && DropStep(s, op, s')
    ensures NoneStranded(s')
  {}
}
