/** What every reachable state of the compute pool satisfies. */
module PoolTheorems {
  import opened ComputePool
  import opened PoolRuns
  import opened PoolCounts

  // ---- Pops and executions -----------------------------------------------------------------------------------

  predicate WasPopped(r: Record) {
    r.place.Held? || r.place.Done?
  }

  ghost predicate HasRun(s: State, r: Record) {
    match r.place
    case Held(w) => w in s.workers && (s.workers[w].Ran? || s.workers[w].Settling?)
    case Done => true
    case _ => false
  }

  ghost predicate PopsOk(s: State) {
    && (forall n :: n in s.popOrder <==> n in s.records && WasPopped(s.records[n]))
    && (forall n :: n in s.popOrder ==> s.popOrder[n] < |s.popOrder|)
    && (forall n, m :: Apart(s.popOrder, n, m))
  }

  predicate Apart(order: map<nat, nat>, n: nat, m: nat) {
    n in order && m in order && n != m ==> order[n] != order[m]
  }

  /** `a` was spawned before `b`, by the same thread, at the same priority. */
  predicate AheadOf(a: Record, b: Record) {
    a.owner == b.owner && a.task.priority == b.task.priority && a.task.sequence < b.task.sequence
  }

  predicate PopsInLine(records: map<nat, Record>, order: map<nat, nat>, n: nat, m: nat) {
    n in records && m in records && AheadOf(records[n], records[m]) && m in order ==>
      n in order && order[n] < order[m]
  }

  ghost predicate FifoOk(s: State) {
    forall n, m :: PopsInLine(s.records, s.popOrder, n, m)
  }

  ghost predicate RunsOk(s: State) {
    && (forall n :: n in s.runs <==> n in s.records && HasRun(s, s.records[n]))
    && (forall n :: n in s.runs ==> s.runs[n] == 1)
  }

  /** A step that neither reserves nor pops: the line stays as it is. */
  lemma LineStays(s: State, s': State)
    requires PopsOk(s) && FifoOk(s) && s'.popOrder == s.popOrder && s'.records.Keys == s.records.Keys
    requires forall n :: n in s.records ==>
               && s'.records[n].task == s.records[n].task && s'.records[n].owner == s.records[n].owner
               && WasPopped(s'.records[n]) == WasPopped(s.records[n])
    ensures PopsOk(s') && FifoOk(s')
  {
    forall n, m ensures PopsInLine(s'.records, s'.popOrder, n, m) {
      assert PopsInLine(s.records, s.popOrder, n, m);
    }
  }

  lemma ThreadKeepsLine(s: State, p: nat, op: ThreadOp, s': State)
    requires RecordsOk(s) && PlacesOk(s) && PopsOk(s) && FifoOk(s) && ThreadStep(s, p, op, s')
    ensures PopsOk(s') && FifoOk(s')
  {
    if op.Reserve? {
      ReserveKeepsLine(s, p, op, s');
    } else {
      assert s'.popOrder == s.popOrder;
      assert op.Push? ==> KnownAt(s, PcOf(s.threads, p).task, AtThread(p));
      assert s'.records == s.records || s'.records == Moved(s.records, PcOf(s.threads, p).task.sequence, Queued);
      hide ThreadStep, RecordsOk, PlacesOk, PopsOk, FifoOk;
      LineStays(s, s');
    }
  }

  lemma ReserveKeepsLine(s: State, p: nat, op: ThreadOp, s': State)
    requires RecordsOk(s) && PopsOk(s) && FifoOk(s) && ThreadStep(s, p, op, s') && op.Reserve?
    ensures PopsOk(s') && FifoOk(s')
  {
    var n := s.shared.sequence;
    assert n !in s.records && n !in s.popOrder;
    assert s'.popOrder == s.popOrder && s'.records == s.records[n := s'.records[n]];
    assert s'.records[n].task.sequence == n && !WasPopped(s'.records[n]);
    hide ThreadStep;
    forall a, b ensures PopsInLine(s'.records, s'.popOrder, a, b) {
      assert PopsInLine(s.records, s.popOrder, a, b);
    }
  }

  lemma WorkerKeepsLine(s: State, w: nat, op: WorkerOp, s': State)
    requires RecordsOk(s) && PlacesOk(s) && PopsOk(s) && FifoOk(s) && w in s.workers && WorkerStep(s, w, op, s')
    ensures PopsOk(s') && FifoOk(s')
  {
    if op.Pop? {
      PopKeepsLine(s, w, op.task, s');
    } else {
      assert s'.popOrder == s.popOrder;
      assert op.Settle? ==> KnownAt(s, s.workers[w].task, Held(w));
      assert s'.records == s.records
             || (op.Settle? && s'.records == Moved(s.records, s.workers[w].task.sequence, Done));
      hide WorkerStep, RecordsOk, PlacesOk, PopsOk, FifoOk;
      LineStays(s, s');
    }
  }

  /** Whatever is ahead of the task popped has been popped already: it is neither with its thread nor in the queue. */
  lemma AheadWasPopped(s: State, t: PriorityTask, m: nat)
    requires RecordsOk(s) && PlacesOk(s) && PopsOk(s) && IsTop(s.shared.queue, t)
    requires m in s.records && t.sequence in s.records && AheadOf(s.records[m], s.records[t.sequence])
    ensures m in s.popOrder
  {
    assert KnownAt(s, t, Queued);
    TopIsFirstInLine(s.shared.queue, t);
    assert PlaceTrue(s, s.records[m]);
    assert !s.records[m].place.AtThread?;
  }

  ghost predicate LineMoves(s: State, n: nat, s': State) {
    && n in s.records && n !in s.popOrder && n in s'.records
    && s'.popOrder == s.popOrder[n := |s.popOrder|]
    && s'.records == s.records[n := s'.records[n]] && WasPopped(s'.records[n])
    && s'.records[n].task == s.records[n].task && s'.records[n].owner == s.records[n].owner
  }

  lemma PopMovesLine(s: State, w: nat, t: PriorityTask, s': State)
    requires PlacesOk(s) && PopsOk(s) && w in s.workers && WorkerStep(s, w, Pop(t), s')
    ensures LineMoves(s, t.sequence, s')
  {
    assert KnownAt(s, t, Queued);
    hide IsTop;
  }

  lemma LineMovesKeepsPops(s: State, n: nat, s': State)
    requires PopsOk(s) && LineMoves(s, n, s')
    ensures PopsOk(s')
  {
    assert |s'.popOrder| == |s.popOrder| + 1;
    forall a, b ensures Apart(s'.popOrder, a, b) {
      assert Apart(s.popOrder, a, b);
    }
  }

  lemma LineMovesKeepsFifo(s: State, n: nat, s': State)
    requires PopsOk(s) && FifoOk(s) && LineMoves(s, n, s')
    requires forall m :: m in s.records && AheadOf(s.records[m], s.records[n]) ==> m in s.popOrder
    ensures FifoOk(s')
  {
    forall a, b ensures PopsInLine(s'.records, s'.popOrder, a, b) {
      assert PopsInLine(s.records, s.popOrder, a, b);
    }
  }

  lemma PopKeepsLine(s: State, w: nat, t: PriorityTask, s': State)
    requires RecordsOk(s) && PlacesOk(s) && PopsOk(s) && FifoOk(s) && w in s.workers && WorkerStep(s, w, Pop(t), s')
    ensures PopsOk(s') && FifoOk(s')
  {
    PopMovesLine(s, w, t, s');
    assert IsTop(s.shared.queue, t);
    hide WorkerStep, IsTop, PopsOk, FifoOk, RecordsOk, PlacesOk, AheadOf;
    LineMovesKeepsPops(s, t.sequence, s');
    forall m | m in s.records && AheadOf(s.records[m], s.records[t.sequence]) ensures m in s.popOrder {
      AheadWasPopped(s, t, m);
    }
    LineMovesKeepsFifo(s, t.sequence, s');
  }

  lemma ThreadKeepsRuns(s: State, p: nat, op: ThreadOp, s': State)
    requires RecordsOk(s) && PlacesOk(s) && RunsOk(s) && ThreadStep(s, p, op, s')
    ensures RunsOk(s')
  {
    hide RunsOk, RecordsOk, PlacesOk;
    OnlyOneThreadMoves(s, p, op, s');
    RecordsNotRun(s, p, op, s');
    ThreadRunsNothing(s, p, op, s');
    hide ThreadStep;
    UnseenChangesKeepRuns(s, s');
  }

  lemma ThreadRunsNothing(s: State, p: nat, op: ThreadOp, s': State)
    requires ThreadStep(s, p, op, s')
    ensures s'.runs == s.runs
  {
    hide OneMoreQueued, AnyWaiting, Moved;
  }

  lemma UnseenChangesKeepRuns(s: State, s': State)
    requires RunsOk(s) && s'.runs == s.runs && s.records.Keys <= s'.records.Keys && s'.workers.Keys == s.workers.Keys
    requires forall w :: w in s.workers ==>
               s'.workers[w] == s.workers[w] || (s.workers[w].Waiting? && s'.workers[w].Woken?)
    requires forall n :: n in s'.records && (n !in s.records || s'.records[n] != s.records[n]) ==>
               !WasPopped(s'.records[n]) && (n in s.records ==> !WasPopped(s.records[n]))
    ensures RunsOk(s')
  {
    forall n | n in s'.records
      ensures HasRun(s', s'.records[n]) <==> n in s.records && HasRun(s, s.records[n])
    {}
    hide HasRun, WasPopped;
  }

  /** What a spawning thread does to the records concerns only a task that no worker has seen. */
  lemma RecordsNotRun(s: State, p: nat, op: ThreadOp, s': State)
    requires RecordsOk(s) && PlacesOk(s) && ThreadStep(s, p, op, s')
    ensures s.records.Keys <= s'.records.Keys
    ensures forall n :: n in s'.records && (n !in s.records || s'.records[n] != s.records[n]) ==>
              !WasPopped(s'.records[n]) && (n in s.records ==> !WasPopped(s.records[n]))
  {
    hide OneMoreQueued, AnyWaiting;
    var pc := PcOf(s.threads, p);
    if op.Push? {
      assert KnownAt(s, pc.task, AtThread(p));
    } else if !op.Reserve? {
      assert s'.records == s.records by { hide Moved, RecordsOk, PlacesOk; }
    }
    hide PlacesOk, PlaceTrue;
  }

  lemma WorkerKeepsRuns(s: State, w: nat, op: WorkerOp, s': State)
    requires RecordsOk(s) && PlacesOk(s) && RunsOk(s) && w in s.workers && WorkerStep(s, w, op, s')
    ensures RunsOk(s')
  {
    OnlyOneWorkerMoves(s, w, op, s');
    if op.Execute? {
      ExecuteKeepsRuns(s, w, op.ok, s');
    } else if op.Pop? {
      PopKeepsRuns(s, w, op.task, s');
    } else if op.Settle? {
      SettleKeepsRuns(s, w, s');
    } else {
      hide RunsOk, RecordsOk, PlacesOk, IsTop;
      assert s'.runs == s.runs && s'.records == s.records;
      assert RanAlready(s'.workers[w]) == RanAlready(s.workers[w]);
      hide WorkerStep, RanAlready;
      RunsStay(s, w, s');
    }
  }

  predicate RanAlready(pc: WorkerPc) {
    pc.Ran? || pc.Settling?
  }

  lemma RunsStay(s: State, w: nat, s': State)
    requires RunsOk(s) && s'.runs == s.runs && s'.records == s.records
    requires w in s.workers && w in s'.workers && s'.workers == s.workers[w := s'.workers[w]]
    requires RanAlready(s'.workers[w]) == RanAlready(s.workers[w])
    ensures RunsOk(s')
  {
    forall n | n in s.records ensures HasRun(s', s.records[n]) == HasRun(s, s.records[n]) {}
    hide HasRun;
  }

  lemma ExecuteKeepsRuns(s: State, w: nat, ok: bool, s': State)
    requires RecordsOk(s) && PlacesOk(s) && RunsOk(s) && w in s.workers && WorkerStep(s, w, Execute(ok), s')
    ensures RunsOk(s')
  {
    var t := s.workers[w].task;
    assert KnownAt(s, t, Held(w));
    assert t.sequence !in s.runs;
    assert s'.records == s.records && s'.runs == s.runs[t.sequence := 1] && s'.workers == s.workers[w := Ran(t, ok)];
    hide WorkerStep;
    forall n | n in s.records && n != t.sequence ensures s.records[n].place != Held(w) {
      assert PlaceTrue(s, s.records[n]);
    }
  }

  lemma PopKeepsRuns(s: State, w: nat, t: PriorityTask, s': State)
    requires RecordsOk(s) && PlacesOk(s) && RunsOk(s) && w in s.workers && WorkerStep(s, w, Pop(t), s')
    ensures RunsOk(s')
  {
    hide RunsOk, RecordsOk, Cmp;
    PopIsAMove(s, w, t, s');
    assert s'.runs == s.runs;
    assert t in s.shared.queue;
    hide WorkerStep;
    assert KnownAt(s, t, Queued);
    hide PlacesOk;
    RunsAfterPop(s, w, t, s');
  }

  lemma RunsAfterPop(s: State, w: nat, t: PriorityTask, s': State)
    requires RunsOk(s) && KnownAt(s, t, Queued) && PopMoves(s, w, t, s') && s'.runs == s.runs
    ensures RunsOk(s')
  {
    assert s'.records.Keys == s.records.Keys;
    assert forall n :: n in s.records && n != t.sequence ==> s'.records[n] == s.records[n];
    hide Moved;
  }

  lemma SettleKeepsRuns(s: State, w: nat, s': State)
    requires RecordsOk(s) && PlacesOk(s) && RunsOk(s) && w in s.workers && WorkerStep(s, w, Settle, s')
    ensures RunsOk(s')
  {
    var t := s.workers[w].task;
    assert KnownAt(s, t, Held(w)) && HasRun(s, s.records[t.sequence]);
    assert s'.records == Moved(s.records, t.sequence, Done) && s'.runs == s.runs && s'.workers == s.workers[w := Idle];
    hide WorkerStep;
    forall n | n in s.records && n != t.sequence ensures s.records[n].place != Held(w) {
      assert PlaceTrue(s, s.records[n]);
    }
  }

  lemma DropKeepsHistory(s: State, op: DropOp, s': State)
    requires PopsOk(s) && FifoOk(s) && RunsOk(s) && DropStep(s, op, s')
    ensures PopsOk(s') && FifoOk(s') && RunsOk(s')
  {
    hide PopsOk, FifoOk;
    LineStays(s, s');
  }

  // ---- Every reachable state ---------------------------------------------------------------------------------

  ghost predicate Inv(s: State) {
    && s.workers != map[]
    && LockOk(s) && DropOk(s) && QueueOk(s) && RecordsOk(s) && PlacesOk(s) && CountsOk(s) && NoneStranded(s)
    && PopsOk(s) && FifoOk(s) && RunsOk(s)
  }

  ghost predicate Reachable(s: State) {
    exists run: seq<State> :: Run(run) && run[|run| - 1] == s
  }

  lemma NothingToAccountFor(m: Metrics)
    requires m.low == 0 && m.normal == 0 && m.high == 0 && m.critical == 0 && m.completed == 0 && m.failed == 0
    ensures Accounted(m) == 0
  {}

  lemma InitKinds(s: State, k: ThreadKind, l: WorkerKind)
    requires Init(s)
    ensures Threads(s, k) == 0 && (!l.WillLook? ==> Workers(s, l) == 0)
  {
    assert ThreadsAt(s.threads, k) == {};
    assert !l.WillLook? ==> WorkersAt(s.workers, l) == {};
  }

  lemma InitDepth(s: State, p: Priority)
    requires Init(s)
    ensures DepthAddsUp(s, p)
  {
    InitKinds(s, NotInDepth(p), StillInDepth(p));
    assert QueuedAt(s.shared.queue, p) == {};
    hide Threads, Workers;
  }

  lemma InitCounts(s: State)
    requires Init(s)
    ensures CountsOk(s)
  {
    InitKinds(s, Unsubmitted, Active);
    InitKinds(s, Uncounted, WithTask);
    InitKinds(s, HalfCounted, InFlight);
    var m := s.shared.metrics;
    NothingToAccountFor(m);
    hide Threads, Workers, Accounted, DepthAddsUp;
    forall p ensures DepthAddsUp(s, p) {
      InitDepth(s, p);
    }
  }

  lemma InitPlaces(s: State)
    requires Init(s)
    ensures LockOk(s) && DropOk(s) && QueueOk(s) && RecordsOk(s) && PlacesOk(s)
  {}

  lemma InitHistory(s: State)
    requires Init(s)
    ensures PopsOk(s) && FifoOk(s) && RunsOk(s)
  {
    assert forall n, m :: Apart(s.popOrder, n, m);
    assert forall n, m :: PopsInLine(s.records, s.popOrder, n, m);
  }

  lemma InitHasInv(s: State)
    requires Init(s)
    ensures Inv(s)
  {
    InitCounts(s);
    InitHistory(s);
    InitPlaces(s);
    assert NoneStranded(s);
    hide LockOk, DropOk, QueueOk, RecordsOk, PlacesOk, CountsOk, NoneStranded, PopsOk, FifoOk, RunsOk, Empty;
  }

  lemma StepKeepsInv(s: State, step: Step, s': State)
    requires Inv(s) && Do(s, step, s')
    ensures Inv(s')
  {
    match step
    case OfThread(p, op) => ThreadKeepsInv(s, p, op, s');
    case OfWorker(w, op) => WorkerKeepsInv(s, w, op, s');
    case OfDrop(op) => DropKeepsInv(s, op, s');
  }

  lemma ThreadKeepsInv(s: State, p: nat, op: ThreadOp, s': State)
    requires Inv(s) && ThreadStep(s, p, op, s')
    ensures Inv(s')
  {
    OnlyOneThreadMoves(s, p, op, s');
    assert s'.workers.Keys != {} by { assert s.workers.Keys != {}; }
    hide ThreadStep, LockOk, DropOk, QueueOk, RecordsOk, PlacesOk, CountsOk, NoneStranded, PopsOk, FifoOk, RunsOk;
    ThreadKeepsLock(s, p, op, s');
    ThreadKeepsDrop(s, p, op, s');
    ThreadKeepsQueue(s, p, op, s');
    ThreadKeepsPlaces(s, p, op, s');
    ThreadKeepsCounts(s, p, op, s');
    ThreadKeepsNoneStranded(s, p, op, s');
    ThreadKeepsLine(s, p, op, s');
    ThreadKeepsRuns(s, p, op, s');
  }

  lemma WorkerKeepsInv(s: State, w: nat, op: WorkerOp, s': State)
    requires Inv(s) && w in s.workers && WorkerStep(s, w, op, s')
    ensures Inv(s')
  {
    OnlyOneWorkerMoves(s, w, op, s');
    hide WorkerStep, LockOk, DropOk, QueueOk, RecordsOk, PlacesOk, CountsOk, NoneStranded, PopsOk, FifoOk, RunsOk;
    WorkerKeepsLock(s, w, op, s');
    WorkerKeepsDrop(s, w, op, s');
    WorkerKeepsQueue(s, w, op, s');
    WorkerKeepsPlaces(s, w, op, s');
    WorkerKeepsCounts(s, w, op, s');
    WorkerKeepsNoneStranded(s, w, op, s');
    WorkerKeepsLine(s, w, op, s');
    WorkerKeepsRuns(s, w, op, s');
  }

  lemma DropKeepsInv(s: State, op: DropOp, s': State)
    requires Inv(s) && DropStep(s, op, s')
    ensures Inv(s')
  {
    assert s'.workers.Keys != {} by { assert s.workers.Keys != {}; }
    hide DropStep, LockOk, DropOk, QueueOk, RecordsOk, PlacesOk, CountsOk, NoneStranded, PopsOk, FifoOk, RunsOk;
    DropKeepsLock(s, op, s');
    DropKeepsDrop(s, op, s');
    DropKeepsQueue(s, op, s');
    DropKeepsPlaces(s, op, s');
    DropKeepsCounts(s, op, s');
    DropKeepsNoneStranded(s, op, s');
    DropKeepsHistory(s, op, s');
  }

  lemma {:induction false} RunKeepsInv(run: seq<State>, i: nat)
    requires Run(run) && i < |run|
    ensures Inv(run[i])
  {
    hide Inv, Do;
    if i == 0 {
      InitHasInv(run[0]);
    } else {
      var p := i - 1;
      RunKeepsInv(run, p);
      assert StepAt(run, i);
      var step :| Do(run[p], step, run[i]);
      StepKeepsInv(run[p], step, run[i]);
    }
  }

  lemma ReachableHasInv(s: State)
    requires Reachable(s)
    ensures Inv(s)
  {
    hide Inv;
    var run: seq<State> :| Run(run) && run[|run| - 1] == s;
    RunKeepsInv(run, |run| - 1);
  }

  // ---- The promises ------------------------------------------------------------------------------------------

  /**
   While a worker waits, the queue holds no more tasks than there are notifications still to come and workers sure to
   look; so whenever a task is queued, some worker is neither waiting nor gone, or a notification is on its way.
   */
  lemma NoTaskIsStranded(s: State)
    requires Reachable(s)
    ensures AnyWaiting(s.workers) ==> |s.shared.queue| <= Threads(s, WillNotify) + Workers(s, WillLook)
    ensures s.shared.queue != {} ==>
              || (exists w :: w in s.workers && !s.workers[w].Waiting? && !s.workers[w].Exited?)
              || (exists p :: p in s.threads && IsThread(WillNotify, s.threads[p]))
  {
    ReachableHasInv(s);
    assert s.workers != map[] && DropOk(s) && NoneStranded(s);
    hide Inv, Reachable;
    if s.shared.queue != {} {
      SomeoneComes(s);
    }
  }

  lemma SomeoneComes(s: State)
    requires DropOk(s) && NoneStranded(s) && s.workers != map[] && s.shared.queue != {}
    ensures || (exists w :: w in s.workers && !s.workers[w].Waiting? && !s.workers[w].Exited?)
            || (exists p :: p in s.threads && IsThread(WillNotify, s.threads[p]))
  {
    if AnyWaiting(s.workers) {
      hide DropOk;
      if p :| p in ThreadsAt(s.threads, WillNotify) {
      } else {
        assert Threads(s, WillNotify) == 0;
        var w :| w in WorkersAt(s.workers, WillLook);
      }
    } else {
      hide NoneStranded;
      var w :| w in s.workers;
      assert !s.workers[w].Waiting?;
    }
  }

  /** Whenever the lock is free the metrics are exact. */
  lemma MetricsAreConserved(s: State)
    requires Reachable(s) && s.lock.None?
    ensures var m := s.shared.metrics;
            && m.submitted == |s.shared.queue| + Workers(s, WithTask) + m.completed + m.failed
            && m.low == |QueuedAt(s.shared.queue, Low)| && m.normal == |QueuedAt(s.shared.queue, Normal)|
            && m.high == |QueuedAt(s.shared.queue, High)| && m.critical == |QueuedAt(s.shared.queue, Critical)|
            && m.active == Workers(s, Active)
  {
    ReachableHasInv(s);
    FreeLockMeansNoHalfSteps(s);
    assert CountsOk(s);
    hide Inv, Reachable, QueuedAt, Threads, Workers;
    forall p ensures Depth(s.shared.metrics, p) == |QueuedAt(s.shared.queue, p)| {
      assert DepthAddsUp(s, p);
    }
    DepthsByName(s.shared.metrics);
    hide Depth;
  }

  lemma FreeLockMeansNoHalfSteps(s: State)
    requires LockOk(s) && s.lock.None?
    ensures Threads(s, Uncounted) == 0
    ensures forall p :: Threads(s, NotInDepth(p)) == 0 && Workers(s, StillInDepth(p)) == 0
  {
    assert ThreadsAt(s.threads, Uncounted) == {};
    forall p ensures Threads(s, NotInDepth(p)) == 0 && Workers(s, StillInDepth(p)) == 0 {
      assert ThreadsAt(s.threads, NotInDepth(p)) == {} && WorkersAt(s.workers, StillInDepth(p)) == {};
    }
  }

  lemma DepthsByName(m: Metrics)
    ensures Depth(m, Low) == m.low && Depth(m, Normal) == m.normal
    ensures Depth(m, High) == m.high && Depth(m, Critical) == m.critical
  {}

  /** No counter is ever decremented at zero, so none wraps. */
  lemma CountersNeverWrap(s: State, w: nat, op: WorkerOp, s': State)
    requires Reachable(s) && Do(s, OfWorker(w, op), s')
    ensures op.Leave? ==>
              var p := s.workers[w].task.priority;
              Depth(s.shared.metrics, p) > 0 && Depth(s'.shared.metrics, p) == Depth(s.shared.metrics, p) - 1
    ensures op.End? ==> s.shared.metrics.active > 0 && s'.shared.metrics.active == s.shared.metrics.active - 1
  {
    ReachableHasInv(s);
    assert LockOk(s) && CountsOk(s);
    hide Inv, Reachable, LockOk, CountsOk, Depth;
    if op.Leave? {
      LeaveDoesNotWrap(s, w, s');
    } else if op.End? {
      EndDoesNotWrap(s, w, s');
    }
  }

  lemma LeaveDoesNotWrap(s: State, w: nat, s': State)
    requires LockOk(s) && CountsOk(s) && w in s.workers && WorkerStep(s, w, Leave, s')
    ensures s.workers[w].Popped?
    ensures var p := s.workers[w].task.priority;
            Depth(s.shared.metrics, p) > 0 && Depth(s'.shared.metrics, p) == Depth(s.shared.metrics, p) - 1
  {
    hide CountsOk, LockOk;
    DepthIsPositive(s, w);
  }

  lemma EndDoesNotWrap(s: State, w: nat, s': State)
    requires CountsOk(s) && w in s.workers && WorkerStep(s, w, End, s')
    ensures s.shared.metrics.active > 0 && s'.shared.metrics.active == s.shared.metrics.active - 1
  {
    hide CountsOk;
    ActiveIsPositive(s, w);
  }

  /** No worker has a task that left the depths, and no thread is between its two increments. */
  predicate NothingInFlight(s: State) {
    && (forall w :: w in s.workers ==> !IsWorker(InFlight, s.workers[w]))
    && (forall p :: p in s.threads ==> !IsThread(HalfCounted, s.threads[p]))
  }

  /**
   The source's comment says that a reader never sees more submissions than the depths and the finished tasks account
   for. At one moment of a run that is so exactly when nothing is in flight. PoolReaders has the reader that loads the
   counters one after another.
   */
  lemma ReaderSeesNoExcessIff(s: State)
    requires Reachable(s)
    ensures s.shared.metrics.submitted <= Accounted(s.shared.metrics) <==> NothingInFlight(s)
    ensures s.shared.metrics.submitted >= Accounted(s.shared.metrics)
  {
    ReachableHasInv(s);
    assert ReaderSees(s);
    hide Inv, Accounted, IsWorker, IsThread;
    assert Workers(s, InFlight) == 0 <==> WorkersAt(s.workers, InFlight) == {};
    assert Threads(s, HalfCounted) == 0 <==> ThreadsAt(s.threads, HalfCounted) == {};
    if WorkersAt(s.workers, InFlight) == {} {
      forall w | w in s.workers ensures !IsWorker(InFlight, s.workers[w]) {
        assert w !in WorkersAt(s.workers, InFlight);
      }
    } else {
      var w :| w in WorkersAt(s.workers, InFlight);
    }
    if ThreadsAt(s.threads, HalfCounted) == {} {
      forall p | p in s.threads ensures !IsThread(HalfCounted, s.threads[p]) {
        assert p !in ThreadsAt(s.threads, HalfCounted);
      }
    } else {
      var p :| p in ThreadsAt(s.threads, HalfCounted);
    }
  }

  /** What is spawned is the closure and the priority asked for, under the next sequence number, by that thread. */
  lemma SpawnedAsAsked(s: State, p: nat, work: nat, priority: Priority, s': State)
    requires Reachable(s) && Do(s, OfThread(p, Reserve(work, priority)), s')
    ensures var n := s.shared.sequence;
            && n !in s.records && n in s'.records && s'.shared.sequence == n + 1
            && s'.records[n] == Record(PriorityTask(work, priority, n), p, AtThread(p))
            && forall m :: m in s.records ==> m in s'.records && s'.records[m] == s.records[m]
  {
    ReachableHasInv(s);
    assert RecordsOk(s);
    hide Inv, Reachable;
  }

  /** A pop takes the oldest task of the highest queued priority. */
  lemma PopsAreFirstInLine(s: State, w: nat, t: PriorityTask, s': State)
    requires Do(s, OfWorker(w, Pop(t)), s')
    ensures FirstInLine(s.shared.queue, t) && s'.shared.queue == s.shared.queue - {t}
    ensures var queue := s.shared.queue;
            && t in queue
            && (forall u :: u in queue && u.priority.Critical? ==> t.priority.Critical?)
            && (forall u :: u in queue && u.priority.High? ==> t.priority.High? || t.priority.Critical?)
            && (forall u :: u in queue && u.priority.Normal? ==> !t.priority.Low?)
            && (forall u :: u in queue && u.priority == t.priority ==> t.sequence <= u.sequence)
  {
    TopIsFirstInLine(s.shared.queue, t);
  }

  /** A worker that gets to the pop always finds a task. */
  lemma PopsFindATask(s: State, w: nat)
    requires Reachable(s) && w in s.workers && s.workers[w].Popping?
    ensures exists t, s' :: Do(s, OfWorker(w, Pop(t)), s')
  {
    ReachableHasInv(s);
    assert QueueKnown(s, s.workers[w]);
    TopExists(s.shared.queue);
    var t :| IsTop(s.shared.queue, t);
    var s' := SetWorker(s, w, Popped(t)).(shared := AfterPop(s.shared, t),
                                          records := Moved(s.records, t.sequence, Held(w)),
                                          popOrder := s.popOrder[t.sequence := |s.popOrder|]);
    assert Do(s, OfWorker(w, Pop(t)), s');
  }

  /** Tasks one thread spawns at one priority are popped in the order spawned, whatever the workers do. */
  lemma OneThreadSeesFifo(s: State, a: nat, b: nat)
    requires Reachable(s) && a in s.records && b in s.popOrder && b in s.records && a < b
    requires s.records[a].owner == s.records[b].owner && s.records[a].task.priority == s.records[b].task.priority
    ensures a in s.popOrder && s.popOrder[a] < s.popOrder[b]
  {
    ReachableHasInv(s);
    assert FifoOk(s) && RecordsOk(s);
    assert s.records[a].task.sequence == a && s.records[b].task.sequence == b;
    assert PopsInLine(s.records, s.popOrder, a, b);
  }

  /** No closure is called twice, and a task's closure is called only after it was popped. */
  lemma NoTaskRunsTwice(s: State, n: nat)
    requires Reachable(s) && n in s.runs
    ensures s.runs[n] == 1 && n in s.popOrder
  {
    ReachableHasInv(s);
    assert RunsOk(s) && PopsOk(s);
    assert HasRun(s, s.records[n]);
  }

  /** A worker leaves only once the pool shuts down and the queue is empty; nothing is queued after that. */
  lemma LeavingMeansDrained(s: State, w: nat)
    requires Reachable(s) && w in s.workers && s.workers[w].Exited?
    ensures s.shared.shutdown && s.shared.queue == {} && !s.drop.Alive?
  {
    ReachableHasInv(s);
    assert DropOk(s);
  }

  /** When Drop returns, every task ever spawned has run exactly once and is counted as finished. */
  lemma DropDrains(s: State)
    requires Reachable(s) && s.drop.Returned?
    ensures s.shared.queue == {}
    ensures forall n: nat :: n in s.runs <==> n < s.shared.sequence
    ensures forall n :: n in s.runs ==> s.runs[n] == 1
    ensures var m := s.shared.metrics;
            s.shared.sequence == m.submitted == m.completed + m.failed && m.active == 0
  {
    ReachableHasInv(s);
    var w :| w in s.workers;
    AllGoneMeansAllRun(s, w);
    AllGoneMeansAllCounted(s, w);
  }

  lemma AllGoneMeansAllRun(s: State, w: nat)
    requires DropOk(s) && RecordsOk(s) && RunsOk(s) && s.drop.Returned? && w in s.workers
    ensures s.shared.queue == {}
    ensures forall n: nat :: n in s.runs <==> n < s.shared.sequence
    ensures forall n :: n in s.runs ==> s.runs[n] == 1
  {
    assert s.workers[w].Exited?;
    forall n | n in s.records ensures HasRun(s, s.records[n]) {
      assert PlaceTrue(s, s.records[n]);
    }
  }

  lemma AllGoneMeansAllCounted(s: State, w: nat)
    requires DropOk(s) && CountsOk(s) && s.drop.Returned? && w in s.workers
    ensures var m := s.shared.metrics;
            s.shared.sequence == m.submitted == m.completed + m.failed && m.active == 0
  {
    assert s.workers[w].Exited?;
    assert ThreadsAt(s.threads, Unsubmitted) == {} && ThreadsAt(s.threads, Uncounted) == {};
    assert WorkersAt(s.workers, WithTask) == {} && WorkersAt(s.workers, Active) == {};
    hide DropOk;
  }
}
