/** The compute pool of mill-io/src/thread_pool.rs: its task order, its shared state and its lock sections. */
module ComputePool {

  /** Counters are 64-bit words; a decrement of zero wraps. */
  const WORD: nat := 0x1_0000_0000_0000_0000

  datatype Priority = Low | Normal | High | Critical

  datatype Ordering = Less | Equal | Greater

  datatype PriorityTask = PriorityTask(work: nat, priority: Priority, sequence: nat)

  function Rank(p: Priority): nat {
    match p
    case Low => 0
    case Normal => 1
    case High => 2
    case Critical => 3
  }

  function CmpNat(a: nat, b: nat): Ordering {
    if a < b then Less else if a == b then Equal else Greater
  }

  /** The heap's order: priority first, then the smaller sequence number is the greater. */
  function Cmp(a: PriorityTask, b: PriorityTask): Ordering {
    match CmpNat(Rank(a.priority), Rank(b.priority))
    case Equal => CmpNat(b.sequence, a.sequence)
    case other => other
  }

  /** What a max-heap may pop. */
  ghost predicate IsTop(queue: set<PriorityTask>, t: PriorityTask) {
    t in queue && forall u :: u in queue ==> Cmp(t, u) != Less
  }

  lemma {:induction false} TopExists(queue: set<PriorityTask>)
    requires queue != {}
    ensures exists t :: IsTop(queue, t)
    decreases |queue|
  {
    var u :| u in queue;
    var rest := queue - {u};
    if rest == {} {
      assert queue == {u};
      assert IsTop(queue, u);
    } else {
      TopExists(rest);
      var t :| IsTop(rest, t);
      var top := if Cmp(t, u) == Less then u else t;
      forall v | v in queue ensures Cmp(top, v) != Less {
        assert v == u || v in rest;
      }
      assert IsTop(queue, top);
    }
  }

  /** No queued task has a higher priority, and none of the same priority is older. */
  ghost predicate FirstInLine(queue: set<PriorityTask>, t: PriorityTask) {
    && t in queue
    && (forall u :: u in queue ==> Rank(u.priority) <= Rank(t.priority))
    && (forall u :: u in queue && u.priority == t.priority ==> t.sequence <= u.sequence)
  }

  lemma TopIsFirstInLine(queue: set<PriorityTask>, t: PriorityTask)
    ensures IsTop(queue, t) <==> FirstInLine(queue, t)
    ensures IsTop(queue, t) <==>
            && t in queue
            && (forall u :: u in queue && u.priority.Critical? ==> t.priority.Critical?)
            && (forall u :: u in queue && u.priority.High? ==> t.priority.High? || t.priority.Critical?)
            && (forall u :: u in queue && u.priority.Normal? ==> !t.priority.Low?)
            && (forall u :: u in queue && u.priority == t.priority ==> t.sequence <= u.sequence)
  {
    if FirstInLine(queue, t) {
      forall u | u in queue ensures Cmp(t, u) != Less {
        assert Rank(u.priority) == Rank(t.priority) ==> u.priority == t.priority;
      }
    }
  }

  datatype Metrics = Metrics(submitted: nat, completed: nat, failed: nat, active: nat,
                             low: nat, normal: nat, high: nat, critical: nat)

  datatype Shared = Shared(queue: set<PriorityTask>, shutdown: bool, sequence: nat, metrics: Metrics)

  function FetchSub(x: nat): nat {
    if x == 0 then WORD - 1 else x - 1
  }

  function Depth(m: Metrics, p: Priority): nat {
    match p
    case Low => m.low
    case Normal => m.normal
    case High => m.high
    case Critical => m.critical
  }

  function WithDepth(m: Metrics, p: Priority, depth: nat): Metrics {
    match p
    case Low => m.(low := depth)
    case Normal => m.(normal := depth)
    case High => m.(high := depth)
    case Critical => m.(critical := depth)
  }

  function OneMoreQueued(m: Metrics, p: Priority): Metrics {
    WithDepth(m, p, Depth(m, p) + 1)
  }

  function OneLessQueued(m: Metrics, p: Priority): Metrics {
    WithDepth(m, p, FetchSub(Depth(m, p)))
  }

  function OneMoreFinished(m: Metrics, ok: bool): Metrics {
    if ok then m.(completed := m.completed + 1) else m.(failed := m.failed + 1)
  }

  /** The sum a reader of the metrics compares the submissions with. */
  function Accounted(m: Metrics): nat {
    m.low + m.normal + m.high + m.critical + m.completed + m.failed
  }

  // ---- The single atomic steps -------------------------------------------------------------------------------

  function Empty(): Shared {
    Shared({}, false, 0, Metrics(0, 0, 0, 0, 0, 0, 0, 0))
  }

  function AfterReserve(s: Shared): Shared {
    s.(sequence := s.sequence + 1)
  }

  function AfterPush(s: Shared, t: PriorityTask): Shared {
    s.(queue := s.queue + {t})
  }

  function AfterCount(s: Shared): Shared {
    s.(metrics := s.metrics.(submitted := s.metrics.submitted + 1))
  }

  function AfterEnter(s: Shared, p: Priority): Shared {
    s.(metrics := OneMoreQueued(s.metrics, p))
  }

  function AfterPop(s: Shared, t: PriorityTask): Shared {
    s.(queue := s.queue - {t})
  }

  function AfterLeave(s: Shared, p: Priority): Shared {
    s.(metrics := OneLessQueued(s.metrics, p))
  }

  function AfterBegin(s: Shared): Shared {
    s.(metrics := s.metrics.(active := s.metrics.active + 1))
  }

  function AfterEnd(s: Shared): Shared {
    s.(metrics := s.metrics.(active := FetchSub(s.metrics.active)))
  }

  function AfterSettle(s: Shared, ok: bool): Shared {
    s.(metrics := OneMoreFinished(s.metrics, ok))
  }

  datatype Taken = MustWait | Exit | Got(task: PriorityTask)

  class ComputeThreadPool {
    var queue: set<PriorityTask>
    var shutdown: bool
    var sequence: nat
    var tasksSubmitted: nat
    var tasksCompleted: nat
    var tasksFailed: nat
    var activeWorkers: nat
    var depthLow: nat
    var depthNormal: nat
    var depthHigh: nat
    var depthCritical: nat

    function Now(): Shared
      reads this
    {
      Shared(queue, shutdown, sequence,
             Metrics(tasksSubmitted, tasksCompleted, tasksFailed, activeWorkers,
                     depthLow, depthNormal, depthHigh, depthCritical))
    }

    constructor ()
      ensures Now() == Empty()
    {
      queue, shutdown, sequence := {}, false, 0;
      tasksSubmitted, tasksCompleted, tasksFailed, activeWorkers := 0, 0, 0, 0;
      depthLow, depthNormal, depthHigh, depthCritical := 0, 0, 0, 0;
    }

    /** The start of spawn: a sequence number, taken without the lock. */
    method Reserve(work: nat, priority: Priority) returns (t: PriorityTask)
      modifies this
      ensures t == PriorityTask(work, priority, old(sequence)) && Now() == AfterReserve(old(Now()))
    {
      t := PriorityTask(work, priority, sequence);
      sequence := sequence + 1;
    }

    /** The section of spawn under the lock. */
    method Submit(t: PriorityTask)
      modifies this
      ensures Now() == AfterEnter(AfterCount(AfterPush(old(Now()), t)), t.priority)
      ensures queue == old(queue) + {t} && tasksSubmitted == old(tasksSubmitted) + 1
      ensures depthLow == old(depthLow) + (if t.priority.Low? then 1 else 0)
      ensures depthNormal == old(depthNormal) + (if t.priority.Normal? then 1 else 0)
      ensures depthHigh == old(depthHigh) + (if t.priority.High? then 1 else 0)
      ensures depthCritical == old(depthCritical) + (if t.priority.Critical? then 1 else 0)
    {
      queue := queue + {t};
      tasksSubmitted := tasksSubmitted + 1;
      match t.priority {
        case Low => depthLow := depthLow + 1;
        case Normal => depthNormal := depthNormal + 1;
        case High => depthHigh := depthHigh + 1;
        case Critical => depthCritical := depthCritical + 1;
      }
    }

    /** One pass of a worker through the section under the lock: wait, leave, or pop. A pop never comes back empty. */
    method Take() returns (r: Taken)
      modifies this
      ensures match r
              case MustWait => old(queue) == {} && !old(shutdown) && Now() == old(Now())
              case Exit => old(queue) == {} && old(shutdown) && Now() == old(Now())
              case Got(t) => FirstInLine(old(queue), t) && Now() == AfterLeave(AfterPop(old(Now()), t), t.priority)
      ensures r.Got? ==>
                var t := r.task;
                && t in old(queue) && queue == old(queue) - {t}
                && (forall u :: u in old(queue) && u.priority.Critical? ==> t.priority.Critical?)
                && (forall u :: u in old(queue) && u.priority.High? ==> t.priority.High? || t.priority.Critical?)
                && (forall u :: u in old(queue) && u.priority.Normal? ==> !t.priority.Low?)
                && (forall u :: u in old(queue) && u.priority == t.priority ==> t.sequence <= u.sequence)
    {
      if queue == {} && !shutdown {
        return MustWait;
      }
      if shutdown && queue == {} {
        return Exit;
      }
      TopExists(queue);
      var t :| t in queue && forall u <- queue :: Cmp(t, u) != Less;
      TopIsFirstInLine(queue, t);
      queue := queue - {t};
      match t.priority {
        case Low => depthLow := FetchSub(depthLow);
        case Normal => depthNormal := FetchSub(depthNormal);
        case High => depthHigh := FetchSub(depthHigh);
        case Critical => depthCritical := FetchSub(depthCritical);
      }
      return Got(t);
    }

    /** Around the task itself: `ok` says that it did not panic. */
    method Begin()
      modifies this
      ensures Now() == AfterBegin(old(Now())) && activeWorkers == old(activeWorkers) + 1
    {
      activeWorkers := activeWorkers + 1;
    }

    method Settle(ok: bool)
      modifies this
      ensures Now() == AfterSettle(AfterEnd(old(Now())), ok)
      ensures old(activeWorkers) > 0 ==> activeWorkers == old(activeWorkers) - 1
      ensures tasksCompleted == old(tasksCompleted) + (if ok then 1 else 0)
      ensures tasksFailed == old(tasksFailed) + (if ok then 0 else 1)
    {
      activeWorkers := FetchSub(activeWorkers);
      if ok {
        tasksCompleted := tasksCompleted + 1;
      } else {
        tasksFailed := tasksFailed + 1;
      }
    }

    /** The start of Drop. */
    method Shutdown()
      modifies this
      ensures Now() == old(Now()).(shutdown := true)
    {
      shutdown := true;
    }
  }
}
