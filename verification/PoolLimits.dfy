/** Two things one might expect of the compute pool and does not get: when each fails, and a run on which it does. */
module PoolLimits {
  import opened Wrappers
  import opened ComputePool
  import opened PoolRuns
  import opened PoolCounts
  import opened PoolTheorems

  // ---- Drop can wait for ever --------------------------------------------------------------------------------

  predicate NobodyWaits(s: State) {
    forall w :: w in s.workers ==> !s.workers[w].Waiting? && !s.workers[w].AboutToWait?
  }

  /** Steps from `s` on. */
  ghost predicate From(s: State, path: seq<State>) {
    |path| > 0 && path[0] == s && forall i :: 0 < i < |path| ==> StepAt(path, i)
  }

  lemma WorkerDoesNotStartToWait(s: State, w: nat, op: WorkerOp, s': State)
    requires s.shared.shutdown && NobodyWaits(s) && w in s.workers && WorkerStep(s, w, op, s')
    ensures s'.shared.shutdown && NobodyWaits(s')
  {
    hide OneLessQueued, OneMoreFinished, FetchSub, IsTop, Moved, Bumped;
    OnlyOneWorkerMoves(s, w, op, s');
    assert !s.workers[w].Waiting? && !s.workers[w].AboutToWait?;
    assert !s'.workers[w].Waiting? && !s'.workers[w].AboutToWait?;
    hide WorkerStep;
  }

  /** Once the flag is set, a worker that looks at the queue never starts to wait. */
  lemma NobodyStartsToWait(s: State, step: Step, s': State)
    requires s.shared.shutdown && NobodyWaits(s) && Do(s, step, s')
    ensures s'.shared.shutdown && NobodyWaits(s')
  {
    match step
    case OfWorker(w, op) =>
      hide WorkerStep, NobodyWaits;
      WorkerDoesNotStartToWait(s, w, op, s');
    case OfThread(p, op) =>
      OnlyOneThreadMoves(s, p, op, s');
      assert s'.shared.shutdown by { hide OneMoreQueued, Moved, NobodyWaits; }
      hide ThreadStep;
    case OfDrop(_) =>
  }

  lemma {:induction false} NobodyEverWaits(s: State, path: seq<State>, i: nat)
    requires s.shared.shutdown && NobodyWaits(s) && From(s, path) && i < |path|
    ensures path[i].shared.shutdown && NobodyWaits(path[i])
  {
    hide Do, NobodyWaits;
    if i > 0 {
      var p := i - 1;
      NobodyEverWaits(s, path, p);
      assert StepAt(path, i);
      var step :| Do(path[p], step, path[i]);
      NobodyStartsToWait(path[p], step, path[i]);
    }
  }

  /** The path on which that worker goes to wait after the notification it needed. */
  lemma LateWaiter(s: State, s': State, w: nat) returns (path: seq<State>)
    requires Do(s, OfDrop(NotifyAll), s') && w in s.workers && s.workers[w].AboutToWait?
    ensures From(s', path) && AnyWaiting(path[|path| - 1].workers)
  {
    var late := SetWorker(s', w, Waiting).(lock := None);
    assert Do(s', OfWorker(w, Wait), late);
    path := [s', late];
    assert StepAt(path, 1);
    assert late.workers[w].Waiting?;
  }

  /**
   Drop sets the flag and notifies without the lock. A worker can be left waiting after that exactly when one is
   between its look at the queue and its wait at the moment of the notification.
   */
  lemma WorkerLeftWaitingIff(s: State, s': State)
    requires Reachable(s) && Do(s, OfDrop(NotifyAll), s')
    ensures (exists path: seq<State> :: From(s', path) && AnyWaiting(path[|path| - 1].workers)) <==>
            (exists w :: w in s.workers && s.workers[w].AboutToWait?)
  {
    if w :| w in s.workers && s.workers[w].AboutToWait? {
      var path := LateWaiter(s, s', w);
    } else {
      ReachableHasInv(s);
      assert DropOk(s);
      assert s'.shared.shutdown && NobodyWaits(s');
      hide Inv, Do;
      forall path: seq<State> | From(s', path) ensures !AnyWaiting(path[|path| - 1].workers) {
        var last := |path| - 1;
        NobodyEverWaits(s', path, last);
      }
    }
  }

  /** No step of the path is a wake-up of `w`. */
  ghost predicate WithoutWakeUp(path: seq<State>, w: nat) {
    forall i :: 0 < i < |path| ==> OtherStepAt(path, i, w)
  }

  ghost predicate OtherStepAt(path: seq<State>, i: nat, w: nat) {
    0 < i < |path| && OtherStep(path[i - 1], path[i], w)
  }

  ghost predicate OtherStep(s: State, s': State, w: nat) {
    exists step :: Do(s, step, s') && step != OfWorker(w, WakeUp)
  }

  /**
   On every path from there on, however long, the worker waits and Drop has not returned, unless a spurious wake-up
   moves the worker.
   */
  lemma {:induction false} LeftWaitingForGood(s: State, path: seq<State>, w: nat, i: nat)
    requires Reachable(s) && s.drop.Joining? && w in s.workers && s.workers[w].Waiting?
    requires |path| > 0 && path[0] == s && WithoutWakeUp(path, w) && i < |path|
    ensures Reachable(path[i]) && path[i].drop.Joining? && w in path[i].workers && path[i].workers[w].Waiting?
  {
    hide Do, Reachable;
    if i > 0 {
      var p := i - 1;
      LeftWaitingForGood(s, path, w, p);
      assert OtherStepAt(path, i, w);
      var step :| Do(path[p], step, path[i]) && step != OfWorker(w, WakeUp);
      StaysWaiting(path[p], step, path[i], w);
      ReachNext(path[p], step, path[i]);
    }
  }

  /** Nothing but a spurious wake-up moves that worker, and Drop does not return while it waits. */
  lemma StaysWaiting(s: State, step: Step, s': State, w: nat)
    requires Reachable(s) && s.drop.Joining? && w in s.workers && s.workers[w].Waiting?
    requires Do(s, step, s') && step != OfWorker(w, WakeUp)
    ensures s'.drop.Joining? && w in s'.workers && s'.workers[w].Waiting?
  {
    ReachableHasInv(s);
    assert DropOk(s);
    hide Inv, Reachable;
    match step
    case OfWorker(v, op) =>
      OnlyOneWorkerMoves(s, v, op, s');
      WaitingOnlyWakes(s, v, op, s');
      hide WorkerStep, DropOk;
    case OfThread(p, op) =>
      QuietThreadsDoNothing(s, p, op, s');
    case OfDrop(_) =>
  }

  lemma WaitingOnlyWakes(s: State, w: nat, op: WorkerOp, s': State)
    requires w in s.workers && WorkerStep(s, w, op, s')
    ensures s.workers[w].Waiting? ==> op == WakeUp
  {
    hide OneLessQueued, OneMoreFinished, FetchSub, IsTop, Moved, Bumped;
  }

  lemma QuietThreadsDoNothing(s: State, p: nat, op: ThreadOp, s': State)
    requires ThreadStep(s, p, op, s')
    ensures PcOf(s.threads, p).Quiet? ==> s.drop.Alive?
  {
    hide OneMoreQueued, Moved, AnyWaiting;
  }

  // ---- Runs that reach these states --------------------------------------------------------------------------

  lemma ReachInit(s: State)
    requires Init(s)
    ensures Reachable(s)
  {
    var run := [s];
    assert Run(run) && run[|run| - 1] == s;
  }

  lemma ReachNext(s: State, step: Step, s': State)
    requires Reachable(s) && Do(s, step, s')
    ensures Reachable(s')
  {
    hide Do, Init;
    var run: seq<State> :| Run(run) && run[|run| - 1] == s;
    var more := run + [s'];
    forall i | 0 < i < |more| ensures StepAt(more, i) {
      if i < |run| {
        assert StepAt(run, i);
      }
    }
    assert Run(more) && more[|more| - 1] == s';
  }

  function Fresh(): State {
    State(Empty(), None, map[], map[0 := Idle], Alive, map[], map[], map[])
  }

  lemma ReachFresh()
    ensures Reachable(Fresh())
  {
    assert 0 in Fresh().workers;
    ReachInit(Fresh());
  }

  /** One worker; it looks, the flag is set, everyone is notified, it waits. */
  lemma DropCanHang()
    ensures exists s :: Reachable(s) && s.drop.Joining? && forall w :: w in s.workers ==> s.workers[w].Waiting?
  {
    var s0 := Fresh();
    ReachFresh();
    var s1 := SetWorker(s0, 0, Testing).(lock := Some(ByWorker(0)));
    ReachNext(s0, OfWorker(0, WorkerLock), s1);
    var s2 := SetWorker(s1, 0, AboutToWait);
    ReachNext(s1, OfWorker(0, Test), s2);
    var s3 := s2.(drop := Stored, shared := s2.shared.(shutdown := true));
    ReachNext(s2, OfDrop(StoreShutdown), s3);
    var s4 := s3.(drop := Joining, workers := WakeAll(s3.workers));
    ReachNext(s3, OfDrop(NotifyAll), s4);
    assert s4.workers == s3.workers;
    var s5 := SetWorker(s4, 0, Waiting).(lock := None);
    ReachNext(s4, OfWorker(0, Wait), s5);
  }

  function ATask(): PriorityTask {
    PriorityTask(0, Low, 0)
  }

  lemma CanPush() returns (s: State)
    ensures Reachable(s) && s.lock == Some(ByThread(0)) && s.workers == map[0 := Idle]
    ensures s.shared.queue == {ATask()} && !s.shared.shutdown && s.threads == map[0 := Pushed(ATask())]
  {
    var t := ATask();
    var s0 := Fresh();
    ReachFresh();
    var s1 := SetThread(s0, 0, Reserved(t)).(shared := AfterReserve(s0.shared),
                                             records := s0.records[0 := Record(t, 0, AtThread(0))]);
    ReachNext(s0, OfThread(0, Reserve(0, Low)), s1);
    var s2 := SetThread(s1, 0, Locked(t)).(lock := Some(ByThread(0)));
    ReachNext(s1, OfThread(0, SpawnLock), s2);
    s := SetThread(s2, 0, Pushed(t)).(shared := AfterPush(s2.shared, t), records := Moved(s2.records, 0, Queued));
    ReachNext(s2, OfThread(0, Push), s);
  }

  /** One thread spawns a task as far as the notification. */
  lemma CanQueue() returns (s: State)
    ensures Reachable(s) && s.lock.None? && s.workers == map[0 := Idle]
    ensures s.shared.queue == {ATask()} && !s.shared.shutdown && s.threads == map[0 := Notifying]
  {
    hide Reachable, OneMoreQueued;
    var t := ATask();
    var s3 := CanPush();
    var s4 := SetThread(s3, 0, Counted(t)).(shared := AfterCount(s3.shared));
    ReachNext(s3, OfThread(0, CountTask), s4);
    var s5 := SetThread(s4, 0, Entered).(shared := AfterEnter(s4.shared, Low));
    ReachNext(s4, OfThread(0, Enter), s5);
    s := SetThread(s5, 0, Notifying).(lock := None);
    ReachNext(s5, OfThread(0, SpawnUnlock), s);
  }

  lemma CanReachThePop() returns (s: State)
    ensures Reachable(s) && s.lock == Some(ByWorker(0)) && s.workers == map[0 := Popping]
    ensures s.shared.queue == {ATask()}
  {
    hide Reachable;
    var s0 := CanQueue();
    var s1 := SetWorker(s0, 0, Testing).(lock := Some(ByWorker(0)));
    ReachNext(s0, OfWorker(0, WorkerLock), s1);
    var s2 := SetWorker(s1, 0, Past);
    ReachNext(s1, OfWorker(0, Test), s2);
    s := SetWorker(s2, 0, Popping);
    ReachNext(s2, OfWorker(0, Recheck), s);
  }

  /** While a worker holds a task, with the lock free, a reader sees more submissions than are accounted for. */
  lemma ReaderCanSeeExcess()
    ensures exists s :: Reachable(s) && s.lock.None? && s.shared.metrics.submitted > Accounted(s.shared.metrics)
  {
    hide Reachable, OneLessQueued, Accounted;
    var t := ATask();
    var s3 := CanReachThePop();
    var s4 := SetWorker(s3, 0, Popped(t)).(shared := AfterPop(s3.shared, t), records := Moved(s3.records, 0, Held(0)),
                                           popOrder := s3.popOrder[0 := |s3.popOrder|]);
    ReachNext(s3, OfWorker(0, Pop(t)), s4);
    var s5 := SetWorker(s4, 0, Left(t)).(shared := AfterLeave(s4.shared, Low));
    ReachNext(s4, OfWorker(0, Leave), s5);
    var s6 := SetWorker(s5, 0, Holding(t)).(lock := None);
    ReachNext(s5, OfWorker(0, WorkerUnlock), s6);
    assert IsWorker(InFlight, s6.workers[0]);
    ReaderSeesNoExcessIff(s6);
  }
}
