/**
 Every interleaving of the compute pool's threads, one atomic step at a time: the calling threads inside `spawn`, the
 workers of mill-io/src/thread_pool.rs:253-306, the mutex, the condition variable and `Drop`.
 */
module PoolRuns {
  import opened Wrappers
  import opened ComputePool

  /** Where a thread is inside `spawn`. */
  datatype ThreadPc =
    | Quiet
    | Reserved(task: PriorityTask)
    | Locked(task: PriorityTask)
    | Pushed(task: PriorityTask)
    | Counted(task: PriorityTask)
    | Entered
    | Notifying

  datatype WorkerPc =
    | Idle
    | Testing
    | AboutToWait
    | Waiting
    | Woken
    | Past
    | Popping
    | Popped(task: PriorityTask)
    | Left(task: PriorityTask)
    | Holding(task: PriorityTask)
    | Running(task: PriorityTask)
    | Ran(task: PriorityTask, ok: bool)
    | Settling(task: PriorityTask, ok: bool)
    | Exited

  datatype Holder = ByThread(p: nat) | ByWorker(w: nat)

  datatype DropPc = Alive | Stored | Joining | Returned

  /** Where a submitted task is: with the thread that spawns it, in the queue, in a worker's hands, or settled. */
  datatype Place = AtThread(p: nat) | Queued | Held(w: nat) | Done

  datatype Record = Record(task: PriorityTask, owner: nat, place: Place)

  /**
   `records`, by sequence number, `popOrder` and `runs` only record the past: who spawned each task and where it is,
   the position of its pop among all pops, how often its closure was called.
   */
  datatype State = State(
    shared: Shared, lock: Option<Holder>, threads: map<nat, ThreadPc>, workers: map<nat, WorkerPc>, drop: DropPc,
    records: map<nat, Record>, popOrder: map<nat, nat>, runs: map<nat, nat>)

  datatype ThreadOp =
    | Reserve(work: nat, priority: Priority)
    | SpawnLock
    | Push
    | CountTask
    | Enter
    | SpawnUnlock
    | NotifyOne(woken: Option<nat>)

  datatype WorkerOp =
    | WorkerLock
    | Test
    | Wait
    | WakeUp
    | Recheck
    | Pop(task: PriorityTask)
    | Leave
    | WorkerUnlock
    | Begin
    | Execute(ok: bool)
    | End
    | Settle

  datatype DropOp = StoreShutdown | NotifyAll | Join

  datatype Step = OfThread(p: nat, threadOp: ThreadOp) | OfWorker(w: nat, workerOp: WorkerOp) | OfDrop(dropOp: DropOp)

  ghost predicate Init(s: State) {
    && s.shared == Empty() && s.lock == None && s.threads == map[] && s.drop == Alive
    && s.records == map[] && s.popOrder == map[] && s.runs == map[]
    && s.workers != map[] && forall w :: w in s.workers ==> s.workers[w] == Idle
  }

  predicate AnyWaiting(workers: map<nat, WorkerPc>) {
    exists w :: w in workers && workers[w].Waiting?
  }

  function WakeAll(workers: map<nat, WorkerPc>): map<nat, WorkerPc> {
    map w | w in workers :: if workers[w].Waiting? then Woken else workers[w]
  }

  function PcOf(threads: map<nat, ThreadPc>, p: nat): ThreadPc {
    if p in threads then threads[p] else Quiet
  }

  function Moved(records: map<nat, Record>, n: nat, place: Place): map<nat, Record> {
    if n in records then records[n := records[n].(place := place)] else records
  }

  function Bumped(runs: map<nat, nat>, n: nat): map<nat, nat> {
    runs[n := if n in runs then runs[n] + 1 else 1]
  }

  function SetThread(s: State, p: nat, pc: ThreadPc): State {
    s.(threads := s.threads[p := pc])
  }

  function SetWorker(s: State, w: nat, pc: WorkerPc): State {
    s.(workers := s.workers[w := pc])
  }

  ghost predicate ThreadStep(s: State, p: nat, op: ThreadOp, s': State) {
    var pc := PcOf(s.threads, p);
    match op
    case Reserve(work, priority) =>
      && pc.Quiet? && s.drop.Alive?
      && var t := PriorityTask(work, priority, s.shared.sequence);
         s' == SetThread(s, p, Reserved(t)).(shared := AfterReserve(s.shared),
                                             records := s.records[t.sequence := Record(t, p, AtThread(p))])
    case SpawnLock =>
      pc.Reserved? && s.lock.None? && s' == SetThread(s, p, Locked(pc.task)).(lock := Some(ByThread(p)))
    case Push =>
      pc.Locked? && s' == SetThread(s, p, Pushed(pc.task)).(shared := AfterPush(s.shared, pc.task),
                                                            records := Moved(s.records, pc.task.sequence, Queued))
    case CountTask =>
      pc.Pushed? && s' == SetThread(s, p, Counted(pc.task)).(shared := AfterCount(s.shared))
    case Enter =>
      pc.Counted? && s' == SetThread(s, p, Entered).(shared := AfterEnter(s.shared, pc.task.priority))
    case SpawnUnlock =>
      pc.Entered? && s' == SetThread(s, p, Notifying).(lock := None)
    case NotifyOne(woken) =>
      && pc.Notifying?
      && (match woken
          case Some(w) => w in s.workers && s.workers[w].Waiting? && s' == SetWorker(SetThread(s, p, Quiet), w, Woken)
          case None => !AnyWaiting(s.workers) && s' == SetThread(s, p, Quiet))
  }

  ghost predicate WorkerStep(s: State, w: nat, op: WorkerOp, s': State)
    requires w in s.workers
  {
    var pc := s.workers[w];
    match op
    case WorkerLock =>
      (pc.Idle? || pc.Woken?) && s.lock.None? && s' == SetWorker(s, w, Testing).(lock := Some(ByWorker(w)))
    case Test =>
      && pc.Testing?
      && s' == SetWorker(s, w, if s.shared.queue == {} && !s.shared.shutdown then AboutToWait else Past)
    case Wait =>
      pc.AboutToWait? && s' == SetWorker(s, w, Waiting).(lock := None)
    case WakeUp =>
      pc.Waiting? && s' == SetWorker(s, w, Woken)
    case Recheck =>
      && pc.Past?
      && s' == (if s.shared.shutdown && s.shared.queue == {} then SetWorker(s, w, Exited).(lock := None)
                else SetWorker(s, w, Popping))
    case Pop(t) =>
      && pc.Popping? && IsTop(s.shared.queue, t)
      && s' == SetWorker(s, w, Popped(t)).(shared := AfterPop(s.shared, t),
                                           records := Moved(s.records, t.sequence, Held(w)),
                                           popOrder := s.popOrder[t.sequence := |s.popOrder|])
    case Leave =>
      pc.Popped? && s' == SetWorker(s, w, Left(pc.task)).(shared := AfterLeave(s.shared, pc.task.priority))
    case WorkerUnlock =>
      pc.Left? && s' == SetWorker(s, w, Holding(pc.task)).(lock := None)
    case Begin =>
      pc.Holding? && s' == SetWorker(s, w, Running(pc.task)).(shared := AfterBegin(s.shared))
    case Execute(ok) =>
      pc.Running? && s' == SetWorker(s, w, Ran(pc.task, ok)).(runs := Bumped(s.runs, pc.task.sequence))
    case End =>
      pc.Ran? && s' == SetWorker(s, w, Settling(pc.task, pc.ok)).(shared := AfterEnd(s.shared))
    case Settle =>
      && pc.Settling?
      && s' == SetWorker(s, w, Idle).(shared := AfterSettle(s.shared, pc.ok),
                                      records := Moved(s.records, pc.task.sequence, Done))
  }

  /** Drop needs the pool for itself: no thread is inside spawn, and none enters it afterwards. */
  ghost predicate DropStep(s: State, op: DropOp, s': State) {
    match op
    case StoreShutdown =>
      && s.drop.Alive? && (forall p :: p in s.threads ==> s.threads[p].Quiet?)
      && s' == s.(drop := Stored, shared := s.shared.(shutdown := true))
    case NotifyAll => s.drop.Stored? && s' == s.(drop := Joining, workers := WakeAll(s.workers))
    case Join => s.drop.Joining? && (forall w :: w in s.workers ==> s.workers[w].Exited?) && s' == s.(drop := Returned)
  }

  ghost predicate Do(s: State, step: Step, s': State) {
    match step
    case OfThread(p, op) => ThreadStep(s, p, op, s')
    case OfWorker(w, op) => w in s.workers && WorkerStep(s, w, op, s')
    case OfDrop(op) => DropStep(s, op, s')
  }

  ghost predicate Next(s: State, s': State) {
    exists step :: Do(s, step, s')
  }

  ghost predicate StepAt(run: seq<State>, i: nat) {
    0 < i < |run| && Next(run[i - 1], run[i])
  }

  ghost predicate Run(run: seq<State>) {
    && |run| > 0 && Init(run[0])
    && forall i :: 0 < i < |run| ==> StepAt(run, i)
  }

  /** The other workers and the spawning threads are not touched by what a worker does. */
  lemma OnlyOneWorkerMoves(s: State, w: nat, op: WorkerOp, s': State)
    requires w in s.workers && WorkerStep(s, w, op, s')
    ensures w in s'.workers && s'.workers == s.workers[w := s'.workers[w]]
    ensures s'.threads == s.threads && s'.drop == s.drop && s'.shared.shutdown == s.shared.shutdown
    ensures !op.Pop? ==> s'.shared.queue == s.shared.queue
    ensures s'.shared.sequence == s.shared.sequence
  {
    hide OneLessQueued, OneMoreFinished, FetchSub, IsTop, Moved, Bumped;
  }

  /** A spawning thread touches no other, and of the workers at most wakes a waiting one. */
  lemma OnlyOneThreadMoves(s: State, p: nat, op: ThreadOp, s': State)
    requires ThreadStep(s, p, op, s')
    ensures p in s'.threads && s'.threads == s.threads[p := s'.threads[p]]
    ensures s'.workers.Keys == s.workers.Keys
    ensures forall w :: w in s.workers ==>
              s'.workers[w] == s.workers[w] || (s.workers[w].Waiting? && s'.workers[w].Woken?)
  {
    hide OneMoreQueued, Moved;
  }

  // ---- Mutual exclusion --------------------------------------------------------------------------------------

  predicate ThreadInside(pc: ThreadPc) {
    pc.Locked? || pc.Pushed? || pc.Counted? || pc.Entered?
  }

  predicate WorkerInside(pc: WorkerPc) {
    pc.Testing? || pc.AboutToWait? || pc.Past? || pc.Popping? || pc.Popped? || pc.Left?
  }

  ghost predicate LockOk(s: State) {
    && (forall p :: p in s.threads && ThreadInside(s.threads[p]) ==> s.lock == Some(ByThread(p)))
    && (forall w :: w in s.workers && WorkerInside(s.workers[w]) ==> s.lock == Some(ByWorker(w)))
    && (s.lock.Some? && s.lock.value.ByThread? ==> ThreadInside(PcOf(s.threads, s.lock.value.p)))
    && (s.lock.Some? && s.lock.value.ByWorker? ==>
          s.lock.value.w in s.workers && WorkerInside(s.workers[s.lock.value.w]))
  }

  /** The thread takes the free lock, keeps it while inside, gives it up on leaving, and otherwise leaves it alone. */
  ghost predicate LockFollows(s: State, p: nat, s': State) {
    && p in s'.threads && s'.threads == s.threads[p := s'.threads[p]] && s'.workers.Keys == s.workers.Keys
    && if ThreadInside(s'.threads[p]) then s'.lock == Some(ByThread(p)) && (s.lock == s'.lock || s.lock.None?)
       else if ThreadInside(PcOf(s.threads, p)) then s'.lock.None? else s'.lock == s.lock
  }

  lemma ThreadLockFollows(s: State, p: nat, op: ThreadOp, s': State)
    requires LockOk(s) && ThreadStep(s, p, op, s')
    ensures LockFollows(s, p, s')
  {
    OnlyOneThreadMoves(s, p, op, s');
    hide OneMoreQueued, Moved, AnyWaiting;
  }

  lemma ThreadKeepsLock(s: State, p: nat, op: ThreadOp, s': State)
    requires LockOk(s) && ThreadStep(s, p, op, s')
    ensures LockOk(s')
  {
    hide LockOk, LockFollows;
    OnlyOneThreadMoves(s, p, op, s');
    ThreadLockFollows(s, p, op, s');
    hide ThreadStep;
    LockOkFollows(s, p, s');
  }

  lemma LockOkFollows(s: State, p: nat, s': State)
    requires LockOk(s) && LockFollows(s, p, s')
    requires forall w :: w in s.workers ==>
               s'.workers[w] == s.workers[w] || (s.workers[w].Waiting? && s'.workers[w].Woken?)
    ensures LockOk(s')
  {}

  ghost predicate WorkerLockFollows(s: State, w: nat, s': State) {
    && w in s.workers && w in s'.workers && s'.workers == s.workers[w := s'.workers[w]] && s'.threads == s.threads
    && if WorkerInside(s'.workers[w]) then s'.lock == Some(ByWorker(w)) && (s.lock == s'.lock || s.lock.None?)
       else if WorkerInside(s.workers[w]) then s'.lock.None? else s'.lock == s.lock
  }

  lemma WorkerFollows(s: State, w: nat, op: WorkerOp, s': State)
    requires LockOk(s) && w in s.workers && WorkerStep(s, w, op, s')
    ensures WorkerLockFollows(s, w, s')
  {
    OnlyOneWorkerMoves(s, w, op, s');
    hide OneLessQueued, OneMoreFinished, FetchSub, Moved, Bumped, IsTop;
  }

  lemma WorkerKeepsLock(s: State, w: nat, op: WorkerOp, s': State)
    requires LockOk(s) && w in s.workers && WorkerStep(s, w, op, s')
    ensures LockOk(s')
  {
    WorkerFollows(s, w, op, s');
    hide WorkerStep;
  }

  lemma DropKeepsLock(s: State, op: DropOp, s': State)
    requires LockOk(s) && DropStep(s, op, s')
    ensures LockOk(s')
  {}

  // ---- Shutdown ----------------------------------------------------------------------------------------------

  ghost predicate DropOk(s: State) {
    && (s.shared.shutdown <==> !s.drop.Alive?)
    && (s.shared.shutdown ==> forall p :: p in s.threads ==> s.threads[p].Quiet?)
    && (forall w :: w in s.workers && s.workers[w].Exited? ==> s.shared.shutdown && s.shared.queue == {})
    && (s.drop.Returned? ==> forall w :: w in s.workers ==> s.workers[w].Exited?)
  }

  lemma ThreadKeepsDrop(s: State, p: nat, op: ThreadOp, s': State)
    requires DropOk(s) && ThreadStep(s, p, op, s')
    ensures DropOk(s')
  {
    hide OneMoreQueued, OneLessQueued, OneMoreFinished, FetchSub, Moved;
  }

  lemma WorkerKeepsDrop(s: State, w: nat, op: WorkerOp, s': State)
    requires DropOk(s) && w in s.workers && WorkerStep(s, w, op, s')
    ensures DropOk(s')
  {
    hide OneMoreQueued, OneLessQueued, OneMoreFinished, FetchSub, Moved, Bumped, IsTop;
  }

  lemma DropKeepsDrop(s: State, op: DropOp, s': State)
    requires DropOk(s) && DropStep(s, op, s')
    ensures DropOk(s')
  {}

  // ---- What a worker knows of the queue ----------------------------------------------------------------------

  ghost predicate QueueKnown(s: State, pc: WorkerPc) {
    && (pc.AboutToWait? ==> s.shared.queue == {})
    && (pc.Past? ==> s.shared.queue != {} || s.shared.shutdown)
    && (pc.Popping? ==> s.shared.queue != {})
  }

  ghost predicate QueueOk(s: State) {
    forall w :: w in s.workers ==> QueueKnown(s, s.workers[w])
  }

  lemma ThreadKeepsQueue(s: State, p: nat, op: ThreadOp, s': State)
    requires LockOk(s) && QueueOk(s) && ThreadStep(s, p, op, s')
    ensures QueueOk(s')
  {
    hide OneMoreQueued, OneLessQueued, OneMoreFinished, FetchSub, Moved;
  }

  lemma WorkerKnows(s: State, w: nat, op: WorkerOp, s': State)
    requires w in s.workers && QueueKnown(s, s.workers[w]) && WorkerStep(s, w, op, s')
    ensures w in s'.workers && QueueKnown(s', s'.workers[w])
    ensures op.Pop? ==> s.workers[w].Popping?
  {
    hide OneLessQueued, OneMoreFinished, FetchSub, Moved, Bumped, IsTop;
  }

  lemma WorkerKeepsQueue(s: State, w: nat, op: WorkerOp, s': State)
    requires LockOk(s) && QueueOk(s) && w in s.workers && WorkerStep(s, w, op, s')
    ensures QueueOk(s')
  {
    hide LockOk, QueueKnown;
    OnlyOneWorkerMoves(s, w, op, s');
    WorkerKnows(s, w, op, s');
    hide WorkerStep;
    forall v | v in s'.workers ensures QueueKnown(s', s'.workers[v]) {
      if v != w {
        OthersKnow(s, w, v, op.Pop?, s');
      }
    }
  }

  /** Only a pop changes the queue, and then nobody else is inside to know anything of it. */
  lemma OthersKnow(s: State, w: nat, v: nat, pops: bool, s': State)
    requires LockOk(s) && w in s.workers && v in s.workers && v != w && QueueKnown(s, s.workers[v])
    requires s'.shared.shutdown == s.shared.shutdown
    requires if pops then s.workers[w].Popping? else s'.shared.queue == s.shared.queue
    ensures QueueKnown(s', s.workers[v])
  {}

  lemma DropKeepsQueue(s: State, op: DropOp, s': State)
    requires QueueOk(s) && DropStep(s, op, s')
    ensures QueueOk(s')
  {}

  // ---- Where each task is ------------------------------------------------------------------------------------

  /** The thread has its task and has not pushed it. */
  predicate Carries(pc: ThreadPc) {
    pc.Reserved? || pc.Locked?
  }

  predicate Holds(pc: WorkerPc) {
    pc.Popped? || pc.Left? || pc.Holding? || pc.Running? || pc.Ran? || pc.Settling?
  }

  ghost predicate KnownAt(s: State, t: PriorityTask, place: Place) {
    t.sequence in s.records && s.records[t.sequence].task == t && s.records[t.sequence].place == place
  }

  /** A record's place is true, and its owner's later tasks were reserved after it was pushed. */
  ghost predicate PlaceTrue(s: State, r: Record) {
    match r.place
    case AtThread(p) => r.owner == p && Carries(PcOf(s.threads, p)) && PcOf(s.threads, p).task == r.task
    case Queued => r.task in s.shared.queue
    case Held(w) => w in s.workers && Holds(s.workers[w]) && s.workers[w].task == r.task
    case Done => true
  }

  ghost predicate RecordsOk(s: State) {
    && (forall n: nat :: n in s.records <==> n < s.shared.sequence)
    && (forall n :: n in s.records ==> s.records[n].task.sequence == n && PlaceTrue(s, s.records[n]))
    && (forall n, m :: n in s.records && m in s.records && n < m && s.records[n].owner == s.records[m].owner ==>
          !s.records[n].place.AtThread?)
  }

  ghost predicate PlacesOk(s: State) {
    && (forall p :: p in s.threads && Carries(s.threads[p]) ==> KnownAt(s, s.threads[p].task, AtThread(p)))
    && (forall t :: t in s.shared.queue ==> KnownAt(s, t, Queued))
    && (forall w :: w in s.workers && Holds(s.workers[w]) ==> KnownAt(s, s.workers[w].task, Held(w)))
  }

  /** Nothing moves: no task changes hands and none is reserved. */
  ghost predicate NothingMoves(s: State, s': State) {
    && s'.records == s.records && s'.shared.queue == s.shared.queue && s'.shared.sequence == s.shared.sequence
    && s'.workers.Keys == s.workers.Keys
    && (forall p :: SameLoad(PcOf(s.threads, p), PcOf(s'.threads, p)))
    && (forall w :: w in s.workers ==> SameHands(s.workers[w], s'.workers[w]))
  }

  predicate SameLoad(a: ThreadPc, b: ThreadPc) {
    Carries(a) == Carries(b) && (Carries(a) ==> a.task == b.task)
  }

  predicate SameHands(a: WorkerPc, b: WorkerPc) {
    Holds(a) == Holds(b) && (Holds(a) ==> a.task == b.task)
  }

  lemma ThreadMovesNothing(s: State, p: nat, op: ThreadOp, s': State)
    requires ThreadStep(s, p, op, s') && !op.Reserve? && !op.Push?
    ensures NothingMoves(s, s')
  {
    hide OneMoreQueued;
  }

  lemma WorkerMovesNothing(s: State, w: nat, op: WorkerOp, s': State)
    requires w in s.workers && WorkerStep(s, w, op, s') && !op.Pop? && !op.Settle?
    ensures NothingMoves(s, s')
  {
    hide OneLessQueued;
    OnlyOneWorkerMoves(s, w, op, s');
    assert SameHands(s.workers[w], s'.workers[w]) && s'.records == s.records;
    hide WorkerStep, SameHands;
    forall v | v in s.workers && v != w ensures SameHands(s.workers[v], s'.workers[v]) {
      SameAsItself(s.workers[v]);
    }
  }

  lemma SameAsItself(pc: WorkerPc)
    ensures SameHands(pc, pc)
  {}

  lemma RecordsStay(s: State, s': State)
    requires RecordsOk(s) && NothingMoves(s, s')
    ensures RecordsOk(s')
  {
    forall n | n in s'.records ensures s'.records[n].task.sequence == n && PlaceTrue(s', s'.records[n]) {
      assert PlaceTrue(s, s.records[n]);
    }
  }

  lemma PlacesStay(s: State, s': State)
    requires PlacesOk(s) && NothingMoves(s, s')
    ensures PlacesOk(s')
  {
    forall p | p in s'.threads && Carries(s'.threads[p]) ensures KnownAt(s', s'.threads[p].task, AtThread(p)) {
      assert SameLoad(PcOf(s.threads, p), PcOf(s'.threads, p));
    }
  }

  lemma ReserveKeepsPlaces(s: State, p: nat, op: ThreadOp, s': State)
    requires RecordsOk(s) && PlacesOk(s) && ThreadStep(s, p, op, s') && op.Reserve?
    ensures RecordsOk(s') && PlacesOk(s')
  {
    var n := s.shared.sequence;
    assert n !in s.records && s'.records.Keys == s.records.Keys + {n};
    forall m | m in s.records ensures s'.records[m] == s.records[m] && s.records[m].place != AtThread(p) {
      assert PlaceTrue(s, s.records[m]);
    }
  }

  /** A push as the records see it. */
  ghost predicate PushMoves(s: State, p: nat, t: PriorityTask, s': State) {
    && p in s.threads && Carries(s.threads[p]) && s.threads[p].task == t
    && p in s'.threads && !Carries(s'.threads[p]) && s'.threads == s.threads[p := s'.threads[p]]
    && s'.shared.queue == s.shared.queue + {t} && s'.shared.sequence == s.shared.sequence && s'.workers == s.workers
    && s'.records == Moved(s.records, t.sequence, Queued)
  }

  lemma PushIsAMove(s: State, p: nat, s': State)
    requires ThreadStep(s, p, Push, s')
    ensures p in s.threads && Carries(s.threads[p]) && PushMoves(s, p, s.threads[p].task, s')
  {}

  lemma PushKeepsRecords(s: State, p: nat, t: PriorityTask, s': State)
    requires RecordsOk(s) && PlacesOk(s) && PushMoves(s, p, t, s')
    ensures RecordsOk(s')
  {
    assert KnownAt(s, t, AtThread(p));
    forall n | n in s'.records ensures s'.records[n].task.sequence == n && PlaceTrue(s', s'.records[n]) {
      assert PlaceTrue(s, s.records[n]);
    }
  }

  lemma PushKeepsPlaces(s: State, p: nat, t: PriorityTask, s': State)
    requires RecordsOk(s) && PlacesOk(s) && PushMoves(s, p, t, s')
    ensures PlacesOk(s')
  {
    assert KnownAt(s, t, AtThread(p));
    hide PlaceTrue;
  }

  /** A pop as the records see it. */
  ghost predicate PopMoves(s: State, w: nat, t: PriorityTask, s': State) {
    && w in s.workers && !Holds(s.workers[w]) && t in s.shared.queue
    && s'.shared.queue == s.shared.queue - {t} && s'.shared.sequence == s.shared.sequence && s'.threads == s.threads
    && s'.workers == s.workers[w := Popped(t)] && s'.records == Moved(s.records, t.sequence, Held(w))
  }

  lemma PopIsAMove(s: State, w: nat, t: PriorityTask, s': State)
    requires w in s.workers && WorkerStep(s, w, Pop(t), s')
    ensures PopMoves(s, w, t, s')
  {}

  lemma PopKeepsRecords(s: State, w: nat, t: PriorityTask, s': State)
    requires RecordsOk(s) && PlacesOk(s) && PopMoves(s, w, t, s')
    ensures RecordsOk(s')
  {
    assert KnownAt(s, t, Queued);
    forall n | n in s'.records ensures s'.records[n].task.sequence == n && PlaceTrue(s', s'.records[n]) {
      assert PlaceTrue(s, s.records[n]);
    }
  }

  lemma PopKeepsPlaces(s: State, w: nat, t: PriorityTask, s': State)
    requires RecordsOk(s) && PlacesOk(s) && PopMoves(s, w, t, s')
    ensures PlacesOk(s')
  {
    assert KnownAt(s, t, Queued);
    hide PlaceTrue;
  }

  ghost predicate SettleMoves(s: State, w: nat, t: PriorityTask, s': State) {
    && w in s.workers && Holds(s.workers[w]) && t == s.workers[w].task
    && s'.shared.queue == s.shared.queue && s'.shared.sequence == s.shared.sequence && s'.threads == s.threads
    && s'.workers == s.workers[w := Idle] && s'.records == Moved(s.records, t.sequence, Done)
  }

  lemma SettleIsAMove(s: State, w: nat, s': State)
    requires w in s.workers && WorkerStep(s, w, Settle, s')
    ensures Holds(s.workers[w]) && SettleMoves(s, w, s.workers[w].task, s')
  {
    hide OneMoreFinished;
  }

  lemma SettleKeepsRecords(s: State, w: nat, t: PriorityTask, s': State)
    requires RecordsOk(s) && PlacesOk(s) && SettleMoves(s, w, t, s')
    ensures RecordsOk(s')
  {
    assert KnownAt(s, t, Held(w));
    forall n | n in s'.records ensures s'.records[n].task.sequence == n && PlaceTrue(s', s'.records[n]) {
      assert PlaceTrue(s, s.records[n]);
    }
  }

  lemma SettleKeepsPlaces(s: State, w: nat, t: PriorityTask, s': State)
    requires RecordsOk(s) && PlacesOk(s) && SettleMoves(s, w, t, s')
    ensures PlacesOk(s')
  {
    assert KnownAt(s, t, Held(w));
    hide PlaceTrue;
  }

  lemma ThreadKeepsPlaces(s: State, p: nat, op: ThreadOp, s': State)
    requires RecordsOk(s) && PlacesOk(s) && ThreadStep(s, p, op, s')
    ensures RecordsOk(s') && PlacesOk(s')
  {
    hide RecordsOk, PlacesOk, ThreadStep, NothingMoves;
    match op
    case Reserve(_, _) => ReserveKeepsPlaces(s, p, op, s');
    case Push =>
      PushIsAMove(s, p, s');
      PushKeepsRecords(s, p, s.threads[p].task, s');
      PushKeepsPlaces(s, p, s.threads[p].task, s');
    case _ =>
      ThreadMovesNothing(s, p, op, s');
      RecordsStay(s, s');
      PlacesStay(s, s');
  }

  lemma WorkerKeepsPlaces(s: State, w: nat, op: WorkerOp, s': State)
    requires RecordsOk(s) && PlacesOk(s) && w in s.workers && WorkerStep(s, w, op, s')
    ensures RecordsOk(s') && PlacesOk(s')
  {
    hide RecordsOk, PlacesOk, WorkerStep, NothingMoves;
    match op
    case Pop(t) =>
      PopIsAMove(s, w, t, s');
      PopKeepsRecords(s, w, t, s');
      PopKeepsPlaces(s, w, t, s');
    case Settle =>
      SettleIsAMove(s, w, s');
      SettleKeepsRecords(s, w, s.workers[w].task, s');
      SettleKeepsPlaces(s, w, s.workers[w].task, s');
    case _ =>
      WorkerMovesNothing(s, w, op, s');
      RecordsStay(s, s');
      PlacesStay(s, s');
  }

  lemma DropKeepsPlaces(s: State, op: DropOp, s': State)
    requires RecordsOk(s) && PlacesOk(s) && DropStep(s, op, s')
    ensures RecordsOk(s') && PlacesOk(s')
  {
    assert NothingMoves(s, s');
    hide DropStep, NothingMoves;
    RecordsStay(s, s');
    PlacesStay(s, s');
  }
}
