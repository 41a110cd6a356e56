/**
 A reader of the compute pool's metrics, which loads one atomic counter at a time while the run goes on
 (mill-io/src/thread_pool.rs:141-177).
 */
module PoolReaders {
  import opened ComputePool
  import opened PoolRuns
  import opened PoolCounts
  import opened PoolTheorems
  import opened PoolLimits

  /** The moment of the run at which each counter is loaded, in whatever order. */
  datatype Loads = Loads(submitted: nat, low: nat, normal: nat, high: nat, critical: nat, completed: nat, failed: nat)

  ghost predicate Reads(run: seq<State>, l: Loads) {
    && Run(run) && l.submitted < |run| && l.low < |run| && l.normal < |run| && l.high < |run| && l.critical < |run|
    && l.completed < |run| && l.failed < |run|
  }

  /** The submissions the reader saw, and what it saw accounted for. */
  ghost function Submitted(run: seq<State>, l: Loads): nat
    requires Reads(run, l)
  {
    run[l.submitted].shared.metrics.submitted
  }

  ghost function AccountedFor(run: seq<State>, l: Loads): nat
    requires Reads(run, l)
  {
    run[l.low].shared.metrics.low + run[l.normal].shared.metrics.normal + run[l.high].shared.metrics.high
    + run[l.critical].shared.metrics.critical + run[l.completed].shared.metrics.completed
    + run[l.failed].shared.metrics.failed
  }

  // ---- What moves the counters -------------------------------------------------------------------------------

  /** A task enters the depth of its priority, leaves it, or is settled as completed or failed. */
  datatype Move = Enters(p: Priority) | Leaves(p: Priority) | Settles(ok: bool)

  /** The step from `s` to `s'` is that move, of some thread or worker. */
  ghost predicate Happens(s: State, s': State, m: Move) {
    match m
    case Enters(p) =>
      exists t :: t in s.threads && t in s'.threads && s.threads[t].Counted? && s'.threads[t].Entered?
                  && s.threads[t].task.priority == p
    case Leaves(p) =>
      exists w :: w in s.workers && w in s'.workers && s.workers[w].Popped? && s'.workers[w].Left?
                  && s.workers[w].task.priority == p
    case Settles(ok) =>
      exists w :: w in s.workers && w in s'.workers && s.workers[w].Settling? && s'.workers[w].Idle?
                  && s.workers[w].ok == ok
  }

  /** How often a move happens between two moments of a run. */
  ghost function Times(run: seq<State>, i: nat, j: nat, m: Move): nat
    requires i <= j < |run|
    decreases j
  {
    if i == j then 0 else Times(run, i, j - 1, m) + One(Happens(run[j - 1], run[j], m))
  }

  function Finished(m: Metrics, ok: bool): nat {
    if ok then m.completed else m.failed
  }

  ghost predicate CountersFollow(s: State, s': State) {
    && (forall p :: Depth(s'.shared.metrics, p)
                    == Depth(s.shared.metrics, p) + One(Happens(s, s', Enters(p))) - One(Happens(s, s', Leaves(p))))
    && (forall ok :: Finished(s'.shared.metrics, ok)
                     == Finished(s.shared.metrics, ok) + One(Happens(s, s', Settles(ok))))
  }

  lemma ThreadHappens(s: State, t: nat, op: ThreadOp, s': State, m: Move)
    requires ThreadStep(s, t, op, s')
    ensures Happens(s, s', m) <==> m.Enters? && op.Enter? && PcOf(s.threads, t).task.priority == m.p
  {
    OnlyOneThreadMoves(s, t, op, s');
    assert op.Enter? <==> PcOf(s.threads, t).Counted? && s'.threads[t].Entered?;
    assert op.Enter? ==> t in s.threads;
    hide ThreadStep;
  }

  lemma WorkerHappens(s: State, w: nat, op: WorkerOp, s': State, m: Move)
    requires w in s.workers && WorkerStep(s, w, op, s')
    ensures Happens(s, s', m) <==>
            || (m.Leaves? && op.Leave? && s.workers[w].task.priority == m.p)
            || (m.Settles? && op.Settle? && s.workers[w].ok == m.ok)
  {
    OnlyOneWorkerMoves(s, w, op, s');
    assert op.Leave? <==> s.workers[w].Popped? && s'.workers[w].Left?;
    assert op.Settle? <==> s.workers[w].Settling? && s'.workers[w].Idle?;
    hide WorkerStep;
  }

  lemma DropHappens(s: State, op: DropOp, s': State, m: Move)
    requires DropStep(s, op, s')
    ensures !Happens(s, s', m) && s'.shared.metrics == s.shared.metrics
  {}

  lemma ThreadCountersFollow(s: State, t: nat, op: ThreadOp, s': State)
    requires ThreadStep(s, t, op, s')
    ensures CountersFollow(s, s')
  {
    forall m ensures Happens(s, s', m) <==> m.Enters? && op.Enter? && PcOf(s.threads, t).task.priority == m.p {
      ThreadHappens(s, t, op, s', m);
    }
    hide Happens, Moved, AnyWaiting, OneMoreQueued, Depth;
    if op.Enter? {
      DepthsMove(s.shared.metrics, PcOf(s.threads, t).task.priority);
    }
  }

  lemma WorkerCountersFollow(s: State, w: nat, op: WorkerOp, s': State)
    requires LockOk(s) && CountsOk(s) && w in s.workers && WorkerStep(s, w, op, s')
    ensures CountersFollow(s, s')
  {
    forall m ensures Happens(s, s', m) <==>
                     || (m.Leaves? && op.Leave? && s.workers[w].task.priority == m.p)
                     || (m.Settles? && op.Settle? && s.workers[w].ok == m.ok)
    {
      WorkerHappens(s, w, op, s', m);
    }
    WorkerMetrics(s, w, op, s');
    hide Happens, WorkerStep, CountsOk, LockOk, Depth, Finished;
  }

  lemma WorkerMetrics(s: State, w: nat, op: WorkerOp, s': State)
    requires LockOk(s) && CountsOk(s) && w in s.workers && WorkerStep(s, w, op, s')
    ensures op.Leave? ==> s.workers[w].Popped?
    ensures op.Settle? ==> s.workers[w].Settling?
    ensures forall p :: Depth(s'.shared.metrics, p)
                     == Depth(s.shared.metrics, p) - One(op.Leave? && s.workers[w].task.priority == p)
    ensures forall ok :: Finished(s'.shared.metrics, ok)
                      == Finished(s.shared.metrics, ok) + One(op.Settle? && s.workers[w].ok == ok)
  {
    if op.Leave? {
      DepthIsPositive(s, w);
      DepthsMove(s.shared.metrics, s.workers[w].task.priority);
      hide OneLessQueued;
    }
    hide Moved, Bumped, IsTop, CountsOk, LockOk;
  }

  lemma StepCountersFollow(s: State, step: Step, s': State)
    requires Inv(s) && Do(s, step, s')
    ensures CountersFollow(s, s')
  {
    match step
    case OfThread(t, op) => ThreadCountersFollow(s, t, op, s');
    case OfWorker(w, op) => WorkerCountersFollow(s, w, op, s');
    case OfDrop(op) =>
      forall m ensures !Happens(s, s', m) {
        DropHappens(s, op, s', m);
      }
      hide Happens;
  }

  /** Between two moments a depth changes by what entered and left, a finished count by what was settled. */
  lemma {:induction false} CountersMove(run: seq<State>, i: nat, j: nat, p: Priority, ok: bool)
    requires Run(run) && i <= j < |run|
    ensures Depth(run[j].shared.metrics, p)
         == Depth(run[i].shared.metrics, p) + Times(run, i, j, Enters(p)) - Times(run, i, j, Leaves(p))
    ensures Finished(run[j].shared.metrics, ok) == Finished(run[i].shared.metrics, ok) + Times(run, i, j, Settles(ok))
    decreases j
  {
    hide Do, Inv, Init, Happens, Depth, Finished;
    if i < j {
      var k := j - 1;
      CountersMove(run, i, k, p, ok);
      RunKeepsInv(run, k);
      assert StepAt(run, j);
      var step :| Do(run[k], step, run[j]);
      StepCountersFollow(run[k], step, run[j]);
    }
  }

  // ---- When a reader sees an excess --------------------------------------------------------------------------

  /** The moment at which the reader loads the counter a move changes. */
  function LoadOf(l: Loads, m: Move): nat {
    match m
    case Settles(ok) => if ok then l.completed else l.failed
    case _ =>
      match m.p
      case Low => l.low
      case Normal => l.normal
      case High => l.high
      case Critical => l.critical
  }

  /**
   How often a move happens from the load of the submissions to the load of its own counter, counted negatively when
   the reader loads that counter first.
   */
  ghost function Since(run: seq<State>, l: Loads, m: Move): int
    requires Reads(run, l)
  {
    var i, j := l.submitted, LoadOf(l, m);
    if i <= j then Times(run, i, j, m) else 0 - Times(run, j, i, m)
  }

  ghost function Entered(run: seq<State>, l: Loads): int
    requires Reads(run, l)
  {
    Since(run, l, Enters(Low)) + Since(run, l, Enters(Normal)) + Since(run, l, Enters(High))
    + Since(run, l, Enters(Critical))
  }

  ghost function LeftDepth(run: seq<State>, l: Loads): int
    requires Reads(run, l)
  {
    Since(run, l, Leaves(Low)) + Since(run, l, Leaves(Normal)) + Since(run, l, Leaves(High))
    + Since(run, l, Leaves(Critical))
  }

  ghost function Settled(run: seq<State>, l: Loads): int
    requires Reads(run, l)
  {
    Since(run, l, Settles(true)) + Since(run, l, Settles(false))
  }

  lemma LoadMoves(run: seq<State>, l: Loads, p: Priority, ok: bool)
    requires Reads(run, l)
    ensures Depth(run[LoadOf(l, Enters(p))].shared.metrics, p)
         == Depth(run[l.submitted].shared.metrics, p) + Since(run, l, Enters(p)) - Since(run, l, Leaves(p))
    ensures Finished(run[LoadOf(l, Settles(ok))].shared.metrics, ok)
         == Finished(run[l.submitted].shared.metrics, ok) + Since(run, l, Settles(ok))
  {
    var i, j, k := l.submitted, LoadOf(l, Enters(p)), LoadOf(l, Settles(ok));
    assert LoadOf(l, Leaves(p)) == j;
    hide Run, Depth, Finished, Times;
    if i <= j {
      CountersMove(run, i, j, p, ok);
    } else {
      CountersMove(run, j, i, p, ok);
    }
    if i <= k {
      CountersMove(run, i, k, p, ok);
    } else {
      CountersMove(run, k, i, p, ok);
    }
  }

  lemma ReaderAddsUp(run: seq<State>, l: Loads)
    requires Reads(run, l)
    ensures AccountedFor(run, l)
         == Accounted(run[l.submitted].shared.metrics) + Entered(run, l) - LeftDepth(run, l) + Settled(run, l)
  {
    LoadMoves(run, l, Low, true);
    LoadMoves(run, l, Normal, false);
    LoadMoves(run, l, High, true);
    LoadMoves(run, l, Critical, true);
    hide Run, Since;
  }

  /**
   For any reader, whenever and in whatever order it loads: it sees more submissions than are accounted for exactly when
   the tasks in flight as it loads the submissions, and those that leave a depth before that depth is loaded, outnumber
   those that enter a depth before it is loaded and those settled before their count is loaded.
   */
  lemma ReaderSeesExcessIff(run: seq<State>, l: Loads)
    requires Reads(run, l)
    ensures var s := run[l.submitted];
            Submitted(run, l) > AccountedFor(run, l) <==>
            Workers(s, InFlight) + Threads(s, HalfCounted) + LeftDepth(run, l) > Entered(run, l) + Settled(run, l)
  {
    ReaderAddsUp(run, l);
    RunKeepsInv(run, l.submitted);
    assert ReaderSees(run[l.submitted]);
    hide Inv, Accounted, Run, AccountedFor, Entered, LeftDepth, Settled;
  }

  lemma SinceAfter(run: seq<State>, l: Loads, m: Move)
    requires Reads(run, l) && l.submitted <= LoadOf(l, m)
    ensures Since(run, l, m) == Times(run, l.submitted, LoadOf(l, m), m)
  {}

  /** The same for a reader that loads the submissions first, in plain counts of what happens afterwards. */
  lemma ExcessAfterSubmissions(run: seq<State>, l: Loads)
    requires Reads(run, l)
    requires l.submitted <= l.low && l.submitted <= l.normal && l.submitted <= l.high && l.submitted <= l.critical
    requires l.submitted <= l.completed && l.submitted <= l.failed
    ensures var s, i := run[l.submitted], l.submitted;
            Submitted(run, l) > AccountedFor(run, l) <==>
            Workers(s, InFlight) + Threads(s, HalfCounted)
            + Times(run, i, l.low, Leaves(Low)) + Times(run, i, l.normal, Leaves(Normal))
            + Times(run, i, l.high, Leaves(High)) + Times(run, i, l.critical, Leaves(Critical))
            > Times(run, i, l.low, Enters(Low)) + Times(run, i, l.normal, Enters(Normal))
              + Times(run, i, l.high, Enters(High)) + Times(run, i, l.critical, Enters(Critical))
              + Times(run, i, l.completed, Settles(true)) + Times(run, i, l.failed, Settles(false))
  {
    hide Run, Times, AccountedFor, Submitted, Workers, Threads;
    ReaderSeesExcessIff(run, l);
    forall m ensures Since(run, l, m) == Times(run, l.submitted, LoadOf(l, m), m) {
      SinceAfter(run, l, m);
    }
    hide Since;
  }

  lemma SinceBefore(run: seq<State>, l: Loads, m: Move)
    requires Reads(run, l) && LoadOf(l, m) <= l.submitted
    ensures Since(run, l, m) == 0 - Times(run, LoadOf(l, m), l.submitted, m)
  {}

  /** And for one that loads them last: what happens in between counts the other way. */
  lemma ExcessBeforeSubmissions(run: seq<State>, l: Loads)
    requires Reads(run, l)
    requires l.low <= l.submitted && l.normal <= l.submitted && l.high <= l.submitted && l.critical <= l.submitted
    requires l.completed <= l.submitted && l.failed <= l.submitted
    ensures var s, i := run[l.submitted], l.submitted;
            Submitted(run, l) > AccountedFor(run, l) <==>
            Workers(s, InFlight) + Threads(s, HalfCounted)
            + Times(run, l.low, i, Enters(Low)) + Times(run, l.normal, i, Enters(Normal))
            + Times(run, l.high, i, Enters(High)) + Times(run, l.critical, i, Enters(Critical))
            + Times(run, l.completed, i, Settles(true)) + Times(run, l.failed, i, Settles(false))
            > Times(run, l.low, i, Leaves(Low)) + Times(run, l.normal, i, Leaves(Normal))
              + Times(run, l.high, i, Leaves(High)) + Times(run, l.critical, i, Leaves(Critical))
  {
    hide Run, Times, AccountedFor, Submitted, Workers, Threads;
    ReaderSeesExcessIff(run, l);
    forall m ensures Since(run, l, m) == 0 - Times(run, LoadOf(l, m), l.submitted, m) {
      SinceBefore(run, l, m);
    }
    hide Since;
  }

  /**
   A reader that loads the submissions last can see an excess although nothing is in flight at any moment it looks: it
   finds every other counter zero, a task is spawned, and it loads one submission.
   */
  lemma ExcessWithNothingInFlight() returns (run: seq<State>, l: Loads)
    ensures Reads(run, l) && l == Loads(|run| - 1, 0, 0, 0, 0, 0, 0)
    ensures NothingInFlight(run[0]) && NothingInFlight(run[l.submitted])
    ensures Submitted(run, l) > AccountedFor(run, l)
  {
    var s := CanQueue();
    MetricsAreConserved(s);
    run :| Run(run) && run[|run| - 1] == s;
    l := Loads(|run| - 1, 0, 0, 0, 0, 0, 0);
    assert |s.shared.queue| == 1;
    assert forall w :: w in s.workers ==> s.workers[w] == Idle;
    assert forall p :: p in s.threads ==> s.threads[p] == Notifying;
    hide Reachable;
  }
}
