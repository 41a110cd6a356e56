/**
 Whole runs of the timer wheel under concurrency. Every lock section of mill-io/src/timer_wheel.rs:311-472 is one
 atomic step, every callback another; any number of `tick` calls, schedules and cancels interleave freely, so a
 callback that schedules, cancels or ticks is covered too.
 */
module TimerRuns {
  import opened TimerSpec

  /** A running `tick` call: after reading the clock, after its advance, after marking in-flight timers. */
  datatype Tick =
    | Sampled(target: nat)
    | Expired(target: nat, expired: seq<TimerEntry>)
    | Firing(target: nat, todo: seq<TimerEntry>, done: seq<TimerEntry>)

  datatype Event =
    | Fired(tick: nat, target: nat, entry: TimerEntry)
    | Cancelled(id: nat)
    | Finished(target: nat)

  /**
   `reserved` are ids handed out by `next_id` and not yet inserted. `scheduled`, `owner` and `log` only record the
   past: how each id was scheduled, which tick call popped it last, and what happened.
   */
  datatype State = State(core: Core, clock: nat, nextId: nat, reserved: set<nat>, ticks: map<nat, Tick>,
                         nextTick: nat, scheduled: Timers, owner: map<nat, nat>, log: seq<Event>)

  datatype Step =
    | Elapse(ms: nat)
    | ReserveId
    | Schedule(id: nat, delay: nat, kind: TimerKind)
    | Cancel(id: nat)
    | Begin
    | Advance(t: nat, expired: seq<TimerEntry>, core: Core)
    | Mark(t: nat)
    | Fire(t: nat)
    | Finish(t: nat)

  ghost predicate Init(s: State) {
    s == State(Core(map[], {}, 0, {}, {}), 0, 1, {}, map[], 0, map[], map[], [])
  }

  ghost predicate Do(s: State, step: Step, s': State) {
    match step
    case Elapse(ms) => s' == s.(clock := s.clock + ms)
    case ReserveId => s' == s.(nextId := s.nextId + 1, reserved := s.reserved + {s.nextId})
    case Schedule(id, delay, kind) =>
      var e := TimerEntry(id, s.clock + delay, kind);
      id in s.reserved && s' == s.(core := ScheduleStep(s.core, e), reserved := s.reserved - {id},
                                   scheduled := s.scheduled[id := e])
    case Cancel(id) =>
      var (core', found) := CancelStep(s.core, id);
      s' == s.(core := core', log := if found then s.log + [Cancelled(id)] else s.log)
    case Begin => s' == s.(ticks := s.ticks[s.nextTick := Sampled(s.clock)], nextTick := s.nextTick + 1)
    case Advance(t, expired, core') =>
      && t in s.ticks && s.ticks[t].Sampled?
      && AdvanceStep(s.core, s.ticks[t].target, expired, core')
      && (if expired == []
          then s' == s.(core := core', ticks := s.ticks - {t}, log := s.log + [Finished(s.ticks[t].target)])
          else s' == s.(core := core', ticks := s.ticks[t := Expired(s.ticks[t].target, expired)],
                        owner := OwnedBy(s.owner, Ids(expired), t)))
    case Mark(t) =>
      && t in s.ticks && s.ticks[t].Expired?
      && s' == s.(core := MarkStep(s.core, s.ticks[t].expired),
                  ticks := s.ticks[t := Firing(s.ticks[t].target, s.ticks[t].expired, [])])
    case Fire(t) =>
      && t in s.ticks && s.ticks[t].Firing? && s.ticks[t].todo != []
      && s' == s.(ticks := s.ticks[t := AfterCallback(s.ticks[t])],
                  log := s.log + [Fired(t, s.ticks[t].target, s.ticks[t].todo[0])])
    case Finish(t) =>
      && t in s.ticks && s.ticks[t].Firing? && s.ticks[t].todo == []
      && s' == s.(core := RearmStep(s.core, s.ticks[t].done, |s.ticks[t].done|, s.clock), ticks := s.ticks - {t},
                  log := s.log + [Finished(s.ticks[t].target)])
  }

  function OwnedBy(owner: map<nat, nat>, ids: set<nat>, t: nat): map<nat, nat> {
    owner + map id | id in ids :: t
  }

  function AfterCallback(tick: Tick): Tick
    requires tick.Firing? && tick.todo != []
  {
    var e := tick.todo[0];
    Firing(tick.target, tick.todo[1..], if e.kind.Repeating? then tick.done + [e] else tick.done)
  }

  ghost predicate Next(s: State, s': State) {
    exists step :: Do(s, step, s')
  }

  ghost predicate StepAt(run: seq<State>, i: nat) {
    0 < i < |run| && Next(run[i - 1], run[i])
  }

  ghost predicate Run(run: seq<State>) {
    && |run| > 0 && Init(run[0])
    && forall i :: 0 < i < |run| ==> StepAt(run, i)
  }

  /** Timers whose callback this tick call still has to run. */
  function ToRun(tick: Tick): seq<TimerEntry> {
    match tick
    case Sampled(_) => []
    case Expired(_, expired) => expired
    case Firing(_, todo, _) => todo
  }

  /** Everything a tick call took out of the wheel and has not put back. */
  function Hand(tick: Tick): seq<TimerEntry> {
    if tick.Firing? then tick.done + tick.todo else ToRun(tick)
  }

  /** An entry is the timer its id was scheduled as; only a repeating one moves its deadline. */
  ghost predicate SameTimer(s: State, e: TimerEntry) {
    && e.id in s.scheduled && e.kind == s.scheduled[e.id].kind
    && (e.kind.Once? ==> e == s.scheduled[e.id])
  }

  ghost predicate IdsOk(s: State) {
    && WellKeyed(s.scheduled)
    && s.reserved !! s.scheduled.Keys
    && (forall id :: id in s.scheduled || id in s.reserved ==> id < s.nextId)
  }

  ghost predicate LiveOk(s: State) {
    && s.core.cursor <= s.clock
    && WellKeyed(s.core.timers)
    && s.core.timers.Keys <= s.core.filed <= s.scheduled.Keys
    && (forall id :: id in s.core.timers ==>
          s.core.cursor <= s.core.timers[id].deadline && SameTimer(s, s.core.timers[id]))
  }

  /** Timers marked in flight are exactly those some firing tick call will reschedule. */
  ghost predicate FlightOk(s: State) {
    && s.core.canceled <= s.core.inFlight
    && s.core.inFlight !! s.core.filed
    && (forall id :: id in s.core.inFlight ==>
          id in s.owner && s.owner[id] in s.ticks && s.ticks[s.owner[id]].Firing?
          && id in RepeatingIds(Hand(s.ticks[s.owner[id]])))
  }

  ghost predicate TickOk(s: State, t: nat, tick: Tick) {
    && t < s.nextTick && tick.target <= s.clock
    && (!tick.Sampled? ==> tick.target <= s.core.cursor)
    && DistinctIds(Hand(tick))
    && Ids(Hand(tick)) !! s.core.filed
    && (tick.Expired? ==> Ids(Hand(tick)) !! s.core.inFlight)
    && (tick.Firing? ==> RepeatingIds(Hand(tick)) <= s.core.inFlight && AllRepeating(tick.done))
    && (forall i :: 0 <= i < |Hand(tick)| ==>
          var e := Hand(tick)[i]; SameTimer(s, e) && e.id in s.owner && s.owner[e.id] == t)
    && (forall i :: 0 <= i < |ToRun(tick)| ==> ToRun(tick)[i].deadline <= tick.target)
  }

  ghost predicate TicksOk(s: State) {
    forall t :: t in s.ticks ==> TickOk(s, t, s.ticks[t])
  }

  ghost predicate Inv(s: State) {
    IdsOk(s) && LiveOk(s) && FlightOk(s) && TicksOk(s)
  }

  // ---- What a reschedule does --------------------------------------------------------------------------------

  function NextEntry(e: TimerEntry, now: nat): TimerEntry {
    if e.kind.Repeating? then e.(deadline := now + e.kind.interval) else e
  }

  ghost predicate AllRepeating(done: seq<TimerEntry>) {
    forall i :: 0 <= i < |done| ==> done[i].kind.Repeating?
  }

  lemma IdsSplit(entries: seq<TimerEntry>, k: nat)
    requires k <= |entries|
    ensures Ids(entries) == Ids(entries[..k]) + Ids(entries[k..])
    ensures DistinctIds(entries) ==> Ids(entries[..k]) !! Ids(entries[k..])
    ensures DistinctIds(entries) ==> DistinctIds(entries[..k]) && DistinctIds(entries[k..])
  {
    assert entries == entries[..k] + entries[k..];
    IdsConcat(entries[..k], entries[k..]);
  }

  /** `c'` is `c` after the timers `ids` were dropped (if cancelled meanwhile) or armed again. */
  ghost predicate RearmedSets(c: Core, ids: set<nat>, c': Core) {
    && c'.cursor == c.cursor
    && c'.inFlight == c.inFlight - ids && c'.canceled == c.canceled - ids
    && c'.filed == c.filed + (ids - c.canceled)
    && c'.timers.Keys == c.timers.Keys + (ids - c.canceled)
    && (forall id :: id in c.timers && id !in ids ==> c'.timers[id] == c.timers[id])
  }

  ghost predicate RearmedEntries(c: Core, done: seq<TimerEntry>, k: nat, now: nat, c': Core)
    requires k <= |done|
  {
    forall i :: 0 <= i < k && done[i].id !in c.canceled ==>
      done[i].id in c'.timers && c'.timers[done[i].id] == NextEntry(done[i], now)
  }

  lemma RearmOneSets(c: Core, ids: set<nat>, ids': set<nat>, c1: Core, e: TimerEntry, now: nat)
    requires RearmedSets(c, ids, c1) && e.id !in ids && e.kind.Repeating? && ids' == ids + {e.id}
    ensures RearmedSets(c, ids', RearmOne(c1, e, now))
  {
    assert e.id in c1.canceled <==> e.id in c.canceled;
  }

  lemma RearmOneEntry(c: Core, done: seq<TimerEntry>, j: nat, k: nat, now: nat, c1: Core)
    requires k < |done| && j == k + 1 && DistinctIds(done) && done[k].kind.Repeating?
    requires RearmedEntries(c, done, k, now, c1)
    requires done[k].id in c1.canceled <==> done[k].id in c.canceled
    ensures RearmedEntries(c, done, j, now, RearmOne(c1, done[k], now))
  {}

  /** The reschedule, entry by entry, amounts to: drop the cancelled ones, arm the others one interval from now. */
  lemma {:induction false} RearmMeaning(c: Core, done: seq<TimerEntry>, k: nat, now: nat)
    requires k <= |done| && DistinctIds(done) && AllRepeating(done)
    ensures RearmedSets(c, IdsUpTo(done, k), RearmStep(c, done, k, now))
    ensures RearmedEntries(c, done, k, now, RearmStep(c, done, k, now))
  {
    if k == 0 {
      assert IdsUpTo(done, k) == {};
    } else {
      var j := k - 1;
      RearmMeaning(c, done, j, now);
      var ids, c1, e := IdsUpTo(done, j), RearmStep(c, done, j, now), done[j];
      assert IdsUpTo(done, k) == ids + {e.id} && e.id !in ids;
      hide RearmedSets, RearmedEntries, IdsUpTo, DistinctIds;
      RearmOneSets(c, ids, IdsUpTo(done, k), c1, e, now);
      CanceledAfter(c, ids, c1, e.id);
      RearmOneEntry(c, done, k, j, now, c1);
    }
  }

  lemma CanceledAfter(c: Core, ids: set<nat>, c1: Core, id: nat)
    requires RearmedSets(c, ids, c1) && id !in ids
    ensures id in c1.canceled <==> id in c.canceled
  {}

  // ---- Every step keeps the invariant ------------------------------------------------------------------------

  lemma DropMiddle(a: seq<TimerEntry>, x: TimerEntry, b: seq<TimerEntry>)
    requires DistinctIds(a + [x] + b)
    ensures DistinctIds(a + b)
    ensures Ids(a + b) == Ids(a + [x] + b) - {x.id}
    ensures x.kind.Once? ==> RepeatingIds(a + b) == RepeatingIds(a + [x] + b)
    ensures forall i :: 0 <= i < |a + b| ==> (a + b)[i] in a + [x] + b
  {
    var all := a + [x] + b;
    forall i | 0 <= i < |a + b|
      ensures (a + b)[i] == all[if i < |a| then i else i + 1] && (a + b)[i].id != x.id
    {
      assert all[|a|] == x;
    }
    forall k | 0 <= k < |all| && k != |a|
      ensures all[k] in a + b
    {
      assert all[k] == (a + b)[if k < |a| then k else k - 1];
    }
  }

  lemma CallbackRepeats(tick: Tick)
    requires tick.Firing? && tick.todo != [] && tick.todo[0].kind.Repeating?
    ensures Hand(AfterCallback(tick)) == Hand(tick)
  {}

  lemma CallbackOnce(tick: Tick)
    requires tick.Firing? && tick.todo != [] && tick.todo[0].kind.Once? && DistinctIds(Hand(tick))
    ensures Ids(Hand(AfterCallback(tick))) <= Ids(Hand(tick)) && DistinctIds(Hand(AfterCallback(tick)))
    ensures RepeatingIds(Hand(AfterCallback(tick))) == RepeatingIds(Hand(tick))
    ensures forall i :: 0 <= i < |Hand(AfterCallback(tick))| ==> Hand(AfterCallback(tick))[i] in Hand(tick)
  {
    var e, rest := tick.todo[0], tick.todo[1..];
    assert Hand(tick) == tick.done + [e] + rest && Hand(AfterCallback(tick)) == tick.done + rest;
    DropMiddle(tick.done, e, rest);
  }

  lemma CallbackRuns(tick: Tick)
    requires tick.Firing? && tick.todo != [] && DistinctIds(Hand(tick))
    ensures Ids(ToRun(AfterCallback(tick))) == Ids(tick.todo) - {tick.todo[0].id}
    ensures forall i :: 0 <= i < |ToRun(AfterCallback(tick))| ==> ToRun(AfterCallback(tick))[i] in tick.todo
  {
    var e, rest := tick.todo[0], tick.todo[1..];
    IdsSplit(Hand(tick), |tick.done|);
    assert Hand(tick)[|tick.done|..] == tick.todo;
    assert tick.todo == [] + [e] + rest && [] + rest == rest;
    DropMiddle([], e, rest);
  }

  /** What a step leaves alone of a tick call other than its own. */
  lemma TickFrame(s: State, s': State, t: nat, tick: Tick)
    requires TickOk(s, t, tick)
    requires s.nextTick <= s'.nextTick && s.clock <= s'.clock && s.core.cursor <= s'.core.cursor
    requires forall id :: id in s.scheduled ==> id in s'.scheduled && s'.scheduled[id] == s.scheduled[id]
    requires Ids(Hand(tick)) !! s'.core.filed
    requires forall id :: id in Ids(Hand(tick)) ==> (id in s'.core.inFlight <==> id in s.core.inFlight)
    requires forall id :: id in Ids(Hand(tick)) ==> id in s.owner && id in s'.owner && s'.owner[id] == s.owner[id]
    ensures TickOk(s', t, tick)
  {
    forall i | 0 <= i < |Hand(tick)|
      ensures SameTimer(s', Hand(tick)[i]) && Hand(tick)[i].id in s'.owner && s'.owner[Hand(tick)[i].id] == t
    {
      assert Hand(tick)[i].id in Ids(Hand(tick));
    }
  }

  lemma HandIsOwned(s: State, t: nat)
    requires TicksOk(s) && t in s.ticks
    ensures forall id :: id in Ids(Hand(s.ticks[t])) ==> id in s.owner && s.owner[id] == t && id in s.scheduled
    ensures RepeatingIds(Hand(s.ticks[t])) <= Ids(Hand(s.ticks[t]))
  {
    assert TickOk(s, t, s.ticks[t]);
  }

  /** The tick calls a step does not touch stay in order. */
  lemma OthersKept(s: State, s': State, touched: set<nat>)
    requires TicksOk(s)
    requires s.nextTick <= s'.nextTick && s.clock <= s'.clock && s.core.cursor <= s'.core.cursor
    requires forall id :: id in s.scheduled ==> id in s'.scheduled && s'.scheduled[id] == s.scheduled[id]
    requires forall u, id :: u in s.ticks && u !in touched && id in Ids(Hand(s.ticks[u])) ==>
               && id !in s'.core.filed
               && (id in s'.core.inFlight <==> id in s.core.inFlight)
               && id in s.owner && id in s'.owner && s'.owner[id] == s.owner[id]
    ensures forall u :: u in s.ticks && u !in touched ==> TickOk(s', u, s.ticks[u])
  {
    forall u | u in s.ticks && u !in touched
      ensures TickOk(s', u, s.ticks[u])
    {
      TickFrame(s, s', u, s.ticks[u]);
    }
  }

  lemma KeepQuiet(s: State, step: Step, s': State)
    requires Inv(s) && Do(s, step, s') && (step.Elapse? || step.ReserveId? || step.Begin?)
    ensures Inv(s')
  {
    forall u | u in s.ticks
      ensures forall id :: id in Ids(Hand(s.ticks[u])) ==> id !in s.core.filed && id in s.owner
    {
      HandIsOwned(s, u);
    }
    OthersKept(s, s', {});
    if step.Begin? {
      assert s.nextTick !in s.ticks by {
        assert s.nextTick in s.ticks ==> TickOk(s, s.nextTick, s.ticks[s.nextTick]);
      }
    }
  }

  lemma KeepSchedule(s: State, id: nat, delay: nat, kind: TimerKind, s': State)
    requires Inv(s) && Do(s, Schedule(id, delay, kind), s')
    ensures Inv(s')
  {
    forall u | u in s.ticks
      ensures forall k :: k in Ids(Hand(s.ticks[u])) ==> k !in s'.core.filed && k in s.owner
    {
      HandIsOwned(s, u);
    }
    OthersKept(s, s', {});
    assert FlightOk(s') by {
      forall k | k in s.core.inFlight
        ensures k != id
      {
        HandIsOwned(s, s.owner[k]);
      }
    }
  }

  lemma KeepCancel(s: State, id: nat, s': State)
    requires Inv(s) && Do(s, Cancel(id), s')
    ensures Inv(s')
  {
    forall u | u in s.ticks
      ensures forall k :: k in Ids(Hand(s.ticks[u])) ==> k !in s.core.filed && k in s.owner
    {
      HandIsOwned(s, u);
    }
    OthersKept(s, s', {});
  }

  lemma ExpiredAreLive(s: State, target: nat, expired: seq<TimerEntry>, core: Core)
    requires LiveOk(s) && AdvanceStep(s.core, target, expired, core)
    ensures Ids(expired) <= s.core.timers.Keys
    ensures forall i :: 0 <= i < |expired| ==> SameTimer(s, expired[i]) && expired[i].deadline <= target
    ensures forall id :: id in core.timers ==> id in s.core.timers && core.timers[id] == s.core.timers[id]
                                               && core.cursor <= core.timers[id].deadline
  {}

  /** An advance takes out of the live timers exactly what it returns. */
  lemma ExpiredIds(c: Core, target: nat, expired: seq<TimerEntry>, c': Core)
    requires WellKeyed(c.timers) && AdvanceStep(c, target, expired, c')
    ensures Ids(expired) == c.timers.Keys - c'.timers.Keys && c'.timers.Keys <= c.timers.Keys
    ensures c'.inFlight == c.inFlight && c'.canceled == c.canceled
  {
    var due := Before(c.timers, Horizon(c.cursor, target));
    assert c.timers.Keys - c'.timers.Keys == due.Keys;
    forall id | id in due
      ensures id in Ids(expired)
    {
      assert due[id] in expired;
      var i :| 0 <= i < |expired| && expired[i] == due[id];
    }
  }

  lemma AdvancedLive(s: State, t: nat, expired: seq<TimerEntry>, core: Core, s': State)
    requires Inv(s) && Do(s, Advance(t, expired, core), s')
    ensures LiveOk(s')
  {
    assert TickOk(s, t, s.ticks[t]);
    ExpiredAreLive(s, s.ticks[t].target, expired, core);
    hide FlightOk, TicksOk, TickOk, Lists, SortedByDeadline, From, Before;
  }

  lemma AdvancedFlight(s: State, t: nat, expired: seq<TimerEntry>, core: Core, s': State)
    requires Inv(s) && Do(s, Advance(t, expired, core), s')
    ensures FlightOk(s')
  {
    hide LiveOk, TicksOk, TickOk, Lists, SortedByDeadline, From, Before;
    LiveAreFiled(s);
    ExpiredAreLive(s, s.ticks[t].target, expired, core);
  }

  lemma AdvancedTick(s: State, t: nat, expired: seq<TimerEntry>, core: Core, s': State)
    requires Inv(s) && Do(s, Advance(t, expired, core), s') && expired != []
    ensures TickOk(s', t, s'.ticks[t])
  {
    assert TickOk(s, t, s.ticks[t]);
    LiveAreFiled(s);
    ExpiredAreLive(s, s.ticks[t].target, expired, core);
    assert DistinctIds(expired);
    hide LiveOk, TicksOk, Lists, SortedByDeadline, From, Before, DistinctIds;
  }

  lemma LiveAreFiled(s: State)
    requires LiveOk(s)
    ensures s.core.timers.Keys <= s.core.filed
  {}

  lemma KeepAdvance(s: State, t: nat, expired: seq<TimerEntry>, core: Core, s': State)
    requires Inv(s) && Do(s, Advance(t, expired, core), s')
    ensures Inv(s')
  {
    LiveAreFiled(s);
    ExpiredAreLive(s, s.ticks[t].target, expired, core);
    AdvancedLive(s, t, expired, core, s');
    AdvancedFlight(s, t, expired, core, s');
    if expired != [] {
      AdvancedTick(s, t, expired, core, s');
    }
    hide FlightOk, TickOk, LiveOk, AdvanceStep;
    AdvancedOthers(s, t, expired, core, s');
  }

  lemma AdvancedOthers(s: State, t: nat, expired: seq<TimerEntry>, core: Core, s': State)
    requires Inv(s) && Do(s, Advance(t, expired, core), s')
    ensures forall u :: u in s.ticks && u != t ==> TickOk(s', u, s.ticks[u])
  {
    LiveAreFiled(s);
    ExpiredIds(s.core, s.ticks[t].target, expired, core);
    assert s.core.cursor <= core.cursor && core.filed <= s.core.filed - Ids(expired);
    assert core.inFlight == s.core.inFlight && s'.scheduled == s.scheduled && s'.core == core;
    assert s'.owner == s.owner || s'.owner == OwnedBy(s.owner, Ids(expired), t);
    hide AdvanceStep, FlightOk, LiveOk, IdsOk, TickOk, Ids, Hand;
    forall u | u in s.ticks
      ensures forall k :: k in Ids(Hand(s.ticks[u])) ==> k !in s.core.filed && k in s.owner
    {
      HandIsOwned(s, u);
      HandIsOut(s, u);
    }
    OthersKept(s, s', {t});
  }

  lemma MarkedFlight(s: State, t: nat, s': State)
    requires LiveOk(s) && FlightOk(s) && TicksOk(s) && Do(s, Mark(t), s')
    ensures FlightOk(s')
  {
    assert TickOk(s, t, s.ticks[t]);
    HandIsOwned(s, t);
    assert Hand(s'.ticks[t]) == s.ticks[t].expired;
    hide LiveOk, TicksOk, TickOk;
  }

  lemma MarkedTick(s: State, t: nat, s': State)
    requires TicksOk(s) && Do(s, Mark(t), s')
    ensures TickOk(s', t, s'.ticks[t])
  {
    assert TickOk(s, t, s.ticks[t]);
    hide TicksOk, TickOk, MarkStep;
    MarkedTickOk(s, t, s.ticks[t], s', s'.ticks[t]);
  }

  lemma MarkedTickOk(s: State, t: nat, tick: Tick, s': State, tick': Tick)
    requires TickOk(s, t, tick) && tick.Expired? && tick' == Firing(tick.target, tick.expired, [])
    requires s'.core == MarkStep(s.core, tick.expired) && s'.clock == s.clock && s'.nextTick == s.nextTick
    requires s'.owner == s.owner && s'.scheduled == s.scheduled
    ensures TickOk(s', t, tick')
  {
    hide DistinctIds, Ids, RepeatingIds, SameTimer, IdsUpTo;
    assert Hand(tick') == tick.expired && Hand(tick) == tick.expired;
    assert ToRun(tick') == tick.expired && ToRun(tick) == tick.expired;
    hide Hand, ToRun;
    forall i | 0 <= i < |tick.expired| ensures SameTimer(s', tick.expired[i]) {
      assert SameTimer(s, Hand(tick)[i]);
      TimerStaysSame(s, s', tick.expired[i]);
    }
  }

  lemma TimerStaysSame(s: State, s': State, e: TimerEntry)
    requires SameTimer(s, e) && s'.scheduled == s.scheduled
    ensures SameTimer(s', e)
  {}

  lemma KeepMark(s: State, t: nat, s': State)
    requires Inv(s) && Do(s, Mark(t), s')
    ensures Inv(s')
  {
    hide FlightOk, TickOk;
    HandIsOwned(s, t);
    forall u | u in s.ticks && u != t
      ensures forall k :: k in Ids(Hand(s.ticks[u])) ==>
                k !in s.core.filed && k in s.owner && k !in RepeatingIds(s.ticks[t].expired)
    {
      HandIsOwned(s, u);
      HandIsOut(s, u);
    }
    OthersKept(s, s', {t});
    MarkedFlight(s, t, s');
    MarkedTick(s, t, s');
  }

  lemma HandIsOut(s: State, t: nat)
    requires TicksOk(s) && t in s.ticks
    ensures Ids(Hand(s.ticks[t])) !! s.core.filed
  {
    assert TickOk(s, t, s.ticks[t]);
  }

  lemma CallbackKeepsHand(s: State, s': State, t: nat)
    requires TicksOk(s) && Do(s, Fire(t), s')
    ensures TickOk(s', t, s'.ticks[t])
    ensures RepeatingIds(Hand(s'.ticks[t])) == RepeatingIds(Hand(s.ticks[t]))
  {
    var tick, tick' := s.ticks[t], s'.ticks[t];
    assert TickOk(s, t, tick);
    CallbackRuns(tick);
    if tick.todo[0].kind.Repeating? {
      CallbackRepeats(tick);
    } else {
      CallbackOnce(tick);
    }
    forall i | 0 <= i < |Hand(tick')|
      ensures SameTimer(s', Hand(tick')[i]) && Hand(tick')[i].id in s'.owner && s'.owner[Hand(tick')[i].id] == t
    {
      assert Hand(tick')[i] in Hand(tick);
    }
    forall i | 0 <= i < |ToRun(tick')|
      ensures ToRun(tick')[i].deadline <= tick.target
    {
      var j :| 0 <= j < |tick.todo| && tick.todo[j] == ToRun(tick')[i];
      assert ToRun(tick)[j].deadline <= tick.target;
    }
  }

  lemma KeepFire(s: State, t: nat, s': State)
    requires Inv(s) && Do(s, Fire(t), s')
    ensures Inv(s')
  {
    CallbackKeepsHand(s, s', t);
    forall u | u in s.ticks && u != t
      ensures forall k :: k in Ids(Hand(s.ticks[u])) ==> k !in s.core.filed && k in s.owner
    {
      HandIsOwned(s, u);
    }
    OthersKept(s, s', {t});
    assert FlightOk(s');
  }

  lemma FinishedSets(s: State, t: nat, s': State)
    requires Inv(s) && Do(s, Finish(t), s')
    ensures Hand(s.ticks[t]) == s.ticks[t].done && AllRepeating(s.ticks[t].done)
    ensures RearmedSets(s.core, Ids(s.ticks[t].done), s'.core)
    ensures RearmedEntries(s.core, s.ticks[t].done, |s.ticks[t].done|, s.clock, s'.core)
  {
    var done := s.ticks[t].done;
    assert TickOk(s, t, s.ticks[t]);
    assert Hand(s.ticks[t]) == done;
    RearmMeaning(s.core, done, |done|, s.clock);
  }

  lemma FinishedLive(s: State, t: nat, s': State)
    requires Inv(s) && Do(s, Finish(t), s')
    ensures LiveOk(s')
  {
    var done := s.ticks[t].done;
    FinishedSets(s, t, s');
    assert TickOk(s, t, s.ticks[t]);
    HandIsOwned(s, t);
    hide FlightOk, TicksOk, RearmStep;
    forall id | id in s'.core.timers
      ensures s'.core.timers[id].id == id && s.core.cursor <= s'.core.timers[id].deadline
      ensures SameTimer(s', s'.core.timers[id])
    {
      if id in Ids(done) {
        var i :| 0 <= i < |done| && done[i].id == id;
        assert SameTimer(s, done[i]);
      }
    }
  }

  lemma FinishedFlight(s: State, t: nat, s': State)
    requires Inv(s) && Do(s, Finish(t), s')
    ensures FlightOk(s')
  {
    FinishedSets(s, t, s');
    HandIsOwned(s, t);
    hide LiveOk, TicksOk, TickOk, RearmStep, RearmedEntries, AllRepeating, Ids;
    forall id | id in s'.core.inFlight
      ensures s.owner[id] != t
    {
      assert id in s.core.inFlight;
    }
  }

  lemma KeepFinish(s: State, t: nat, s': State)
    requires Inv(s) && Do(s, Finish(t), s')
    ensures Inv(s')
  {
    FinishedSets(s, t, s');
    FinishedLive(s, t, s');
    FinishedFlight(s, t, s');
    hide LiveOk, FlightOk, TickOk, RearmStep;
    FinishedOthers(s, t, s');
  }

  lemma FinishedOthers(s: State, t: nat, s': State)
    requires Inv(s) && Do(s, Finish(t), s')
    ensures forall u :: u in s.ticks && u != t ==> TickOk(s', u, s.ticks[u])
  {
    hide LiveOk, FlightOk, TickOk, RearmStep, Hand, Ids;
    FinishedSets(s, t, s');
    HandIsOwned(s, t);
    assert s'.owner == s.owner && s'.scheduled == s.scheduled && s'.clock == s.clock && s'.nextTick == s.nextTick;
    assert TicksOk(s);
    hide Do, Inv;
    forall u | u in s.ticks && u != t
      ensures forall k :: k in Ids(Hand(s.ticks[u])) ==>
                k !in s.core.filed && k in s.owner && k !in Ids(s.ticks[t].done)
    {
      HandIsOwned(s, u);
      HandIsOut(s, u);
    }
    OthersKept(s, s', {t});
  }

  lemma StepKeepsInv(s: State, step: Step, s': State)
    requires Inv(s) && Do(s, step, s')
    ensures Inv(s')
  {
    match step
    case Elapse(_) => KeepQuiet(s, step, s');
    case ReserveId => KeepQuiet(s, step, s');
    case Begin => KeepQuiet(s, step, s');
    case Schedule(id, delay, kind) => KeepSchedule(s, id, delay, kind, s');
    case Cancel(id) => KeepCancel(s, id, s');
    case Advance(t, expired, core) => KeepAdvance(s, t, expired, core, s');
    case Mark(t) => KeepMark(s, t, s');
    case Fire(t) => KeepFire(s, t, s');
    case Finish(t) => KeepFinish(s, t, s');
  }

  lemma {:induction false} RunKeepsInv(run: seq<State>, i: nat)
    requires Run(run) && i < |run|
    ensures Inv(run[i])
  {
    if i > 0 {
      RunKeepsInv(run, i - 1);
      assert StepAt(run, i);
      var step :| Do(run[i - 1], step, run[i]);
      StepKeepsInv(run[i - 1], step, run[i]);
    }
  }

  /** In every reachable state the lock sections about to run meet what the wheel's methods require of them. */
  lemma LockSectionsCallable(run: seq<State>, i: nat)
    requires Run(run) && i < |run|
    ensures var s := run[i];
            && s.core.cursor <= s.clock
            && s.core.inFlight !! s.core.timers.Keys && s.core.canceled <= s.core.inFlight
            && (forall id :: id in s.reserved ==> id !in s.core.filed && id !in s.core.inFlight)
            && (forall t :: t in s.ticks && s.ticks[t].Expired? ==> Ids(s.ticks[t].expired) !! s.core.filed)
            && (forall t :: t in s.ticks && s.ticks[t].Firing? && s.ticks[t].todo == [] ==>
                  DistinctIds(s.ticks[t].done)
                  && forall k :: 0 <= k < |s.ticks[t].done| ==>
                       s.ticks[t].done[k].kind.Repeating? && s.ticks[t].done[k].id in s.core.inFlight)
  {
    var s := run[i];
    RunKeepsInv(run, i);
    forall id | id in s.core.inFlight
      ensures id !in s.reserved
    {
      HandIsOwned(s, s.owner[id]);
    }
    forall t | t in s.ticks && s.ticks[t].Firing? && s.ticks[t].todo == []
      ensures DistinctIds(s.ticks[t].done)
      ensures forall k :: 0 <= k < |s.ticks[t].done| ==>
                s.ticks[t].done[k].kind.Repeating? && s.ticks[t].done[k].id in s.core.inFlight
    {
      assert TickOk(s, t, s.ticks[t]);
      assert Hand(s.ticks[t]) == s.ticks[t].done;
      forall k | 0 <= k < |s.ticks[t].done|
        ensures s.ticks[t].done[k].id in s.core.inFlight
      {
        assert s.ticks[t].done[k].id in RepeatingIds(Hand(s.ticks[t]));
      }
    }
    forall t | t in s.ticks && s.ticks[t].Expired?
      ensures Ids(s.ticks[t].expired) !! s.core.filed
    {
      HandIsOut(s, t);
    }
  }

  // ---- Counting what happened --------------------------------------------------------------------------------

  function FireCount(log: seq<Event>, id: nat): nat {
    if log == [] then 0
    else FireCount(log[..|log| - 1], id) + if IsFiring(log[|log| - 1], id) then 1 else 0
  }

  predicate IsFiring(e: Event, id: nat) {
    e.Fired? && e.entry.id == id
  }

  function CancelCount(log: seq<Event>, id: nat): nat {
    if log == [] then 0
    else CancelCount(log[..|log| - 1], id) + if log[|log| - 1] == Cancelled(id) then 1 else 0
  }

  lemma CountNext(log: seq<Event>, e: Event, id: nat)
    ensures FireCount(log + [e], id) == FireCount(log, id) + if IsFiring(e, id) then 1 else 0
    ensures CancelCount(log + [e], id) == CancelCount(log, id) + if e == Cancelled(id) then 1 else 0
  {
    assert (log + [e])[..|log|] == log;
  }

  lemma {:induction false} NoCancelCount(log: seq<Event>, id: nat)
    requires Cancelled(id) !in log
    ensures CancelCount(log, id) == 0
  {
    if log != [] {
      NoCancelCount(log[..|log| - 1], id);
    }
  }

  /** The callback of `id` is due in a tick call that popped it. */
  predicate ToFire(s: State, id: nat) {
    id in s.owner && s.owner[id] in s.ticks && id in Ids(ToRun(s.ticks[s.owner[id]]))
  }

  predicate InHand(s: State, id: nat) {
    id in s.owner && s.owner[id] in s.ticks && id in Ids(Hand(s.ticks[s.owner[id]]))
  }

  function Count(b: bool): nat {
    if b then 1 else 0
  }

  lemma HandsArePlaces(s: State, id: nat)
    requires Inv(s)
    ensures ToFire(s, id) ==> InHand(s, id)
    ensures InHand(s, id) ==> id !in s.core.filed && id !in s.core.timers
    ensures forall t :: t in s.ticks && id in Ids(Hand(s.ticks[t])) ==> id in s.owner && s.owner[id] == t
  {
    forall t | t in s.ticks
      ensures id in Ids(Hand(s.ticks[t])) ==> id in s.owner && s.owner[id] == t && id !in s.core.filed
      ensures id in Ids(ToRun(s.ticks[t])) ==> id in Ids(Hand(s.ticks[t]))
    {
      HandIsOwned(s, t);
      HandIsOut(s, t);
      if s.ticks[t].Firing? {
        IdsConcat(s.ticks[t].done, s.ticks[t].todo);
      }
    }
  }
}
