/**
 What the timer wheel means: a map from timer id to deadline from which everything due is removed.
 The clock counts whole milliseconds since the wheel was created.
 */
module TimerSpec {
  import opened Wrappers
  import opened WheelArith

  datatype TimerKind = Once | Repeating(interval: nat)

  datatype TimerEntry = TimerEntry(id: nat, deadline: nat, kind: TimerKind)

  type Timers = map<nat, TimerEntry>

  /** The wheel as its callers see it. `filed` are the ids still lying in some slot or in overflow, live or stale. */
  datatype Core = Core(timers: Timers, filed: set<nat>, cursor: nat, inFlight: set<nat>, canceled: set<nat>)

  ghost predicate WellKeyed(timers: Timers) {
    forall id :: id in timers ==> timers[id].id == id
  }

  function Max(a: nat, b: nat): nat {
    if a < b then b else a
  }

  /** A jump longer than the wheel's range fires `deadline <= target`; every other advance fires `deadline < target`. */
  predicate IsJump(cursor: nat, target: nat) {
    target > cursor + MAX_RANGE_TICKS
  }

  /** First deadline an advance from `cursor` to `target` does not fire. */
  function Horizon(cursor: nat, target: nat): nat {
    if IsJump(cursor, target) then target + 1 else target
  }

  function Before(timers: Timers, tick: nat): Timers {
    map id | id in timers && timers[id].deadline < tick :: timers[id]
  }

  function From(timers: Timers, tick: nat): Timers {
    map id | id in timers && tick <= timers[id].deadline :: timers[id]
  }

  function Only(timers: Timers, ids: set<nat>): Timers {
    map id | id in timers && id in ids :: timers[id]
  }

  function IdsUpTo(entries: seq<TimerEntry>, k: nat): set<nat>
    requires k <= |entries|
  {
    set i | 0 <= i < k :: entries[i].id
  }

  function Ids(entries: seq<TimerEntry>): set<nat> {
    IdsUpTo(entries, |entries|)
  }

  ghost predicate DistinctIds(entries: seq<TimerEntry>) {
    forall i, j :: 0 <= i < j < |entries| ==> entries[i].id != entries[j].id
  }

  /** `entries` holds every entry of `m` exactly once and nothing else. */
  ghost predicate Lists(entries: seq<TimerEntry>, m: Timers) {
    && (forall i :: 0 <= i < |entries| ==> entries[i].id in m && m[entries[i].id] == entries[i])
    && (forall id :: id in m ==> m[id] in entries)
    && DistinctIds(entries)
  }

  lemma ListsAppend(entries: seq<TimerEntry>, m: Timers, e: TimerEntry)
    requires Lists(entries, m) && e.id !in m
    ensures Lists(entries + [e], m[e.id := e])
  {}

  ghost predicate SortedByDeadline(entries: seq<TimerEntry>) {
    forall i, j :: 0 <= i < j < |entries| ==> entries[i].deadline <= entries[j].deadline
  }

  /** `fired` are exactly the timers of `start` before `tick`, each once, in deadline order; `rest` are the others. */
  ghost predicate Fires(start: Timers, tick: nat, fired: seq<TimerEntry>, rest: Timers) {
    rest == From(start, tick) && Lists(fired, Before(start, tick)) && SortedByDeadline(fired)
  }

  /** Firing up to `a` and then, from what is left, up to `b` is firing up to `b`. */
  lemma FiresInTwo(start: Timers, a: nat, b: nat, first: seq<TimerEntry>, mid: Timers, second: seq<TimerEntry>,
                   rest: Timers)
    requires a <= b && Fires(start, a, first, mid) && Fires(mid, b, second, rest)
    ensures Fires(start, b, first + second, rest)
  {
    var all := first + second;
    forall id | id in Before(start, b)
      ensures start[id] in all
    {
      if start[id].deadline < a {
        assert id in Before(start, a);
        assert start[id] in first;
      } else {
        assert id in Before(mid, b);
        assert start[id] in second;
      }
    }
  }

  lemma LessOne(timers: Timers, id: nat)
    requires id in timers
    ensures |timers - {id}| == |timers| - 1
  {
    assert (timers - {id}).Keys == timers.Keys - {id};
    assert |timers - {id}| == |(timers - {id}).Keys|;
  }

  /** Of `start`, exactly `gone` was popped, in the order of `popped`; `timers` are left. */
  ghost predicate Popped(start: Timers, gone: Timers, popped: seq<TimerEntry>, timers: Timers) {
    WellKeyed(timers) && timers == start - gone.Keys && Lists(popped, gone)
  }

  lemma PopOne(start: Timers, gone: Timers, gone': Timers, popped: seq<TimerEntry>, timers: Timers, id: nat)
    requires Popped(start, gone, popped, timers) && id in timers
    requires gone' == gone[id := start[id]]
    ensures Popped(start, gone', popped + [timers[id]], timers - {id}) && timers[id].id == id
  {
    assert Lists(popped + [timers[id]], gone') by {
      ListsAppend(popped, gone, timers[id]);
    }
    assert timers - {id} == start - gone'.Keys by {
      hide Lists;
      assert gone'.Keys == gone.Keys + {id};
    }
    hide Lists;
  }

  lemma IdsConcat(a: seq<TimerEntry>, b: seq<TimerEntry>)
    ensures Ids(a + b) == Ids(a) + Ids(b)
  {
    var all := a + b;
    forall id | id in Ids(a) + Ids(b)
      ensures id in Ids(all)
    {
      if id in Ids(a) {
        var i :| 0 <= i < |a| && a[i].id == id;
        assert all[i].id == id;
      } else {
        var i :| 0 <= i < |b| && b[i].id == id;
        assert all[|a| + i].id == id;
      }
    }
  }

  lemma IdsAppend(entries: seq<TimerEntry>, e: TimerEntry)
    ensures Ids(entries + [e]) == Ids(entries) + {e.id}
  {
    IdsConcat(entries, [e]);
    assert [e][0] == e;
    assert Ids([e]) == {e.id};
  }

  lemma OnlyNext(start: Timers, done: set<nat>, id: nat)
    ensures id in start ==> Only(start, done + {id}) == Only(start, done)[id := start[id]]
    ensures id !in start || id in done ==> Only(start, done + {id}) == Only(start, done)
    ensures id in start - Only(start, done).Keys <==> id in start && id !in done
  {}

  lemma PopNothing(start: Timers, gone: Timers)
    requires WellKeyed(start) && gone == map[]
    ensures Popped(start, gone, [], start) && Ids([]) == {}
  {}

  /** A long jump has looked at every id: everything due was popped. */
  lemma DrainedAll(start: Timers, tick: nat, done: set<nat>, popped: seq<TimerEntry>, timers: Timers)
    requires Popped(start, Only(Before(start, tick), done), popped, timers) && start.Keys <= done
    ensures timers == From(start, tick) && Lists(popped, Before(start, tick)) && WellKeyed(timers)
  {
    assert Only(Before(start, tick), done) == Before(start, tick);
    assert start - Before(start, tick).Keys == From(start, tick);
  }

  lemma PoppedIds(start: Timers, gone: Timers, popped: seq<TimerEntry>, timers: Timers)
    requires Popped(start, gone, popped, timers)
    ensures Ids(popped) <= gone.Keys
  {}

  /** An advance that fires nothing changes nothing; the cached minimum survives it. */
  lemma FiredNothing(start: Timers, tick: nat, timers: Timers)
    requires timers == From(start, tick) && Lists([], Before(start, tick))
    ensures timers == start
  {
    assert forall id :: id in start && start[id].deadline < tick ==> id in Before(start, tick);
  }

  function RepeatingIds(entries: seq<TimerEntry>): set<nat> {
    set i | 0 <= i < |entries| && entries[i].kind.Repeating? :: entries[i].id
  }

  /** Lock sections of the wheel, as relations or functions on what callers see. */
  ghost predicate AdvanceStep(c: Core, target: nat, expired: seq<TimerEntry>, c': Core) {
    && c'.timers == From(c.timers, Horizon(c.cursor, target))
    && Lists(expired, Before(c.timers, Horizon(c.cursor, target)))
    && (!IsJump(c.cursor, target) ==> SortedByDeadline(expired))
    && c'.cursor == Max(c.cursor, target)
    && c'.timers.Keys <= c'.filed <= c.filed - Ids(expired)
    && c'.inFlight == c.inFlight && c'.canceled == c.canceled
  }

  function ScheduleStep(c: Core, e: TimerEntry): Core {
    c.(timers := c.timers[e.id := e], filed := c.filed + {e.id})
  }

  function CancelStep(c: Core, id: nat): (Core, bool) {
    if id in c.timers then (c.(timers := c.timers - {id}), true)
    else if id in c.inFlight then (c.(canceled := c.canceled + {id}), true)
    else (c, false)
  }

  function MarkStep(c: Core, expired: seq<TimerEntry>): Core {
    c.(inFlight := c.inFlight + RepeatingIds(expired))
  }

  function RearmOne(c: Core, e: TimerEntry, now: nat): Core {
    var c1 := c.(inFlight := c.inFlight - {e.id});
    if e.id in c.canceled then c1.(canceled := c.canceled - {e.id})
    else if e.kind.Repeating? then ScheduleStep(c1, e.(deadline := now + e.kind.interval))
    else c1
  }

  /** The first `k` entries of `done` rescheduled. */
  function RearmStep(c: Core, done: seq<TimerEntry>, k: nat, now: nat): Core
    requires k <= |done|
  {
    if k == 0 then c else RearmOne(RearmStep(c, done, k - 1, now), done[k - 1], now)
  }

  /** `d` is the least live deadline. */
  ghost predicate IsEarliest(timers: Timers, d: nat) {
    && (exists id :: id in timers && timers[id].deadline == d)
    && (forall id :: id in timers ==> d <= timers[id].deadline)
  }

  ghost predicate CacheOk(timers: Timers, earliest: Option<nat>) {
    earliest.Some? ==> IsEarliest(timers, earliest.value)
  }

  /** note_inserted keeps the cache: take the minimum, or start it when the new timer is the only one. */
  lemma CacheAfterInsert(timers: Timers, e: TimerEntry, earliest: Option<nat>)
    requires CacheOk(timers, earliest) && e.id !in timers
    ensures |timers[e.id := e]| == |timers| + 1
    ensures earliest.Some? ==>
              IsEarliest(timers[e.id := e], if earliest.value < e.deadline then earliest.value else e.deadline)
    ensures |timers| == 0 ==> IsEarliest(timers[e.id := e], e.deadline)
  {
    var timers' := timers[e.id := e];
    assert timers'[e.id] == e;
    if earliest.Some? {
      var id :| id in timers && timers[id].deadline == earliest.value;
      assert timers'[id] == timers[id];
    }
    assert |timers| == 0 ==> timers == map[];
  }

  /** note_removed drops the cache only when the least deadline may have gone. */
  lemma CacheAfterRemove(timers: Timers, id: nat, earliest: Option<nat>)
    requires CacheOk(timers, earliest) && id in timers
    ensures |timers - {id}| == |timers| - 1
    ensures earliest != Some(timers[id].deadline) ==> CacheOk(timers - {id}, earliest)
  {
    LessOne(timers, id);
    if earliest.Some? && earliest.value != timers[id].deadline {
      var k :| k in timers && timers[k].deadline == earliest.value;
      assert k in timers - {id} && (timers - {id})[k] == timers[k];
    }
  }

  /**
   Waiting and firing: an advance to `now` fires something exactly when the least deadline lies before its horizon. So a
   wait that was cut to zero is followed by a firing, except when the least deadline is `now` itself and the advance is
   no long jump: then nothing fires until the clock has moved on.
   */
  lemma ZeroWaitFires(c: Core, now: nat, expired: seq<TimerEntry>, c': Core, d: nat)
    requires AdvanceStep(c, now, expired, c') && IsEarliest(c.timers, d)
    ensures expired != [] <==> d < Horizon(c.cursor, now)
    ensures d <= now ==> (expired == [] <==> d == now && !IsJump(c.cursor, now))
  {
    var due := Before(c.timers, Horizon(c.cursor, now));
    assert expired != [] ==> expired[0].id in due;
    if d < Horizon(c.cursor, now) {
      var id :| id in c.timers && c.timers[id].deadline == d;
      assert id in due && due[id] in expired;
    }
  }

  /**
   What an advance does, spelled out. Up to 2^26 ticks ahead a timer stays exactly when its deadline is not before the
   target; beyond, exactly when it is after the target. What does not stay is returned, each timer once.
   */
  lemma AdvanceMeans(c: Core, target: nat, expired: seq<TimerEntry>, c': Core)
    requires AdvanceStep(c, target, expired, c')
    ensures forall id :: id in c'.timers ==> id in c.timers && c'.timers[id] == c.timers[id]
    ensures forall id :: id in c.timers ==>
              (id in c'.timers <==> if target <= c.cursor + 0x400_0000 then c.timers[id].deadline >= target
                                    else c.timers[id].deadline > target)
    ensures forall id :: id in c.timers && id !in c'.timers ==> c.timers[id] in expired
    ensures forall i :: 0 <= i < |expired| ==>
              var id := expired[i].id; id in c.timers && id !in c'.timers && c.timers[id] == expired[i]
    ensures forall i, j :: 0 <= i < j < |expired| ==> expired[i].id != expired[j].id
    ensures target <= c.cursor + 0x400_0000 ==>
              forall i, j :: 0 <= i < j < |expired| ==> expired[i].deadline <= expired[j].deadline
    ensures c'.cursor == if c.cursor < target then target else c.cursor
  {
    var h := Horizon(c.cursor, target);
    var due := Before(c.timers, h);
    forall id | id in c.timers && id !in c'.timers ensures c.timers[id] in expired {
      assert id in due && due[id] in expired;
    }
    forall i | 0 <= i < |expired|
      ensures var id := expired[i].id; id in c.timers && id !in c'.timers && c.timers[id] == expired[i]
    {
      assert expired[i].id in due;
    }
  }
}
