/**
 Where the ids lie. `levels` are the slot vectors of the wheel; `index` is the ghost inverse that says, for
 every id filed anywhere, in which vector and at which position it lies, and how often cascades have moved it
 since it was armed.
 */
module WheelIndex {
  import opened WheelArith
  import opened TimerSpec
  import opened Wrappers

  type Levels = seq<seq<seq<nat>>>

  datatype Place =
    | Slot(level: nat, slot: nat, pos: nat, hops: nat)
    | Overflow(pos: nat)

  ghost predicate Shaped(levels: Levels) {
    && |levels| == NUM_LEVELS
    && forall l :: 0 <= l < NUM_LEVELS ==> |levels[l]| == LevelSize(l)
  }

  /** Every id lies in at most one place, and `index` names it. */
  ghost predicate Indexed(levels: Levels, overflow: seq<nat>, index: map<nat, Place>)
  {
    && Shaped(levels)
    && (forall l, s, i :: 0 <= l < NUM_LEVELS && 0 <= s < LevelSize(l) && 0 <= i < |levels[l][s]| ==>
          var id := levels[l][s][i];
          id in index && index[id].Slot? && index[id].level == l && index[id].slot == s && index[id].pos == i)
    && (forall i :: 0 <= i < |overflow| ==> overflow[i] in index && index[overflow[i]] == Overflow(i))
    && (forall id :: id in index ==> LiesAt(levels, overflow, id, index[id]))
  }

  ghost predicate LiesAt(levels: Levels, overflow: seq<nat>, id: nat, p: Place)
    requires Shaped(levels)
  {
    match p
    case Slot(l, s, i, _) => l < NUM_LEVELS && s < LevelSize(l) && i < |levels[l][s]| && levels[l][s][i] == id
    case Overflow(i) => i < |overflow| && overflow[i] == id
  }

  predicate InSlot(p: Place, level: nat, slot: nat) {
    p.Slot? && p.level == level && p.slot == slot
  }

  function Elems(s: seq<nat>): set<nat> {
    set x | x in s
  }

  ghost predicate NoDup(s: seq<nat>) {
    forall i, j :: 0 <= i < j < |s| ==> s[i] != s[j]
  }

  lemma ElemsGrow(ids: seq<nat>, j: nat)
    requires j < |ids|
    ensures Elems(ids[..j + 1]) == Elems(ids[..j]) + {ids[j]}
  {
    assert ids[..j + 1] == ids[..j] + [ids[j]];
  }

  lemma ElemsNext(ids: seq<nat>, j: nat)
    requires NoDup(ids) && j < |ids|
    ensures ids[j] in Elems(ids) && ids[j] in Elems(ids[j..])
    ensures Elems(ids[j..]) - {ids[j]} == Elems(ids[j + 1..])
    ensures ids[j] !in Elems(ids[..j])
  {
    assert ids[j..] == [ids[j]] + ids[j + 1..];
  }

  function WithSlot(levels: Levels, l: nat, s: nat, ids: seq<nat>): Levels
    requires l < |levels| && s < |levels[l]|
  {
    levels[l := levels[l][s := ids]]
  }

  lemma PushKeepsIndex(levels: Levels, overflow: seq<nat>, index: map<nat, Place>, id: nat, l: nat, s: nat, hops: nat)
    requires Indexed(levels, overflow, index) && id !in index
    requires l < NUM_LEVELS && s < LevelSize(l)
    ensures Indexed(WithSlot(levels, l, s, levels[l][s] + [id]), overflow,
                    index[id := Slot(l, s, |levels[l][s]|, hops)])
  {}

  lemma PushOverflowKeepsIndex(levels: Levels, overflow: seq<nat>, index: map<nat, Place>, id: nat)
    requires Indexed(levels, overflow, index) && id !in index
    ensures Indexed(levels, overflow + [id], index[id := Overflow(|overflow|)])
  {}

  lemma DrainKeepsIndex(levels: Levels, overflow: seq<nat>, index: map<nat, Place>, l: nat, s: nat)
    requires Indexed(levels, overflow, index)
    requires l < NUM_LEVELS && s < LevelSize(l)
    ensures Indexed(WithSlot(levels, l, s, []), overflow, index - Elems(levels[l][s]))
    ensures NoDup(levels[l][s]) && Elems(levels[l][s]) <= index.Keys
    ensures forall id :: id in Elems(levels[l][s]) <==> id in index && InSlot(index[id], l, s)
  {}

  lemma DrainOverflowKeepsIndex(levels: Levels, overflow: seq<nat>, index: map<nat, Place>)
    requires Indexed(levels, overflow, index)
    ensures Indexed(levels, [], index - Elems(overflow))
    ensures NoDup(overflow) && Elems(overflow) <= index.Keys
    ensures forall id :: id in Elems(overflow) <==> id in index && index[id].Overflow?
  {}

  /**
   The placement invariant. Settled (`k == NUM_LEVELS`): a level-0 timer lies within 256 ticks of the cursor, a
   level-L timer in a block strictly after the cursor's and at most 64 ahead, an overflow timer at or beyond
   `bound`; a timer in a slot is within range of the cursor, and at level L at most 3 - L cascades have moved it.
   */
  ghost predicate Fits(p: Place, deadline: nat, cur: nat, k: nat, bound: nat) {
    match p
    case Slot(l, s, _, hops) =>
      && l < NUM_LEVELS && s == SlotOf(l, deadline) && Window(l, deadline, cur, k) && hops + l < NUM_LEVELS
      && deadline < cur + MAX_RANGE_TICKS
    case Overflow(_) => bound <= deadline
  }

  ghost predicate Placed(index: map<nat, Place>, timers: Timers, cur: nat, k: nat, bound: nat) {
    forall id :: id in timers ==> id in index && Fits(index[id], timers[id].deadline, cur, k, bound)
  }

  // ---- How often a timer is moved ----------------------------------------------------------------------------

  /** Cascades that have moved the id since it was armed; nothing else moves an id from slot to slot. */
  function Moves(p: Place): nat {
    if p.Slot? then p.hops else 0
  }

  ghost predicate MovesGrow(before: map<nat, Place>, index: map<nat, Place>, timers: Timers) {
    forall id :: id in timers ==> id in before && id in index && Moves(before[id]) <= Moves(index[id])
  }

  lemma MovesGrowTwice(a: map<nat, Place>, b: map<nat, Place>, c: map<nat, Place>, timers: Timers, timers': Timers)
    requires MovesGrow(a, b, timers) && MovesGrow(b, c, timers') && timers'.Keys <= timers.Keys
    ensures MovesGrow(a, c, timers')
  {}

  /** Refiling from overflow: what lies in a slot stays there, what came from overflow has not been moved yet. */
  ghost predicate Refiled(before: map<nat, Place>, index: map<nat, Place>, timers: Timers) {
    forall id :: id in timers ==>
      id in before && id in index && if before[id].Slot? then index[id] == before[id] else Moves(index[id]) == 0
  }

  lemma RefiledMovesNothing(before: map<nat, Place>, index: map<nat, Place>, timers: Timers)
    requires Refiled(before, index, timers)
    ensures MovesGrow(before, index, timers)
  {}

  /** What arming does: new ids have not been moved, the others keep their places. */
  ghost predicate OnlyFiles(before: map<nat, Place>, index: map<nat, Place>) {
    && (forall id :: id in before ==> id in index && index[id] == before[id])
    && (forall id :: id in index && id !in before ==> Moves(index[id]) == 0)
  }

  lemma OnlyFilesTwice(a: map<nat, Place>, b: map<nat, Place>, c: map<nat, Place>)
    requires OnlyFiles(a, b) && OnlyFiles(b, c)
    ensures OnlyFiles(a, c)
  {}

  ghost predicate MovedAtMost(index: map<nat, Place>, timers: Timers, most: nat) {
    forall id :: id in timers ==> id in index && Moves(index[id]) <= most
  }

  /** In a settled wheel no live timer has been moved more than three times. */
  lemma AtMostThreeMoves(index: map<nat, Place>, timers: Timers, cur: nat, bound: nat)
    requires Placed(index, timers, cur, NUM_LEVELS, bound)
    ensures MovedAtMost(index, timers, 3)
  {}

  /** The timers popped had by then been moved at most `most` times. */
  ghost predicate FiredWithin(index: map<nat, Place>, fired: seq<TimerEntry>, most: nat) {
    forall i :: 0 <= i < |fired| ==> fired[i].id in index && Moves(index[fired[i].id]) <= most
  }

  lemma FiredWereLive(index: map<nat, Place>, timers: Timers, fired: seq<TimerEntry>, tick: nat, cur: nat, bound: nat)
    requires Placed(index, timers, cur, NUM_LEVELS, bound) && Lists(fired, Before(timers, tick))
    ensures FiredWithin(index, fired, 3)
  {
    hide Fits;
    AtMostThreeMoves(index, timers, cur, bound);
  }

  /** What a long jump does not fire lies in overflow: everything in a slot is due before the target. */
  lemma JumpSparesOnlyOverflow(index: map<nat, Place>, timers: Timers, cur: nat, bound: nat, target: nat)
    requires Placed(index, timers, cur, NUM_LEVELS, bound) && IsJump(cur, target)
    ensures FarInOverflow(index, timers, target)
  {}

  ghost predicate CameFromOverflow(before: map<nat, Place>, timers: Timers) {
    forall id :: id in timers ==> id in before && before[id].Overflow?
  }

  ghost predicate FarInOverflow(index: map<nat, Place>, timers: Timers, target: nat) {
    forall id :: id in timers && target < timers[id].deadline ==> id in index && index[id].Overflow?
  }

  // ---- The overflow minimum ----------------------------------------------------------------------------------

  function MinWith(m: Option<nat>, d: nat): Option<nat> {
    match m
    case None => Some(d)
    case Some(v) => Some(if v < d then v else d)
  }

  ghost predicate OverflowMinOk(index: map<nat, Place>, timers: Timers, overflow: seq<nat>, min: Option<nat>) {
    if min.None? then overflow == []
    else forall id :: id in timers && id in index && index[id].Overflow? ==> min.value <= timers[id].deadline
  }

  /** Forgetting ids, or moving ids from slot to slot, leaves the overflow minimum a lower bound. */
  lemma OverflowMinKept(index: map<nat, Place>, timers: Timers, gone: set<nat>, overflow: seq<nat>, min: Option<nat>)
    requires OverflowMinOk(index, timers, overflow, min)
    ensures OverflowMinOk(index - gone, timers - gone, overflow, min)
  {}

  /** Cancelling leaves a stale id behind and everything else where it was. */
  lemma StaleIsHarmless(index: map<nat, Place>, timers: Timers, id: nat, overflow: seq<nat>, min: Option<nat>,
                        cur: nat, bound: nat)
    requires Placed(index, timers, cur, NUM_LEVELS, bound) && OverflowMinOk(index, timers, overflow, min)
    ensures Placed(index, timers - {id}, cur, NUM_LEVELS, bound)
    ensures OverflowMinOk(index, timers - {id}, overflow, min)
  {}

  lemma OverflowStays(index: map<nat, Place>, index': map<nat, Place>, timers: Timers, overflow: seq<nat>,
                      min: Option<nat>)
    requires OverflowMinOk(index, timers, overflow, min)
    requires forall id :: id in timers ==> id in index && id in index' && index'[id].Overflow? == index[id].Overflow?
    ensures OverflowMinOk(index', timers, overflow, min)
  {}

  /** Every live timer of a settled wheel is at or after the cursor; those in the cursor's slot are due on it. */
  lemma LiveNotPast(index: map<nat, Place>, timers: Timers, cur: nat, bound: nat)
    requires Placed(index, timers, cur, NUM_LEVELS, bound) && cur < bound
    ensures forall id :: id in timers ==> cur <= timers[id].deadline
    ensures forall id :: id in timers ==> (timers[id].deadline == cur <==> InSlot(index[id], 0, SlotOf(0, cur)))
  {
    forall id | id in timers
      ensures cur <= timers[id].deadline
      ensures timers[id].deadline == cur <==> InSlot(index[id], 0, SlotOf(0, cur))
    {
      var p, d := index[id], timers[id].deadline;
      if p.Slot? && p.level > 0 {
        HigherLevelsAreLater(p.level, d, cur);
      } else if p.Slot? {
        CursorSlotIsDue(d, cur);
      }
    }
  }

  /** Emptying the cursor's level-0 slot takes exactly the due timers; the others are placed for the next tick. */
  lemma SlotFired(index: map<nat, Place>, timers: Timers, ids: set<nat>, popped: seq<TimerEntry>, cur: nat, next: nat,
                  bound: nat, index': map<nat, Place>, timers': Timers)
    requires Placed(index, timers, cur, NUM_LEVELS, bound) && cur < bound
    requires forall id :: id in ids <==> id in index && InSlot(index[id], 0, SlotOf(0, cur))
    requires next == cur + 1
    requires Popped(timers, Only(timers, ids), popped, timers')
    requires index' == index - ids
    ensures Fires(timers, next, popped, timers')
    ensures index'.Keys <= index.Keys - Ids(popped)
    ensures Placed(index', timers', next, 1, bound)
  {
    LiveNotPast(index, timers, cur, bound);
    assert Only(timers, ids) == Before(timers, next);
    assert timers' == timers - ids;
    SameDeadlineSorted(popped, Only(timers, ids), cur);
    forall id | id in timers - ids
      ensures Fits(index[id], timers[id].deadline, next, 1, bound)
    {
      if index[id].Slot? {
        WindowAfterTick(index[id].level, timers[id].deadline, cur);
      }
    }
  }

  lemma SameDeadlineSorted(entries: seq<TimerEntry>, m: Timers, d: nat)
    requires Lists(entries, m) && forall id :: id in m ==> m[id].deadline == d
    ensures SortedByDeadline(entries)
  {}

  /** With the overflow list emptied, what is left is placed for any bound. */
  lemma OverflowTaken(index: map<nat, Place>, timers: Timers, ids: seq<nat>, cur: nat, bound: nat, bound': nat)
    requires Placed(index, timers, cur, NUM_LEVELS, bound) && cur <= bound
    requires forall id :: id in Elems(ids) <==> id in index && index[id].Overflow?
    ensures Placed(index - Elems(ids), timers - Elems(ids), cur, NUM_LEVELS, bound')
    ensures Refiled(index, index - Elems(ids), timers - Elems(ids))
    ensures forall id :: id in Elems(ids) && id in timers ==> cur <= timers[id].deadline
    ensures OverflowMinOk(index - Elems(ids), timers, [], None)
    ensures Elems(ids) <= index.Keys
  {}

  /** A pending id that fired needs no place. */
  lemma PendingGone(index: map<nat, Place>, timers: Timers, pending: set<nat>, pending': set<nat>, id: nat,
                    overflow: seq<nat>, min: Option<nat>)
    requires OverflowMinOk(index, timers, overflow, min)
    requires pending' == pending - {id} && id in pending
    ensures timers - {id} - pending' == timers - pending
    ensures OverflowMinOk(index, timers - {id}, overflow, min)
  {}

  /** A stale pending id needs no place either. */
  lemma PendingStale(timers: Timers, pending: set<nat>, pending': set<nat>, id: nat)
    requires pending' == pending - {id} && id !in timers
    ensures timers - pending' == timers - pending
  {}

  /** A live pending id that was filed where it fits is no longer pending. */
  lemma PendingFiled(before: map<nat, Place>, index: map<nat, Place>, index': map<nat, Place>, timers: Timers,
                     pending: set<nat>, pending': set<nat>, id: nat, cur: nat, bound: nat)
    requires Refiled(before, index, timers - pending)
    requires id in before && before[id].Overflow? && id in index' && Moves(index'[id]) == 0
    requires Placed(index, timers - pending, cur, NUM_LEVELS, bound)
    requires pending' == pending - {id} && id !in index && id in index' && index' == index[id := index'[id]]
    requires id in timers && Fits(index'[id], timers[id].deadline, cur, NUM_LEVELS, bound)
    ensures Placed(index', timers - pending', cur, NUM_LEVELS, bound)
    ensures Refiled(before, index', timers - pending')
  {}

  lemma FarBound(index: map<nat, Place>, timers: Timers, overflow: seq<nat>, levels: Levels, min: Option<nat>, cur: nat,
                 bound: nat, bound': nat)
    requires Indexed(levels, overflow, index)
    requires Placed(index, timers, cur, NUM_LEVELS, bound) && OverflowMinOk(index, timers, overflow, min)
    requires min.Some? ==> bound' <= min.value
    ensures Placed(index, timers, cur, NUM_LEVELS, bound')
  {
    forall id | id in timers
      ensures Fits(index[id], timers[id].deadline, cur, NUM_LEVELS, bound')
    {
      if index[id].Overflow? {
        assert LiesAt(levels, overflow, id, index[id]);
      }
    }
  }

  /** Slots below level `l`, and those of level `l` below `s`, are empty. */
  ghost predicate EmptyBelow(levels: Levels, l: nat, s: nat)
    requires Shaped(levels)
  {
    forall l', s' :: 0 <= l' < NUM_LEVELS && 0 <= s' < LevelSize(l') && (l' < l || (l' == l && s' < s)) ==>
      levels[l'][s'] == []
  }

  /** Halfway through collecting every id: `ids` was taken out of `before`. */
  ghost predicate Collected(before: map<nat, Place>, index: map<nat, Place>, ids: seq<nat>) {
    index == before - Elems(ids) && NoDup(ids) && Elems(ids) <= before.Keys
  }

  lemma CollectNone(levels: Levels, overflow: seq<nat>, index: map<nat, Place>)
    requires Indexed(levels, overflow, index)
    ensures Shaped(levels) && EmptyBelow(levels, 0, 0) && Collected(index, index, [])
  {}

  lemma CollectMore(before: map<nat, Place>, index: map<nat, Place>, ids: seq<nat>, more: seq<nat>)
    requires Collected(before, index, ids) && NoDup(more) && Elems(more) <= index.Keys
    ensures Collected(before, index - Elems(more), ids + more)
  {
    assert Elems(ids + more) == Elems(ids) + Elems(more);
    forall i, j | 0 <= i < j < |ids + more|
      ensures (ids + more)[i] != (ids + more)[j]
    {
      if i < |ids| <= j {
        assert ids[i] in Elems(ids) && more[j - |ids|] in Elems(more);
      }
    }
  }

  lemma NothingFiled(levels: Levels, index: map<nat, Place>, before: map<nat, Place>, ids: seq<nat>)
    requires Indexed(levels, [], index) && EmptyBelow(levels, NUM_LEVELS, 0) && Collected(before, index, ids)
    ensures index == map[] && Elems(ids) == before.Keys
  {
    assert forall id :: id in index ==> LiesAt(levels, [], id, index[id]);
    assert index.Keys == before.Keys - Elems(ids);
  }

  /** The state an advance starts and ends in, tied to what it fires. */
  lemma NothingBeforeCursor(index: map<nat, Place>, timers: Timers, cur: nat, tick: nat, bound: nat)
    requires Placed(index, timers, cur, NUM_LEVELS, bound) && cur < bound && tick <= cur
    ensures Fires(timers, tick, [], timers)
  {
    LiveNotPast(index, timers, cur, bound);
  }

  /** Filing one more live timer, anywhere it fits, keeps every other one placed. */
  lemma FiledOne(index: map<nat, Place>, timers: Timers, e: TimerEntry, p: Place, cur: nat, bound: nat)
    requires Placed(index, timers, cur, NUM_LEVELS, bound) && e.id !in index
    requires Fits(p, e.deadline, cur, NUM_LEVELS, bound)
    ensures Placed(index[e.id := p], timers[e.id := e], cur, NUM_LEVELS, bound)
    ensures Moves(p) == 0 ==> OnlyFiles(index, index[e.id := p])
  {}

  /** What InsertIntoWheel does to the overflow list and its minimum, for a live id. */
  lemma OverflowMinAfterFiling(index: map<nat, Place>, index': map<nat, Place>, timers: Timers, id: nat,
                               levels: Levels, overflow: seq<nat>, min: Option<nat>, overflow': seq<nat>,
                               min': Option<nat>)
    requires Indexed(levels, overflow, index) && OverflowMinOk(index, timers - {id}, overflow, min)
    requires id !in index && id in index' && index' == index[id := index'[id]] && id in timers
    requires if index'[id].Slot? then overflow' == overflow && min' == min
             else overflow' == overflow + [id] && min' == MinWith(min, timers[id].deadline)
    ensures OverflowMinOk(index', timers, overflow', min')
  {
    assert forall k :: k in index && index[k].Overflow? ==> LiesAt(levels, overflow, k, index[k]);
  }
}
