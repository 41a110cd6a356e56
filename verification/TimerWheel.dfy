/**
 The hierarchical timer wheel, mill-io/src/timer_wheel.rs. One method per lock section or helper of the source;
 each is proved against the map it stands for (TimerSpec) and keeps the placement invariant (WheelIndex).
 `Instant` is a clock in whole milliseconds since the wheel's start, so `instant_to_tick` is the identity.
 */
module TimerWheel {
  import opened Wrappers
  import opened WheelArith
  import opened TimerSpec
  import opened WheelIndex

  /** A cascade of `level` moved an id from `p` to `q`: below `level`, and not under the cursor of a cascaded level. */
  predicate Descended(p: Place, q: Place, level: nat, cur: nat) {
    p.Slot? && q.Slot? && q.level < level < NUM_LEVELS && q.hops == p.hops + 1
    && (q.level > 0 ==> q.slot != SlotOf(q.level, cur))
  }

  /** No live timer lies in the slots under the cursor at levels 1 up to `level`: the slots emptied this round. */
  ghost predicate Emptied(index: map<nat, Place>, timers: Timers, level: nat, cur: nat)
    requires level <= NUM_LEVELS
  {
    forall id, l :: id in timers && id in index && 1 <= l < level ==> !InSlot(index[id], l, SlotOf(l, cur))
  }

  /** A cascade empties its own slot and refills none emptied before. */
  lemma SlotsStayEmptied(before: map<nat, Place>, index: map<nat, Place>, timers: Timers, level: nat, cur: nat)
    requires 0 < level < NUM_LEVELS
    requires forall id :: id in timers ==> id in before && id in index
    requires forall id :: id in timers ==>
               Descended(before[id], index[id], level, cur)
               || (index[id] == before[id] && !InSlot(before[id], level, SlotOf(level, cur)))
    ensures Emptied(before, timers, level, cur) ==> Emptied(index, timers, level + 1, cur)
  {
    hide SlotOf;
  }

  /** After the round at `cur`: no live timer lies in any slot the round emptied. */
  ghost predicate RoundEmptied(index: map<nat, Place>, timers: Timers, cur: nat) {
    forall id, l :: id in timers && id in index && 1 <= l < NUM_LEVELS && cur % Span(l) == 0 ==>
      !InSlot(index[id], l, SlotOf(l, cur))
  }

  /** The round may stop at the first unaligned level: every level above is unaligned too. */
  lemma RoundIsOver(index: map<nat, Place>, timers: Timers, level: nat, cur: nat, bound: nat)
    requires 1 <= level <= NUM_LEVELS && (level < NUM_LEVELS ==> cur % Span(level) != 0)
    requires Placed(index, timers, cur, level, bound) && Emptied(index, timers, level, cur)
    ensures Placed(index, timers, cur, NUM_LEVELS, bound) && RoundEmptied(index, timers, cur)
  {
    if level < NUM_LEVELS {
      forall id | id in timers
        ensures Fits(index[id], timers[id].deadline, cur, NUM_LEVELS, bound)
      {
        if index[id].Slot? {
          WindowSettled(index[id].level, timers[id].deadline, cur, level);
        }
      }
    }
    forall l | level <= l < NUM_LEVELS ensures cur % Span(l) != 0 {
      if cur % Span(l) == 0 {
        BlockAligned(l, level, cur);
      }
    }
    hide Placed, Fits, SlotOf;
  }

  class WheelInner {
    var levels: Levels
    var currentTick: nat
    var timers: Timers
    var overflow: seq<nat>
    var overflowMin: Option<nat>
    var timerCount: nat
    var earliest: Option<nat>
    var inFlight: set<nat>
    var canceledInFlight: set<nat>
    ghost var index: map<nat, Place>

    ghost predicate Valid()
      reads this
    {
      && Indexed(levels, overflow, index)
      && Placed(index, timers, currentTick, NUM_LEVELS, currentTick + MAX_RANGE_TICKS)
      && OverflowMinOk(index, timers, overflow, overflowMin)
      && WellKeyed(timers)
      && timerCount == |timers|
      && CacheOk(timers, earliest)
      && canceledInFlight <= inFlight
      && inFlight !! index.Keys
    }

    ghost function View(): Core
      reads this
    {
      Core(timers, index.Keys, currentTick, inFlight, canceledInFlight)
    }

    constructor ()
      ensures Valid()
      ensures View() == Core(map[], {}, 0, {}, {})
    {
      levels := [seq(256, _ => []), seq(64, _ => []), seq(64, _ => []), seq(64, _ => [])];
      currentTick := 0;
      timers := map[];
      overflow := [];
      overflowMin := None;
      timerCount := 0;
      earliest := None;
      inFlight := {};
      canceledInFlight := {};
      index := map[];
    }

    /** The lowest level whose span covers `delta`; the top level when none does. */
    static method LevelForDelta(delta: nat) returns (level: nat)
      ensures level == if delta < MAX_RANGE_TICKS then LevelFor(delta) else NUM_LEVELS - 1
    {
      var cumulativeBits := 0;
      level := 0;
      while level < NUM_LEVELS
        invariant level <= NUM_LEVELS
        invariant cumulativeBits == BitsBelow(level)
        invariant level > 0 ==> Span(level) <= delta
      {
        cumulativeBits := cumulativeBits + LevelBits(level);
        SpanIsShift(level + 1);
        if delta < Pow2(cumulativeBits) {
          return level;
        }
        level := level + 1;
      }
      level := NUM_LEVELS - 1;
    }

    /** Files an id that is nowhere in the wheel. `hops` counts the cascades behind it. */
    method InsertIntoWheel(id: nat, deadline: nat, ghost hops: nat)
      requires Indexed(levels, overflow, index) && id !in index
      modifies `levels, `overflow, `overflowMin, `index
      ensures Indexed(levels, overflow, index)
      ensures id in index && index == old(index)[id := index[id]]
      ensures deadline < currentTick + MAX_RANGE_TICKS ==>
                && overflow == old(overflow) && overflowMin == old(overflowMin)
                && index[id].Slot? && index[id].hops == hops
                && index[id].level == LevelFor(if currentTick <= deadline then deadline - currentTick else 0)
                && index[id].slot == SlotOf(index[id].level, deadline)
      ensures currentTick + MAX_RANGE_TICKS <= deadline ==>
                && overflow == old(overflow) + [id] && overflowMin == MinWith(old(overflowMin), deadline)
                && index[id].Overflow?
    {
      var delta := if currentTick <= deadline then deadline - currentTick else 0;
      if delta >= MAX_RANGE_TICKS {
        PushOverflowKeepsIndex(levels, overflow, index, id);
        index := index[id := Overflow(|overflow|)];
        overflow := overflow + [id];
        overflowMin := MinWith(overflowMin, deadline);
        return;
      }
      var level := LevelForDelta(delta);
      var slot := SlotOf(level, deadline);
      PushKeepsIndex(levels, overflow, index, id, level, slot, hops);
      index := index[id := Slot(level, slot, |levels[level][slot]|, hops)];
      levels := WithSlot(levels, level, slot, levels[level][slot] + [id]);
    }

    /** `levels[level][slot].drain(..)`. */
    method TakeSlot(level: nat, slot: nat) returns (ids: seq<nat>)
      requires Indexed(levels, overflow, index)
      requires level < NUM_LEVELS && slot < LevelSize(level)
      modifies `levels, `index
      ensures Indexed(levels, overflow, index)
      ensures levels == WithSlot(old(levels), level, slot, [])
      ensures index == old(index) - Elems(ids)
      ensures NoDup(ids) && Elems(ids) <= old(index).Keys
      ensures forall id :: id in Elems(ids) <==> id in old(index) && InSlot(old(index)[id], level, slot)
    {
      DrainKeepsIndex(levels, overflow, index, level, slot);
      ids := levels[level][slot];
      index := index - Elems(ids);
      levels := WithSlot(levels, level, slot, []);
    }

    /** At an aligned tick: `id` lies at `level` and its block starts now. */
    ghost predicate BlockStarts(before: map<nat, Place>, id: nat, level: nat)
      requires level < NUM_LEVELS && id in timers && id in before
      reads this
    {
      before[id].Slot? && before[id].level == level && timers[id].deadline < currentTick + Span(level)
    }

    /** Halfway through a cascade of `level` that began at `before`; `pending` was drained and is not refiled yet. */
    ghost predicate Cascading(before: map<nat, Place>, pending: set<nat>, level: nat, bound: nat)
      requires level < NUM_LEVELS
      reads this
    {
      && Indexed(levels, overflow, index)
      && index.Keys <= before.Keys - pending
      && (forall id :: id in timers ==> id in before)
      && Placed(index, timers - pending, currentTick, level + 1, bound)
      && (forall id :: id in timers && id in pending ==>
            before[id].Slot? && before[id].hops + level < NUM_LEVELS
            && currentTick <= timers[id].deadline && BlockStarts(before, id, level))
      && (forall id :: id in timers && id !in pending ==>
            if BlockStarts(before, id, level) then Descended(before[id], index[id], level, currentTick)
            else index[id] == before[id])
    }

    /**
     Empties the slot of `level` under the cursor into lower levels. Exactly the live timers whose block starts
     now are moved, each to a strictly lower level and never into a slot already emptied this round; nothing else
     moves.
     */
    method Cascade(level: nat, ghost bound: nat)
      requires 0 < level < NUM_LEVELS && currentTick % Span(level) == 0
      requires Indexed(levels, overflow, index)
      requires Placed(index, timers, currentTick, level, bound)
      modifies `levels, `overflow, `overflowMin, `index
      ensures Indexed(levels, overflow, index)
      ensures Placed(index, timers, currentTick, level + 1, bound)
      ensures overflow == old(overflow) && overflowMin == old(overflowMin)
      ensures index.Keys <= old(index).Keys
      ensures forall id :: id in timers ==>
                if BlockStarts(old(index), id, level) then Descended(old(index)[id], index[id], level, currentTick)
                else index[id] == old(index)[id]
      ensures Emptied(old(index), timers, level, currentTick) ==> Emptied(index, timers, level + 1, currentTick)
    {
      hide Indexed, Placed, Cascading, BlockStarts, Descended, Emptied;
      ghost var before := index;
      var ids := TakeSlot(level, SlotOf(level, currentTick));
      CascadeBegins(before, ids, level, bound);
      RefileAll(ids, before, level, bound);
      CascadeEnds(before, level, bound);
    }

    lemma CascadeBegins(before: map<nat, Place>, ids: seq<nat>, level: nat, bound: nat)
      requires 0 < level < NUM_LEVELS && currentTick % Span(level) == 0
      requires Indexed(levels, overflow, index) && index == before - Elems(ids)
      requires Placed(before, timers, currentTick, level, bound)
      requires forall id :: id in Elems(ids) <==> id in before && InSlot(before[id], level, SlotOf(level, currentTick))
      ensures Cascading(before, Elems(ids), level, bound)
    {
      DrainedAreDue(before, ids, level, bound);
      hide Indexed, SlotOf, Window;
    }

    lemma CascadeEnds(before: map<nat, Place>, level: nat, bound: nat)
      requires 0 < level < NUM_LEVELS && currentTick % Span(level) == 0
      requires Placed(before, timers, currentTick, level, bound) && Cascading(before, {}, level, bound)
      ensures Indexed(levels, overflow, index) && Placed(index, timers, currentTick, level + 1, bound)
      ensures index.Keys <= before.Keys
      ensures forall id :: id in timers ==>
                if BlockStarts(before, id, level) then Descended(before[id], index[id], level, currentTick)
                else index[id] == before[id]
      ensures Emptied(before, timers, level, currentTick) ==> Emptied(index, timers, level + 1, currentTick)
    {
      assert timers - {} == timers;
      forall id | id in timers
        ensures Descended(before[id], index[id], level, currentTick)
                || (index[id] == before[id] && !InSlot(before[id], level, SlotOf(level, currentTick)))
      {
        if InSlot(before[id], level, SlotOf(level, currentTick)) {
          CascadeSlotIsDue(level, timers[id].deadline, currentTick);
        }
      }
      SlotsStayEmptied(before, index, timers, level, currentTick);
      hide Indexed, SlotOf, Window, Emptied;
    }

    /** The loop over the drained ids. */
    method RefileAll(ids: seq<nat>, ghost before: map<nat, Place>, level: nat, ghost bound: nat)
      requires 0 < level < NUM_LEVELS && currentTick % Span(level) == 0
      requires NoDup(ids) && Cascading(before, Elems(ids), level, bound)
      modifies `levels, `overflow, `overflowMin, `index
      ensures overflow == old(overflow) && overflowMin == old(overflowMin)
      ensures Cascading(before, {}, level, bound)
    {
      hide Cascading;
      assert ids[0..] == ids;
      var j := 0;
      while j < |ids|
        invariant j <= |ids|
        invariant overflow == old(overflow) && overflowMin == old(overflowMin)
        invariant Cascading(before, Elems(ids[j..]), level, bound)
      {
        ElemsNext(ids, j);
        Refile(ids[j], before, Elems(ids[j..]), level, bound);
        j := j + 1;
      }
      assert Elems(ids[j..]) == {};
    }

    /** One step of the cascade loop: a live id goes to a strictly lower level, a stale one is forgotten. */
    method Refile(id: nat, ghost before: map<nat, Place>, ghost pending: set<nat>, level: nat, ghost bound: nat)
      requires 0 < level < NUM_LEVELS && id in pending && currentTick % Span(level) == 0
      requires Cascading(before, pending, level, bound)
      modifies `levels, `overflow, `overflowMin, `index
      ensures overflow == old(overflow) && overflowMin == old(overflowMin)
      ensures Cascading(before, pending - {id}, level, bound)
    {
      if id in timers {
        var deadline := timers[id].deadline;
        InsertionFits(deadline, currentTick, level + 1);
        RefiledSlotIsFresh(level, deadline, currentTick);
        InsertIntoWheel(id, deadline, before[id].hops + 1);
      }
    }

    lemma DrainedAreDue(before: map<nat, Place>, ids: seq<nat>, level: nat, bound: nat)
      requires 0 < level < NUM_LEVELS && currentTick % Span(level) == 0
      requires Placed(before, timers, currentTick, level, bound)
      requires forall id :: id in ids <==> id in before && InSlot(before[id], level, SlotOf(level, currentTick))
      ensures forall id :: id in timers ==> (id in ids <==> BlockStarts(before, id, level))
      ensures forall id :: id in timers && InSlot(before[id], level, SlotOf(level, currentTick)) ==>
                BlockStarts(before, id, level)
      ensures forall id :: id in timers && id in ids ==> currentTick <= timers[id].deadline
      ensures Placed(before, timers - Elems(ids), currentTick, level + 1, bound)
    {
      forall id | id in timers
        ensures id in ids <==> BlockStarts(before, id, level)
        ensures id in ids ==> currentTick <= timers[id].deadline
        ensures id !in ids ==> Fits(before[id], timers[id].deadline, currentTick, level + 1, bound)
      {
        var p, d := before[id], timers[id].deadline;
        if p.Slot? && p.level == level {
          CascadeSlotIsDue(level, d, currentTick);
        } else if p.Slot? {
          WindowNextStage(p.level, d, currentTick, level);
        }
      }
    }

    /** The cascades after one tick: level 1 up to the first level that is not aligned. */
    method CascadeRound(ghost bound: nat)
      requires Indexed(levels, overflow, index)
      requires Placed(index, timers, currentTick, 1, bound)
      requires OverflowMinOk(index, timers, overflow, overflowMin)
      modifies `levels, `overflow, `overflowMin, `index
      ensures Indexed(levels, overflow, index)
      ensures Placed(index, timers, currentTick, NUM_LEVELS, bound)
      ensures OverflowMinOk(index, timers, overflow, overflowMin)
      ensures index.Keys <= old(index).Keys
      ensures RoundEmptied(index, timers, currentTick)
      ensures MovesGrow(old(index), index, timers)
    {
      hide Indexed, Placed, OverflowMinOk, Emptied, RoundEmptied, BlockStarts, MovesGrow;
      LiveIsFiled(index, timers, currentTick, 1, bound);
      MovesStart(index, timers);
      var level := 1;
      assert Emptied(index, timers, level, currentTick) by { NothingEmptied(index, timers, currentTick); }
      while level < NUM_LEVELS
        invariant 1 <= level <= NUM_LEVELS
        invariant Indexed(levels, overflow, index)
        invariant Placed(index, timers, currentTick, level, bound)
        invariant OverflowMinOk(index, timers, overflow, overflowMin)
        invariant index.Keys <= old(index).Keys
        invariant Emptied(index, timers, level, currentTick)
        invariant MovesGrow(old(index), index, timers)
      {
        if currentTick % Span(level) != 0 {
          break;
        }
        LiveIsFiled(index, timers, currentTick, level, bound);
        ghost var before := index;
        Cascade(level, bound);
        LiveIsFiled(index, timers, currentTick, level + 1, bound);
        OverflowStays(before, index, timers, overflow, overflowMin);
        CascadeMoves(before, index, timers, level, currentTick);
        MovesGrowTwice(old(index), before, index, timers, timers);
        level := level + 1;
      }
      RoundIsOver(index, timers, level, currentTick, bound);
    }

    /** Pops the live ids among `ids` off the timer map, in order. */
    method PopLive(ids: seq<nat>) returns (popped: seq<TimerEntry>)
      requires WellKeyed(timers) && timerCount == |timers|
      modifies `timers, `timerCount
      ensures timerCount == |timers|
      ensures Popped(old(timers), Only(old(timers), Elems(ids)), popped, timers)
    {
      ghost var start, done := timers, {};
      popped := [];
      NoElems(ids);
      PopNothing(start, Only(start, done));
      hide Elems, Popped, Only, WellKeyed;
      var j := 0;
      while j < |ids|
        invariant j <= |ids| && timerCount == |timers|
        invariant done == Elems(ids[..j])
        invariant Popped(start, Only(start, done), popped, timers)
      {
        ghost var done' := done + {ids[j]};
        ElemsGrow(ids, j);
        popped := PopIfLive(ids[j], start, done, done', popped);
        done := done';
        j := j + 1;
      }
      assert ids[..j] == ids;
    }

    method PopIfLive(id: nat, ghost start: Timers, ghost done: set<nat>, ghost done': set<nat>, popped: seq<TimerEntry>)
      returns (popped': seq<TimerEntry>)
      requires Popped(start, Only(start, done), popped, timers) && timerCount == |timers| && done' == done + {id}
      modifies `timers, `timerCount
      ensures Popped(start, Only(start, done'), popped', timers) && timerCount == |timers|
    {
      hide Popped, Only;
      OnlyNext(start, done, id);
      PoppedLive(start, Only(start, done), popped, timers, id);
      popped' := popped;
      if id in timers {
        var entry := timers[id];
        PopOne(start, Only(start, done), Only(start, done'), popped, timers, id);
        LessOne(timers, id);
        timers := timers - {id};
        timerCount := timerCount - 1;
        popped' := popped + [entry];
      }
    }

    /** Fires everything in the cursor's level-0 slot, without looking at a deadline. */
    method FireSlot(ghost next: nat, ghost bound: nat) returns (popped: seq<TimerEntry>)
      requires Indexed(levels, overflow, index) && WellKeyed(timers) && timerCount == |timers|
      requires Placed(index, timers, currentTick, NUM_LEVELS, bound) && currentTick < bound
      requires OverflowMinOk(index, timers, overflow, overflowMin)
      requires next == currentTick + 1
      modifies `levels, `index, `timers, `timerCount
      ensures Indexed(levels, overflow, index) && WellKeyed(timers) && timerCount == |timers|
      ensures Fires(old(timers), next, popped, timers)
      ensures index.Keys <= old(index).Keys - Ids(popped)
      ensures timers.Keys <= old(timers).Keys && MovesGrow(old(index), index, timers)
      ensures FiredWithin(old(index), popped, 3)
      ensures Placed(index, timers, next, 1, bound)
      ensures OverflowMinOk(index, timers, overflow, overflowMin)
    {
      hide Indexed, Placed, Popped, Fires, Ids, OverflowMinOk, MovesGrow, NoDup, WellKeyed, Elems, InSlot, Only;
      hide FiredWithin;
      ghost var start, place := timers, index;
      var ids := TakeSlot(0, SlotOf(0, currentTick));
      OverflowMinKept(place, start, Elems(ids), overflow, overflowMin);
      popped := PopLive(ids);
      OnlyGone(start, Elems(ids), popped, timers);
      SlotFired(place, start, Elems(ids), popped, currentTick, next, bound, index, timers);
      assert FiredWithin(place, popped, 3) by {
        FiresLists(start, next, popped, timers);
        FiredWereLive(place, start, popped, next, currentTick, bound);
      }
      LiveIsFiled(index, timers, next, 1, bound);
      StillThere(place, Elems(ids), timers);
    }

    /** The tick-by-tick loop, with `expired` fired so far out of `start`. */
    ghost predicate Ticking(start: Timers, place: map<nat, Place>, expired: seq<TimerEntry>, bound: nat)
      reads this
    {
      && Indexed(levels, overflow, index) && WellKeyed(timers) && timerCount == |timers|
      && Placed(index, timers, currentTick, NUM_LEVELS, bound)
      && OverflowMinOk(index, timers, overflow, overflowMin)
      && Fires(start, currentTick, expired, timers)
      && index.Keys <= place.Keys - Ids(expired) && MovesGrow(place, index, timers)
    }

    /** One round of the loop: fire the slot, step the cursor, cascade. */
    method OneTick(ghost start: Timers, ghost place: map<nat, Place>, expired: seq<TimerEntry>, ghost bound: nat)
      returns (expired': seq<TimerEntry>)
      requires Ticking(start, place, expired, bound) && currentTick < bound
      modifies `levels, `overflow, `overflowMin, `index, `timers, `timerCount, `currentTick
      ensures currentTick == old(currentTick) + 1
      ensures Ticking(start, place, expired', bound)
    {
      hide Indexed, Placed, Fires, Ids, OverflowMinOk, MovesGrow, RoundEmptied, WellKeyed;
      ghost var before, index0 := timers, index;
      var popped := FireSlot(currentTick + 1, bound);
      FiresInTwo(start, currentTick, currentTick + 1, expired, before, popped, timers);
      IdsConcat(expired, popped);
      MovesGrowTwice(place, index0, index, before, timers);
      currentTick := currentTick + 1;
      ghost var index1 := index;
      CascadeRound(bound);
      MovesGrowTwice(place, index1, index, timers, timers);
      expired' := expired + popped;
    }

    /** Halfway through refiling drained ids at a fixed cursor; `pending` is not refiled yet. */
    ghost predicate Refiling(before: map<nat, Place>, pending: set<nat>, bound: nat)
      reads this
    {
      && Indexed(levels, overflow, index)
      && index.Keys <= before.Keys - pending
      && Placed(index, timers - pending, currentTick, NUM_LEVELS, bound)
      && Refiled(before, index, timers - pending)
      && OverflowMinOk(index, timers, overflow, overflowMin)
    }

    method RefileIfLive(id: nat, ghost before: map<nat, Place>, ghost pending: set<nat>, ghost pending': set<nat>,
                        ghost bound: nat)
      requires Refiling(before, pending, bound) && id in pending && pending' == pending - {id}
      requires pending <= before.Keys
      requires id in timers ==> currentTick <= timers[id].deadline && before[id].Overflow?
      requires bound == currentTick + MAX_RANGE_TICKS
      modifies `levels, `overflow, `overflowMin, `index
      ensures Refiling(before, pending', bound)
      ensures index.Keys <= old(index).Keys + {id}
    {
      hide Indexed, Placed, OverflowMinOk, Refiled, Fits;
      if id in timers {
        var deadline := timers[id].deadline;
        PendingGone(index, timers, pending, pending', id, overflow, overflowMin);
        FileLive(id, deadline);
        PendingFiled(before, old(index), index, timers, pending, pending', id, currentTick, bound);
      } else {
        PendingStale(timers, pending, pending', id);
      }
    }

    /** InsertIntoWheel for a live id: it fits where it was put, and the overflow minimum stays a lower bound. */
    method FileLive(id: nat, deadline: nat)
      requires Indexed(levels, overflow, index) && id !in index
      requires id in timers && timers[id].deadline == deadline && currentTick <= deadline
      requires OverflowMinOk(index, timers - {id}, overflow, overflowMin)
      modifies `levels, `overflow, `overflowMin, `index
      ensures Indexed(levels, overflow, index)
      ensures id in index && index == old(index)[id := index[id]]
      ensures Fits(index[id], deadline, currentTick, NUM_LEVELS, currentTick + MAX_RANGE_TICKS)
      ensures Moves(index[id]) == 0
      ensures OverflowMinOk(index, timers, overflow, overflowMin)
    {
      hide Indexed, OverflowMinOk;
      if deadline < currentTick + MAX_RANGE_TICKS {
        InsertionFits(deadline, currentTick, NUM_LEVELS);
      }
      ghost var place, slots, over, min := index, levels, overflow, overflowMin;
      InsertIntoWheel(id, deadline, 0);
      OverflowMinAfterFiling(place, index, timers, id, slots, over, min, overflow, overflowMin);
    }

    /** Puts every live overflow timer back where it now belongs. */
    method ReinsertOverflow(ghost bound: nat, ghost bound': nat)
      requires Indexed(levels, overflow, index)
      requires Placed(index, timers, currentTick, NUM_LEVELS, bound) && currentTick <= bound
      requires bound' == currentTick + MAX_RANGE_TICKS
      modifies `levels, `overflow, `overflowMin, `index
      ensures Indexed(levels, overflow, index)
      ensures Placed(index, timers, currentTick, NUM_LEVELS, bound')
      ensures OverflowMinOk(index, timers, overflow, overflowMin)
      ensures index.Keys <= old(index).Keys && Refiled(old(index), index, timers)
    {
      hide Indexed, Placed, OverflowMinOk, Elems, NoDup, Refiled;
      var ids := overflow;
      ghost var before := index;
      DrainOverflowKeepsIndex(levels, overflow, index);
      OverflowTaken(index, timers, ids, currentTick, bound, bound');
      index := index - Elems(ids);
      overflow := [];
      overflowMin := None;
      var j := 0;
      assert ids[0..] == ids;
      while j < |ids|
        invariant j <= |ids|
        invariant Elems(ids[j..]) <= Elems(ids)
        invariant Refiling(before, Elems(ids[j..]), bound')
      {
        ElemsNext(ids, j);
        RefileIfLive(ids[j], before, Elems(ids[j..]), Elems(ids[j + 1..]), bound');
        j := j + 1;
      }
      assert ids[j..] == [];
      NothingPending(timers);
    }

    /** Pulls every id out of the slots and the overflow list. */
    method CollectAll() returns (ids: seq<nat>)
      requires Indexed(levels, overflow, index)
      modifies `levels, `overflow, `overflowMin, `index
      ensures Indexed(levels, overflow, index)
      ensures index == map[] && overflow == [] && overflowMin == None
      ensures NoDup(ids) && Elems(ids) == old(index).Keys
    {
      hide Indexed, Collected, NoDup, Elems;
      ghost var before := index;
      ids := [];
      CollectNone(levels, overflow, index);
      var l := 0;
      while l < NUM_LEVELS
        invariant l <= NUM_LEVELS
        invariant Indexed(levels, overflow, index) && Shaped(levels) && EmptyBelow(levels, l, 0)
        invariant Collected(before, index, ids)
      {
        var s := 0;
        while s < LevelSize(l)
          invariant s <= LevelSize(l)
          invariant Indexed(levels, overflow, index) && Shaped(levels) && EmptyBelow(levels, l, s)
          invariant Collected(before, index, ids)
        {
          ghost var index0 := index;
          var taken := TakeSlot(l, s);
          CollectMore(before, index0, ids, taken);
          ids := ids + taken;
          s := s + 1;
        }
        l := l + 1;
      }
      DrainOverflowKeepsIndex(levels, overflow, index);
      CollectMore(before, index, ids, overflow);
      index := index - Elems(overflow);
      ids := ids + overflow;
      overflow := [];
      overflowMin := None;
      NothingFiled(levels, index, before, ids);
    }

    /** One collected id of a long jump: fired when due, refiled when not, forgotten when stale. */
    method DrainOne(id: nat, target: nat, ghost start: Timers, ghost due: Timers, ghost due': Timers,
                    expired: seq<TimerEntry>, ghost before: map<nat, Place>, ghost pending: set<nat>,
                    ghost pending': set<nat>, ghost bound: nat)
      returns (expired': seq<TimerEntry>)
      requires Popped(start, due, expired, timers) && id !in due && timerCount == |timers|
      requires due' == if id in timers && timers[id].deadline <= target then due[id := start[id]] else due
      requires Refiling(before, pending, bound) && id in pending && pending' == pending - {id}
      requires pending <= before.Keys && (id in timers && target < timers[id].deadline ==> before[id].Overflow?)
      requires currentTick == target && bound == currentTick + MAX_RANGE_TICKS && index.Keys !! Ids(expired)
      modifies `levels, `overflow, `overflowMin, `index, `timers, `timerCount
      ensures Popped(start, due', expired', timers) && timerCount == |timers|
      ensures Refiling(before, pending', bound) && index.Keys !! Ids(expired')
    {
      hide Popped, Refiling, Ids;
      if id in timers && timers[id].deadline <= target {
        expired' := FireOne(id, start, due, due', expired, before, pending, pending', bound);
      } else {
        expired' := expired;
        PoppedIds(start, due, expired, timers);
        assert id !in Ids(expired);
        RefileIfLive(id, before, pending, pending', bound);
      }
    }

    method FireOne(id: nat, ghost start: Timers, ghost due: Timers, ghost due': Timers, expired: seq<TimerEntry>,
                   ghost before: map<nat, Place>, ghost pending: set<nat>, ghost pending': set<nat>, ghost bound: nat)
      returns (expired': seq<TimerEntry>)
      requires Popped(start, due, expired, timers) && timerCount == |timers|
      requires id in timers && due' == due[id := start[id]]
      requires Refiling(before, pending, bound) && id in pending && pending' == pending - {id}
      requires index.Keys !! Ids(expired)
      modifies `timers, `timerCount
      ensures Popped(start, due', expired', timers) && timerCount == |timers|
      ensures Refiling(before, pending', bound) && index.Keys !! Ids(expired')
    {
      hide Popped, Indexed, Placed, OverflowMinOk, Ids, Refiled;
      var entry := timers[id];
      assert id !in index && index.Keys <= before.Keys - pending';
      PopOne(start, due, due', expired, timers, id);
      LessOne(timers, id);
      IdsAppend(expired, entry);
      PendingGone(index, timers, pending, pending', id, overflow, overflowMin);
      timers := timers - {id};
      timerCount := timerCount - 1;
      expired' := expired + [entry];
    }

    /** A jump beyond the wheel's range: fires what is due at or before `target` and refiles the rest. */
    method DrainDueInto(target: nat, ghost tick: nat, ghost bound: nat) returns (expired: seq<TimerEntry>)
      requires Indexed(levels, overflow, index) && WellKeyed(timers) && timerCount == |timers|
      requires Placed(index, timers, currentTick, NUM_LEVELS, currentTick + MAX_RANGE_TICKS)
      requires IsJump(currentTick, target)
      requires tick == target + 1 && bound == target + MAX_RANGE_TICKS
      modifies `levels, `overflow, `overflowMin, `index, `timers, `timerCount, `currentTick, `earliest
      ensures Indexed(levels, overflow, index) && WellKeyed(timers) && timerCount == |timers|
      ensures Placed(index, timers, currentTick, NUM_LEVELS, bound)
      ensures OverflowMinOk(index, timers, overflow, overflowMin)
      ensures timers == From(old(timers), tick) && Lists(expired, Before(old(timers), tick))
      ensures index.Keys <= old(index).Keys && index.Keys !! Ids(expired)
      ensures Refiled(old(index), index, timers)
      ensures CameFromOverflow(old(index), timers) && FiredWithin(old(index), expired, 3)
      ensures currentTick == target && earliest == None
    {
      hide Indexed, Placed, OverflowMinOk, Lists, Popped, Elems, NoDup, From, Before, Only, Ids, WellKeyed, Refiled;
      hide FarInOverflow, CameFromOverflow, FiredWithin, Refiling, IsJump;
      ghost var start, before := timers, index;
      LiveIsFiled(index, timers, currentTick, NUM_LEVELS, currentTick + MAX_RANGE_TICKS);
      JumpSparesOnlyOverflow(index, timers, currentTick, currentTick + MAX_RANGE_TICKS, target);
      var ids := CollectAll();
      currentTick := target;
      JumpStarts(before, tick, ids, bound);
      expired := DrainAll(ids, target, tick, start, before, bound);
      JumpEnds(before, start, target, tick, ids, expired, bound);
      FiredWereLive(before, start, expired, tick, old(currentTick), old(currentTick) + MAX_RANGE_TICKS);
      earliest := None;
    }

    lemma JumpStarts(before: map<nat, Place>, tick: nat, ids: seq<nat>, bound: nat)
      requires Indexed(levels, overflow, index) && index == map[] && overflow == [] && overflowMin == None
      requires WellKeyed(timers) && timers.Keys <= Elems(ids)
      ensures Refiling(before, Elems(ids), bound)
      ensures Popped(timers, Only(Before(timers, tick), {}), [], timers)
    {
      DrainStarts(before, timers, tick, ids, currentTick, bound);
      hide Indexed, Placed, Refiled, OverflowMinOk, Popped, WellKeyed, Before, Only;
    }

    lemma JumpEnds(before: map<nat, Place>, start: Timers, target: nat, tick: nat, ids: seq<nat>,
                   expired: seq<TimerEntry>, bound: nat)
      requires Refiling(before, Elems([]), bound) && FarInOverflow(before, start, target) && tick == target + 1
      requires Popped(start, Only(Before(start, tick), Elems(ids)), expired, timers) && start.Keys <= Elems(ids)
      ensures Indexed(levels, overflow, index) && index.Keys <= before.Keys
      ensures Placed(index, timers, currentTick, NUM_LEVELS, bound) && Refiled(before, index, timers)
      ensures OverflowMinOk(index, timers, overflow, overflowMin)
      ensures timers == From(start, tick) && Lists(expired, Before(start, tick)) && WellKeyed(timers)
      ensures CameFromOverflow(before, timers)
    {
      NothingPending(timers);
      hide Indexed, Placed, Refiled, OverflowMinOk, Popped, WellKeyed, Before, Only, From, Lists, CameFromOverflow;
      hide FarInOverflow;
      DrainedAll(start, tick, Elems(ids), expired, timers);
      FarOnly(before, start, target, tick);
    }

    /** The loop over the collected ids. */
    method DrainAll(ids: seq<nat>, target: nat, ghost tick: nat, ghost start: Timers, ghost before: map<nat, Place>,
                    ghost bound: nat)
      returns (expired: seq<TimerEntry>)
      requires Refiling(before, Elems(ids), bound) && Elems(ids) == before.Keys && NoDup(ids)
      requires Popped(start, Only(Before(start, tick), {}), [], timers) && timerCount == |timers|
      requires FarInOverflow(before, start, target) && tick == target + 1
      requires currentTick == target && bound == currentTick + MAX_RANGE_TICKS
      modifies `levels, `overflow, `overflowMin, `index, `timers, `timerCount
      ensures Refiling(before, Elems([]), bound)
      ensures Popped(start, Only(Before(start, tick), Elems(ids)), expired, timers) && timerCount == |timers|
      ensures index.Keys !! Ids(expired)
    {
      hide Refiling, Popped, Elems, NoDup, Before, Only, Ids, FarInOverflow;
      NoIds();
      NoElems(ids);
      ghost var due, done, pending := Before(start, tick), {}, Elems(ids);
      expired := [];
      var j := 0;
      assert ids[0..] == ids;
      while j < |ids|
        invariant j <= |ids| && pending <= before.Keys
        invariant pending == Elems(ids[j..]) && done == Elems(ids[..j])
        invariant timerCount == |timers| && index.Keys !! Ids(expired)
        invariant Refiling(before, pending, bound)
        invariant Popped(start, Only(due, done), expired, timers)
      {
        ElemsNext(ids, j);
        ElemsGrow(ids, j);
        ghost var done', pending' := done + {ids[j]}, pending - {ids[j]};
        DueNext(start, tick, done, ids[j], expired, timers);
        FarStays(before, start, target, ids[j], Only(due, done), expired, timers);
        expired := DrainOne(ids[j], target, start, Only(due, done), Only(due, done'), expired, before, pending,
                            pending', bound);
        done, pending := done', pending';
        j := j + 1;
      }
      assert ids[j..] == [] && ids[..j] == ids;
    }

    /** The loop of advance_to, one millisecond per round. */
    method TickTo(target: nat, ghost bound: nat) returns (expired: seq<TimerEntry>)
      requires Valid() && bound == currentTick + MAX_RANGE_TICKS && target <= bound
      modifies `levels, `overflow, `overflowMin, `index, `timers, `timerCount, `currentTick
      ensures currentTick == Max(old(currentTick), target)
      ensures Ticking(old(timers), old(index), expired, bound)
      ensures Fires(old(timers), target, expired, timers)
    {
      hide Indexed, Placed, OverflowMinOk, Fires, Ids, MovesGrow;
      ghost var start, place := timers, index;
      LiveIsFiled(index, timers, currentTick, NUM_LEVELS, bound);
      MovesStart(index, timers);
      NothingBeforeCursor(index, timers, currentTick, currentTick, bound);
      if target <= currentTick {
        NothingBeforeCursor(index, timers, currentTick, target, bound);
      }
      NoIds();
      expired := [];
      while currentTick < target
        invariant old(currentTick) <= currentTick <= Max(old(currentTick), target)
        invariant Ticking(start, place, expired, bound)
        invariant target <= old(currentTick) ==> Fires(start, target, expired, timers)
      {
        expired := OneTick(start, place, expired, bound);
      }
    }

    /** The overflow rescan at the end of advance_to: only when some overflow timer may now fit. */
    method RescanOverflow(ghost bound: nat)
      requires Indexed(levels, overflow, index) && OverflowMinOk(index, timers, overflow, overflowMin)
      requires Placed(index, timers, currentTick, NUM_LEVELS, bound) && currentTick <= bound
      modifies `levels, `overflow, `overflowMin, `index
      ensures Indexed(levels, overflow, index) && OverflowMinOk(index, timers, overflow, overflowMin)
      ensures Placed(index, timers, currentTick, NUM_LEVELS, currentTick + MAX_RANGE_TICKS)
      ensures index.Keys <= old(index).Keys && MovesGrow(old(index), index, timers)
    {
      hide Indexed, Placed, OverflowMinOk, Refiled, MovesGrow;
      LiveIsFiled(index, timers, currentTick, NUM_LEVELS, bound);
      ghost var before := index;
      ghost var bound' := currentTick + MAX_RANGE_TICKS;
      if overflowMin.Some? && overflowMin.value < currentTick + MAX_RANGE_TICKS {
        ReinsertOverflow(bound, bound');
        RefiledMovesNothing(before, index, timers);
      } else {
        MovesStart(index, timers);
        FarBound(index, timers, overflow, levels, overflowMin, currentTick, bound, bound');
      }
    }

    /** Advances the cursor to `target` and returns everything due. */
    method AdvanceTo(target: nat) returns (expired: seq<TimerEntry>)
      requires Valid()
      modifies `levels, `overflow, `overflowMin, `index, `timers, `timerCount, `currentTick, `earliest
      ensures Valid()
      ensures AdvanceStep(old(View()), target, expired, View())
      ensures MovesGrow(old(index), index, timers) && MovedAtMost(index, timers, 3)
    {
      hide Valid, AdvanceStep, MovesGrow, MovedAtMost;
      if target > currentTick + MAX_RANGE_TICKS {
        expired := JumpTo(target);
      } else {
        expired := WalkTo(target);
      }
    }

    /** The long-jump path. */
    method JumpTo(target: nat) returns (expired: seq<TimerEntry>)
      requires Valid() && target > currentTick + MAX_RANGE_TICKS
      modifies `levels, `overflow, `overflowMin, `index, `timers, `timerCount, `currentTick, `earliest
      ensures Valid()
      ensures AdvanceStep(old(View()), target, expired, View())
      ensures MovesGrow(old(index), index, timers) && MovedAtMost(index, timers, 3)
    {
      hide Indexed, Placed, OverflowMinOk, Ids, From, Before, Lists, MovesGrow, Refiled, MovedAtMost, CameFromOverflow;
      hide WellKeyed;
      ghost var place := index;
      LiveIsFiled(index, timers, currentTick, NUM_LEVELS, currentTick + MAX_RANGE_TICKS);
      expired := DrainDueInto(target, Horizon(currentTick, target), target + MAX_RANGE_TICKS);
      RefiledMovesNothing(place, index, timers);
      AtMostThreeMoves(index, timers, currentTick, target + MAX_RANGE_TICKS);
      LiveIsFiled(index, timers, currentTick, NUM_LEVELS, target + MAX_RANGE_TICKS);
    }

    /** The tick-by-tick path. */
    method WalkTo(target: nat) returns (expired: seq<TimerEntry>)
      requires Valid() && target <= currentTick + MAX_RANGE_TICKS
      modifies `levels, `overflow, `overflowMin, `index, `timers, `timerCount, `currentTick, `earliest
      ensures Valid()
      ensures AdvanceStep(old(View()), target, expired, View())
      ensures MovesGrow(old(index), index, timers) && MovedAtMost(index, timers, 3)
    {
      hide Indexed, Placed, OverflowMinOk, Ids, From, Before, Lists, MovesGrow, MovedAtMost, WellKeyed;
      hide SortedByDeadline;
      ghost var start, tick := timers, Horizon(currentTick, target);
      expired := TickAndRescan(target, currentTick + MAX_RANGE_TICKS);
      if expired != [] {
        earliest := None;
      } else {
        FiredNothing(start, tick, timers);
      }
    }

    /** The tick-by-tick path and the rescan after it. */
    method TickAndRescan(target: nat, ghost bound: nat) returns (expired: seq<TimerEntry>)
      requires Valid() && bound == currentTick + MAX_RANGE_TICKS && target <= bound
      modifies `levels, `overflow, `overflowMin, `index, `timers, `timerCount, `currentTick
      ensures Indexed(levels, overflow, index) && OverflowMinOk(index, timers, overflow, overflowMin)
      ensures Placed(index, timers, currentTick, NUM_LEVELS, currentTick + MAX_RANGE_TICKS)
      ensures WellKeyed(timers) && timerCount == |timers| && timers.Keys <= index.Keys
      ensures currentTick == Max(old(currentTick), target) && Fires(old(timers), target, expired, timers)
      ensures index.Keys <= old(index).Keys - Ids(expired)
      ensures MovesGrow(old(index), index, timers) && MovedAtMost(index, timers, 3)
    {
      hide Indexed, Placed, OverflowMinOk, Ids, Fires, MovesGrow, MovedAtMost, WellKeyed;
      ghost var place := index;
      expired := TickTo(target, bound);
      ghost var index0 := index;
      RescanOverflow(bound);
      ghost var bound' := currentTick + MAX_RANGE_TICKS;
      MovesGrowTwice(place, index0, index, timers, timers);
      AtMostThreeMoves(index, timers, currentTick, bound');
      LiveIsFiled(index, timers, currentTick, NUM_LEVELS, bound');
    }

    /** The common body of schedule_once, schedule_repeating and the reschedule: a fresh id, armed at `e.deadline`. */
    method Arm(e: TimerEntry)
      requires Valid() && e.id !in index && e.id !in inFlight && currentTick <= e.deadline
      modifies `levels, `overflow, `overflowMin, `index, `timers, `timerCount, `earliest
      ensures Valid()
      ensures View() == ScheduleStep(old(View()), e)
      ensures OnlyFiles(old(index), index)
    {
      hide Indexed, Placed, OverflowMinOk, CacheOk, OnlyFiles, Fits, Moves;
      ghost var bound := currentTick + MAX_RANGE_TICKS;
      ghost var place, start := index, timers;
      LiveIsFiled(place, start, currentTick, NUM_LEVELS, bound);
      OneMore(start, e);
      NotYetLive(start, e);
      timers := timers[e.id := e];
      timerCount := timerCount + 1;
      FileLive(e.id, e.deadline);
      FiledOne(place, start, e, index[e.id], currentTick, bound);
      NoteInserted(e.deadline, e);
    }

    /**
     The cache after an insertion: if it was right for the other timers it is right for all, and it is filled exactly
     when it was before or the new timer is the only one.
     */
    method NoteInserted(deadline: nat, ghost e: TimerEntry)
      requires e.id in timers && timers[e.id] == e && e.deadline == deadline && timerCount == |timers|
      requires CacheOk(timers - {e.id}, earliest)
      modifies `earliest
      ensures CacheOk(timers, earliest)
      ensures earliest.Some? <==> old(earliest).Some? || timerCount == 1
    {
      hide IsEarliest;
      ghost var others := timers - {e.id};
      CacheAfterInsert(others, e, earliest);
      assert others[e.id := e] == timers;
      match earliest {
        case Some(d) => earliest := Some(if d < deadline then d else deadline);
        case None => earliest := if timerCount == 1 then Some(deadline) else None;
      }
    }

    /** The locked part of schedule_once and schedule_repeating; `id` came from `next_id.fetch_add`. */
    method Schedule(id: nat, now: nat, delay: nat, kind: TimerKind)
      requires Valid() && currentTick <= now
      requires id !in index && id !in inFlight
      modifies `levels, `overflow, `overflowMin, `index, `timers, `timerCount, `earliest
      ensures Valid()
      ensures View() == ScheduleStep(old(View()), TimerEntry(id, now + delay, kind))
      ensures timers == old(timers)[id := TimerEntry(id, now + delay, kind)]
      ensures OnlyFiles(old(index), index)
    {
      Arm(TimerEntry(id, now + delay, kind));
    }

    method Cancel(id: nat) returns (found: bool)
      requires Valid()
      modifies `timers, `timerCount, `earliest, `canceledInFlight
      ensures Valid()
      ensures (View(), found) == CancelStep(old(View()), id)
    {
      hide Indexed, Placed, OverflowMinOk, IsEarliest;
      if id in timers {
        var deadline := timers[id].deadline;
        CacheAfterRemove(timers, id, earliest);
        ghost var bound := currentTick + MAX_RANGE_TICKS;
        StaleIsHarmless(index, timers, id, overflow, overflowMin, currentTick, bound);
        timers := timers - {id};
        timerCount := timerCount - 1;
        if earliest == Some(deadline) {
          earliest := None;
        }
        found := true;
      } else if id in inFlight {
        canceledInFlight := canceledInFlight + {id};
        found := true;
      } else {
        found := false;
      }
    }

    /** The section of tick between the advance and the callbacks. */
    method MarkInFlight(expired: seq<TimerEntry>)
      requires Valid() && Ids(expired) !! index.Keys
      modifies `inFlight
      ensures Valid()
      ensures View() == MarkStep(old(View()), expired)
      ensures forall id :: id in inFlight <==>
                || id in old(inFlight)
                || exists i :: 0 <= i < |expired| && expired[i].kind.Repeating? && expired[i].id == id
    {
      hide Indexed, Placed, OverflowMinOk, IsEarliest;
      var j := 0;
      while j < |expired|
        invariant j <= |expired|
        invariant inFlight == old(inFlight) + set i | 0 <= i < j && expired[i].kind.Repeating? :: expired[i].id
      {
        if expired[j].kind.Repeating? {
          inFlight := inFlight + {expired[j].id};
        }
        j := j + 1;
      }
    }

    /** The last section of tick: re-arm every repeating timer that was not cancelled while its callback ran. */
    method Rearm(done: seq<TimerEntry>, now: nat)
      requires Valid() && currentTick <= now
      requires DistinctIds(done) && forall i :: 0 <= i < |done| ==> done[i].kind.Repeating? && done[i].id in inFlight
      modifies `levels, `overflow, `overflowMin, `index, `timers, `timerCount, `earliest, `inFlight, `canceledInFlight
      ensures Valid()
      ensures View() == RearmStep(old(View()), done, |done|, now)
      ensures OnlyFiles(old(index), index)
    {
      hide Indexed, Placed, OverflowMinOk, CacheOk, WellKeyed, RearmOne;
      var j := 0;
      while j < |done|
        invariant j <= |done|
        invariant Valid() && currentTick == old(currentTick)
        invariant forall i :: j <= i < |done| ==> done[i].id in inFlight
        invariant View() == RearmStep(old(View()), done, j, now)
        invariant OnlyFiles(old(index), index)
      {
        ghost var before := index;
        RearmEntry(done[j], now);
        OnlyFilesTwice(old(index), before, index);
        j := j + 1;
      }
    }

    method RearmEntry(e: TimerEntry, now: nat)
      requires Valid() && currentTick <= now && e.id in inFlight
      modifies `levels, `overflow, `overflowMin, `index, `timers, `timerCount, `earliest, `inFlight, `canceledInFlight
      ensures Valid() && currentTick == old(currentTick)
      ensures inFlight == old(inFlight) - {e.id}
      ensures View() == RearmOne(old(View()), e, now)
      ensures timers == if e.id in old(canceledInFlight) || e.kind.Once? then old(timers)
                        else old(timers)[e.id := TimerEntry(e.id, now + e.kind.interval, e.kind)]
      ensures OnlyFiles(old(index), index)
    {
      hide Indexed, Placed, OverflowMinOk, CacheOk;
      inFlight := inFlight - {e.id};
      if e.id in canceledInFlight {
        canceledInFlight := canceledInFlight - {e.id};
        return;
      }
      if e.kind.Repeating? {
        Arm(e.(deadline := now + e.kind.interval));
      }
    }

    /** The least live deadline, by a scan over all timers; the result is cached. */
    method RecomputeEarliest() returns (d: Option<nat>)
      requires Valid()
      modifies `earliest
      ensures Valid() && earliest == d
      ensures d.None? <==> timers == map[]
      ensures d.Some? ==> IsEarliest(timers, d.value)
    {
      d := None;
      var left := timers.Keys;
      while left != {}
        invariant left <= timers.Keys
        invariant d.None? ==> left == timers.Keys
        invariant d.Some? ==> && (exists id :: id in timers && timers[id].deadline == d.value)
                              && (forall id :: id in timers && id !in left ==> d.value <= timers[id].deadline)
        decreases left
      {
        var id :| id in left;
        d := MinWith(d, timers[id].deadline);
        left := left - {id};
      }
      earliest := d;
    }

    /** Milliseconds until the nearest timer: None exactly when none is live, otherwise the distance cut at zero. */
    method TimeUntilNext(now: nat) returns (wait: Option<nat>)
      requires Valid()
      modifies `earliest
      ensures Valid() && View() == old(View())
      ensures wait.None? <==> timers == map[]
      ensures wait.Some? ==> exists d: nat :: IsEarliest(timers, d) && wait.value == if d <= now then 0 else d - now
    {
      if timerCount == 0 {
        return None;
      }
      var d := earliest;
      if d.None? {
        d := RecomputeEarliest();
        if d.None? {
          return None;
        }
      }
      assert IsEarliest(timers, d.value);
      wait := Some(if d.value <= now then 0 else d.value - now);
    }

    method PendingCount() returns (n: nat)
      requires Valid()
      ensures n == |timers|
    {
      n := timerCount;
    }
  }

  lemma NothingEmptied(index: map<nat, Place>, timers: Timers, cur: nat)
    ensures Emptied(index, timers, 1, cur)
  {}

  lemma NoIds()
    ensures Ids([]) == {}
  {}

  lemma LiveIsFiled(index: map<nat, Place>, timers: Timers, cur: nat, k: nat, bound: nat)
    requires Placed(index, timers, cur, k, bound)
    ensures timers.Keys <= index.Keys
  {}

  lemma FiresLists(start: Timers, tick: nat, fired: seq<TimerEntry>, rest: Timers)
    requires Fires(start, tick, fired, rest)
    ensures Lists(fired, Before(start, tick))
  {}

  lemma MovesStart(index: map<nat, Place>, timers: Timers)
    requires timers.Keys <= index.Keys
    ensures MovesGrow(index, index, timers)
  {}

  lemma CascadeMoves(before: map<nat, Place>, index: map<nat, Place>, timers: Timers, level: nat, cur: nat)
    requires forall id :: id in timers ==>
               id in before && id in index && (Descended(before[id], index[id], level, cur) || index[id] == before[id])
    ensures MovesGrow(before, index, timers)
  {
    hide SlotOf;
  }

  lemma StillThere(place: map<nat, Place>, gone: set<nat>, timers: Timers)
    requires timers.Keys <= (place - gone).Keys
    ensures MovesGrow(place, place - gone, timers)
  {}

  lemma FarStays(before: map<nat, Place>, start: Timers, target: nat, id: nat, gone: Timers, popped: seq<TimerEntry>,
                 timers: Timers)
    requires FarInOverflow(before, start, target) && Popped(start, gone, popped, timers)
    ensures id in timers && target < timers[id].deadline ==> id in before && before[id].Overflow?
  {}

  lemma FarOnly(before: map<nat, Place>, start: Timers, target: nat, tick: nat)
    requires FarInOverflow(before, start, target) && tick == target + 1
    ensures CameFromOverflow(before, From(start, tick))
  {}

  lemma DrainStarts(before: map<nat, Place>, start: Timers, tick: nat, ids: seq<nat>, cur: nat, bound: nat)
    requires WellKeyed(start) && start.Keys <= Elems(ids)
    ensures ids[0..] == ids && Elems(ids[..0]) == {} && Ids([]) == {}
    ensures Popped(start, Only(Before(start, tick), {}), [], start)
    ensures Placed(map[], start - Elems(ids), cur, NUM_LEVELS, bound)
    ensures OverflowMinOk(map[], start, [], None) && Refiled(before, map[], start - Elems(ids))
  {
    assert Only(Before(start, tick), {}) == map[];
  }

  lemma DueNext(start: Timers, tick: nat, done: set<nat>, id: nat, expired: seq<TimerEntry>, timers: Timers)
    requires Popped(start, Only(Before(start, tick), done), expired, timers) && id !in done
    ensures id !in Only(Before(start, tick), done)
    ensures Only(Before(start, tick), done + {id})
         == if id in timers && timers[id].deadline < tick then Only(Before(start, tick), done)[id := start[id]]
            else Only(Before(start, tick), done)
  {}

  lemma PoppedLive(start: Timers, gone: Timers, popped: seq<TimerEntry>, timers: Timers, id: nat)
    requires Popped(start, gone, popped, timers)
    ensures id in timers <==> id in start - gone.Keys
    ensures id in timers ==> timers[id] == start[id]
  {}

  lemma OnlyGone(start: Timers, ids: set<nat>, popped: seq<TimerEntry>, timers: Timers)
    requires Popped(start, Only(start, ids), popped, timers)
    ensures timers == start - ids && WellKeyed(timers) && timers.Keys <= start.Keys
  {}

  lemma OneMore(start: Timers, e: TimerEntry)
    requires e.id !in start
    ensures |start[e.id := e]| == |start| + 1
  {
    assert start[e.id := e] - {e.id} == start;
    LessOne(start[e.id := e], e.id);
  }

  lemma NotYetLive(start: Timers, e: TimerEntry)
    requires e.id !in start
    ensures start[e.id := e] - {e.id} == start
  {}

  lemma NoElems(ids: seq<nat>)
    ensures Elems(ids[..0]) == {}
  {}

  lemma NothingPending(timers: Timers)
    ensures timers - Elems([]) == timers
  {}
}
