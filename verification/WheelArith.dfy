/**
 Placement arithmetic of the hierarchical timer wheel (mill-io/src/timer_wheel.rs:23-33, 102-142).

 A slot of level L covers `Span(L)` ticks, that is `1 << SHIFTS[L]`; `x >> SHIFTS[L]` is `x / Span(L)` and
 `& MASKS[L]` is `% LevelSize(L)`. `Window` says which deadlines may sit in a level at a given cursor. Its
 parameter `k` is the first level whose own cascade has not run yet in the current round; `k == NUM_LEVELS`
 is the settled state.
 */
module WheelArith {
  const NUM_LEVELS: nat := 4
  const MAX_RANGE_TICKS: nat := 0x400_0000

  function LevelBits(level: nat): nat
    requires level < NUM_LEVELS
  {
    if level == 0 then 8 else 6
  }

  function LevelSize(level: nat): nat
    requires level < NUM_LEVELS
  {
    if level == 0 then 256 else 64
  }

  function Span(level: nat): (n: nat)
    requires level <= NUM_LEVELS
    ensures n > 0
  {
    match level
    case 0 => 1
    case 1 => 256
    case 2 => 16384
    case 3 => 1048576
    case _ => MAX_RANGE_TICKS
  }

  function Pow2(n: nat): (p: nat)
    ensures p > 0
  {
    if n == 0 then 1 else 2 * Pow2(n - 1)
  }

  /** SHIFTS: the bits of all lower levels together. */
  function BitsBelow(level: nat): nat
    requires level <= NUM_LEVELS
  {
    if level == 0 then 0 else BitsBelow(level - 1) + LevelBits(level - 1)
  }

  lemma {:induction false} Pow2Adds(a: nat, b: nat)
    ensures Pow2(a + b) == Pow2(a) * Pow2(b)
  {
    if b > 0 {
      Pow2Adds(a, b - 1);
    }
  }

  lemma SpanIsShift(level: nat)
    requires level <= NUM_LEVELS
    ensures Span(level) == Pow2(BitsBelow(level))
  {
    if level > 0 {
      SpanIsShift(level - 1);
      Pow2Adds(BitsBelow(level - 1), LevelBits(level - 1));
      assert Pow2(6) == 64 && Pow2(8) == 4 * Pow2(6);
    }
  }

  function SlotOf(level: nat, tick: nat): (s: nat)
    requires level < NUM_LEVELS
    ensures s < LevelSize(level)
  {
    (tick / Span(level)) % LevelSize(level)
  }

  /** The level an id is filed at, as the loop of level_for_delta finds it. */
  function LevelFor(delta: nat): (level: nat)
    requires delta < MAX_RANGE_TICKS
    ensures level < NUM_LEVELS && delta < Span(level + 1) && (level > 0 ==> Span(level) <= delta)
  {
    if delta < Span(1) then 0 else if delta < Span(2) then 1 else if delta < Span(3) then 2 else 3
  }

  ghost predicate Window(level: nat, deadline: nat, cur: nat, k: nat)
    requires level < NUM_LEVELS
  {
    var span := Span(level);
    if level == 0 then cur <= deadline < cur + 256
    else if k <= level && cur % span == 0 then cur / span <= deadline / span <= cur / span + 63
    else cur / span < deadline / span <= cur / span + 64
  }

  lemma InsertionFits(deadline: nat, cur: nat, k: nat)
    requires cur <= deadline < cur + MAX_RANGE_TICKS
    ensures Window(LevelFor(deadline - cur), deadline, cur, k)
  {
    var level := LevelFor(deadline - cur);
    if level == 1 {
    } else if level == 2 {
    } else if level == 3 {
    }
  }

  /** A settled level-0 slot under the cursor holds deadlines equal to the cursor and nothing else. */
  lemma CursorSlotIsDue(deadline: nat, cur: nat)
    requires Window(0, deadline, cur, NUM_LEVELS)
    ensures SlotOf(0, deadline) == SlotOf(0, cur) <==> deadline == cur
  {
    var q, r := deadline / 256, cur / 256;
    assert deadline == 256 * q + deadline % 256 && cur == 256 * r + cur % 256;
    assert Span(0) == 1 && LevelSize(0) == 256;
  }

  lemma HigherLevelsAreLater(level: nat, deadline: nat, cur: nat)
    requires 0 < level < NUM_LEVELS && Window(level, deadline, cur, NUM_LEVELS)
    ensures cur < deadline
  {
    if level == 1 {
    } else if level == 2 {
    } else if level == 3 {
    }
  }

  /** Moving the cursor one tick on only loosens the levels whose cascade is now due. */
  lemma WindowAfterTick(level: nat, deadline: nat, cur: nat)
    requires level < NUM_LEVELS && Window(level, deadline, cur, NUM_LEVELS)
    requires level == 0 ==> deadline != cur
    ensures Window(level, deadline, cur + 1, 1)
  {
    if level == 1 {
    } else if level == 2 {
    } else if level == 3 {
    }
  }

  /** At an aligned tick the slot under the cursor holds exactly the deadlines of the block that starts now. */
  lemma CascadeSlotIsDue(level: nat, deadline: nat, cur: nat)
    requires 0 < level < NUM_LEVELS && cur % Span(level) == 0
    requires Window(level, deadline, cur, level)
    ensures SlotOf(level, deadline) == SlotOf(level, cur) <==> cur <= deadline < cur + Span(level)
    ensures SlotOf(level, deadline) != SlotOf(level, cur) ==> Window(level, deadline, cur, level + 1)
  {
    if level == 1 {
    } else if level == 2 {
    } else if level == 3 {
    }
  }

  /** What a cascade refiles below never lands under the cursor again, so not in a slot emptied earlier in the round. */
  lemma RefiledSlotIsFresh(level: nat, deadline: nat, cur: nat)
    requires 0 < level < NUM_LEVELS && cur % Span(level) == 0
    requires cur <= deadline < cur + Span(level)
    ensures var lower := LevelFor(deadline - cur);
            lower < level && (lower > 0 ==> SlotOf(lower, deadline) != SlotOf(lower, cur))
  {
    var lower := LevelFor(deadline - cur);
    if lower == 1 {
      BlockAligned(level, 1, cur);
      OtherSlot(256, deadline, cur);
    } else if lower == 2 {
      BlockAligned(level, 2, cur);
      OtherSlot(16384, deadline, cur);
    }
  }

  /** A tick where a block of a level starts is one where blocks of every lower level start. */
  lemma BlockAligned(level: nat, lower: nat, cur: nat)
    requires 0 < lower <= level < NUM_LEVELS && cur % Span(level) == 0
    ensures cur % Span(lower) == 0
  {
    var q := cur / Span(level);
    assert cur == Span(level) * q;
    if level == 2 && lower == 1 {
      Blocks256(64 * q);
    } else if level == 3 && lower == 1 {
      Blocks256(4096 * q);
    } else if level == 3 && lower == 2 {
      Blocks16384(64 * q);
    }
  }

  lemma Blocks256(n: nat)
    ensures (256 * n) % 256 == 0
  {}

  lemma Blocks16384(n: nat)
    ensures (16384 * n) % 16384 == 0
  {}

  lemma OtherSlot(span: nat, deadline: nat, cur: nat)
    requires span == 256 || span == 16384
    requires cur % span == 0 && cur + span <= deadline < cur + 64 * span
    ensures (deadline / span) % 64 != (cur / span) % 64
  {
    var q, r := deadline / span, cur / span;
    assert r + 1 <= q <= r + 63;
  }

  /** Levels other than the one being cascaded do not notice that its cascade is over. */
  lemma WindowNextStage(level: nat, deadline: nat, cur: nat, k: nat)
    requires level < NUM_LEVELS && level != k && Window(level, deadline, cur, k)
    ensures Window(level, deadline, cur, k + 1)
  {}

  /** The first unaligned level ends the round: every higher level is unaligned too. */
  lemma WindowSettled(level: nat, deadline: nat, cur: nat, k: nat)
    requires level < NUM_LEVELS && 0 < k < NUM_LEVELS && cur % Span(k) != 0
    requires Window(level, deadline, cur, k)
    ensures Window(level, deadline, cur, NUM_LEVELS)
  {
    if k <= level && cur % Span(level) == 0 {
      BlockAligned(level, k, cur);
    }
  }
}
