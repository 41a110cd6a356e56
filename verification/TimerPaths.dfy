/**
 Does it matter in how many steps the wheel is advanced? `Walk` advances through a list of targets and collects what
 fires; each single advance is what AdvanceTo was proved to do (TimerSpec.AdvanceStep).
 */
module TimerPaths {
  import opened WheelArith
  import opened TimerSpec

  datatype Outcome = Outcome(fired: Timers, rest: Timers, cursor: nat)

  function Walk(timers: Timers, cursor: nat, targets: seq<nat>): Outcome
    decreases targets
  {
    if targets == [] then Outcome(map[], timers, cursor)
    else
      var h := Horizon(cursor, targets[0]);
      var later := Walk(From(timers, h), Max(cursor, targets[0]), targets[1..]);
      later.(fired := Before(timers, h) + later.fired)
  }

  // ---- A walk is what repeated advances do --------------------------------------------------------------------

  function Concat(expired: seq<seq<TimerEntry>>): seq<TimerEntry> {
    if expired == [] then [] else expired[0] + Concat(expired[1..])
  }

  /** `cores` are the wheel before, between and after advances to `targets`, which returned `expired`. */
  ghost predicate Advances(cores: seq<Core>, targets: seq<nat>, expired: seq<seq<TimerEntry>>)
    decreases targets
  {
    && |cores| == |targets| + 1 && |expired| == |targets|
    && (targets != [] ==> AdvanceStep(cores[0], targets[0], expired[0], cores[1])
                          && Advances(cores[1..], targets[1..], expired[1..]))
  }

  lemma ListsConcat(a: seq<TimerEntry>, m: Timers, b: seq<TimerEntry>, n: Timers)
    requires Lists(a, m) && Lists(b, n) && m.Keys !! n.Keys
    ensures Lists(a + b, m + n)
  {
    var all := a + b;
    forall id | id in m + n ensures (m + n)[id] in all {
      if id in m {
        assert m[id] in a;
      } else {
        assert n[id] in b;
      }
    }
  }

  lemma {:induction false} WalkFiresLive(timers: Timers, cursor: nat, targets: seq<nat>)
    ensures Walk(timers, cursor, targets).fired.Keys <= timers.Keys
  {
    WalkFires(timers, cursor, targets);
  }

  /** What the wheel returns on the way is the walk's firing, each timer once; what it holds at the end is left. */
  lemma {:induction false} AdvancesAreAWalk(cores: seq<Core>, targets: seq<nat>, expired: seq<seq<TimerEntry>>)
    requires Advances(cores, targets, expired)
    ensures var walk := Walk(cores[0].timers, cores[0].cursor, targets);
            && Lists(Concat(expired), walk.fired)
            && cores[|targets|].timers == walk.rest && cores[|targets|].cursor == walk.cursor
    decreases targets
  {
    if targets != [] {
      var c, h := cores[0], Horizon(cores[0].cursor, targets[0]);
      AdvancesAreAWalk(cores[1..], targets[1..], expired[1..]);
      WalkFiresLive(From(c.timers, h), Max(c.cursor, targets[0]), targets[1..]);
      hide Lists, Horizon;
      var later := Walk(From(c.timers, h), Max(c.cursor, targets[0]), targets[1..]);
      ListsConcat(expired[0], Before(c.timers, h), Concat(expired[1..]), later.fired);
    }
  }

  // ---- Horizons ----------------------------------------------------------------------------------------------

  ghost predicate NonDecreasing(targets: seq<nat>) {
    forall i, j :: 0 <= i <= j < |targets| ==> targets[i] <= targets[j]
  }

  /** The largest horizon met on the way: everything before it has fired. */
  function PathHorizon(cursor: nat, targets: seq<nat>): nat
    decreases targets
  {
    if targets == [] then 0
    else Max(Horizon(cursor, targets[0]), PathHorizon(Max(cursor, targets[0]), targets[1..]))
  }

  /** Some advance of the walk reaches `last` by a jump longer than the wheel's range. */
  predicate ArrivesByJump(cursor: nat, targets: seq<nat>, last: nat)
    decreases targets
  {
    targets != [] &&
    ((targets[0] == last && IsJump(cursor, last)) || ArrivesByJump(Max(cursor, targets[0]), targets[1..], last))
  }

  lemma FireTwice(timers: Timers, a: nat, b: nat)
    ensures Before(timers, a) + Before(From(timers, a), b) == Before(timers, Max(a, b))
    ensures From(From(timers, a), b) == From(timers, Max(a, b))
  {}

  lemma OneTickMore(timers: Timers, tick: nat)
    ensures (Before(timers, tick) == Before(timers, tick + 1) && From(timers, tick) == From(timers, tick + 1))
            <==> forall id :: id in timers ==> timers[id].deadline != tick
  {
    if id :| id in timers && timers[id].deadline == tick {
      assert id in Before(timers, tick + 1) && id !in Before(timers, tick);
    }
  }

  /** A walk fires exactly the timers before its horizon and keeps exactly the others. */
  lemma {:induction false} WalkFires(timers: Timers, cursor: nat, targets: seq<nat>)
    ensures Walk(timers, cursor, targets).fired == Before(timers, PathHorizon(cursor, targets))
    ensures Walk(timers, cursor, targets).rest == From(timers, PathHorizon(cursor, targets))
    decreases targets
  {
    if targets == [] {
    } else {
      var h := Horizon(cursor, targets[0]);
      WalkFires(From(timers, h), Max(cursor, targets[0]), targets[1..]);
      FireTwice(timers, h, PathHorizon(Max(cursor, targets[0]), targets[1..]));
    }
  }

  lemma {:induction false} HorizonOfPath(cursor: nat, targets: seq<nat>, last: nat)
    requires forall i :: 0 <= i < |targets| ==> targets[i] <= last
    ensures PathHorizon(cursor, targets) <= if ArrivesByJump(cursor, targets, last) then last + 1 else last
    ensures ArrivesByJump(cursor, targets, last) ==> PathHorizon(cursor, targets) == last + 1
    ensures last in targets && !ArrivesByJump(cursor, targets, last) ==> PathHorizon(cursor, targets) == last
    decreases targets
  {
    if targets == [] {
    } else {
      HorizonOfPath(Max(cursor, targets[0]), targets[1..], last);
      assert targets == [targets[0]] + targets[1..];
    }
  }

  lemma {:induction false} ShortPathsNeverJump(cursor: nat, targets: seq<nat>, last: nat)
    requires !IsJump(cursor, last)
    ensures !ArrivesByJump(cursor, targets, last)
    decreases targets
  {
    if targets == [] {
    } else {
      ShortPathsNeverJump(Max(cursor, targets[0]), targets[1..], last);
    }
  }

  /**
   Walking to `last` step by step and advancing there at once agree, on what fires and on what stays, exactly when
   the direct advance is no long jump, or the walk arrives by one too, or no timer is due at precisely `last`.
   */
  lemma PathIndependence(timers: Timers, cursor: nat, targets: seq<nat>)
    requires targets != [] && NonDecreasing(targets)
    ensures var last := targets[|targets| - 1];
            var walk, direct := Walk(timers, cursor, targets), Walk(timers, cursor, [last]);
            (walk.fired == direct.fired && walk.rest == direct.rest)
            <==> (!IsJump(cursor, last) || ArrivesByJump(cursor, targets, last)
                  || forall id :: id in timers ==> timers[id].deadline != last)
  {
    var last := targets[|targets| - 1];
    WalkFires(timers, cursor, targets);
    WalkFires(timers, cursor, [last]);
    HorizonOfPath(cursor, targets, last);
    HorizonOfPath(cursor, [last], last);
    assert ArrivesByJump(cursor, [last], last) <==> IsJump(cursor, last);
    hide Walk, PathHorizon, ArrivesByJump, NonDecreasing, Before, From, IsJump;
    if !IsJump(cursor, last) {
      ShortPathsNeverJump(cursor, targets, last);
    }
    HorizonsAgree(timers, PathHorizon(cursor, targets), PathHorizon(cursor, [last]), last);
  }

  lemma HorizonsAgree(timers: Timers, a: nat, b: nat, last: nat)
    requires last <= a <= last + 1 && last <= b <= last + 1
    ensures (Before(timers, a) == Before(timers, b) && From(timers, a) == From(timers, b))
            <==> (a == b || forall id :: id in timers ==> timers[id].deadline != last)
  {
    OneTickMore(timers, last);
  }

  /** Within 2^26 ticks of the starting cursor the path never matters. */
  lemma ShortPathsAgree(timers: Timers, cursor: nat, targets: seq<nat>)
    requires targets != [] && NonDecreasing(targets)
    requires targets[|targets| - 1] <= cursor + MAX_RANGE_TICKS
    ensures var direct := Walk(timers, cursor, [targets[|targets| - 1]]);
            Walk(timers, cursor, targets).fired == direct.fired && Walk(timers, cursor, targets).rest == direct.rest
  {
    PathIndependence(timers, cursor, targets);
  }

  /** One tick more than the range away, the path does matter: the same timer fires in one jump but not in two. */
  lemma LongPathsMayDiffer()
    ensures var last := MAX_RANGE_TICKS + 1;
            var timers: Timers := map[1 := TimerEntry(1, last, Once)];
            Walk(timers, 0, [last]).fired == timers && Walk(timers, 0, [1, last]).fired == map[]
  {
    var last := MAX_RANGE_TICKS + 1;
    var timers: Timers := map[1 := TimerEntry(1, last, Once)];
    WalkFires(timers, 0, [last]);
    WalkFires(timers, 0, [1, last]);
    HorizonOfPath(0, [last], last);
    HorizonOfPath(0, [1, last], last);
    assert ArrivesByJump(0, [last], last);
    assert [1, last][1..] == [last] && [last][1..] == [];
    assert !ArrivesByJump(1, [last], last);
    assert !ArrivesByJump(0, [1, last], last);
  }
}
