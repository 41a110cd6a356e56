/** Runs on which `cancel` returns false and the callback still comes: before the popped timer is marked, and after. */
module TimerWindow {
  import opened TimerSpec
  import opened TimerRuns

  lemma Lengthen(run: seq<State>, step: Step, s': State) returns (more: seq<State>)
    requires Run(run) && Do(run[|run| - 1], step, s')
    ensures Run(more) && more == run + [s']
  {
    hide Do, Init;
    more := run + [s'];
    forall i | 0 < i < |more| ensures StepAt(more, i) {
      if i < |run| {
        assert StepAt(run, i);
      }
    }
  }

  function Due(): TimerEntry {
    TimerEntry(1, 0, Once)
  }

  function Alone(): Timers {
    map[1 := Due()]
  }

  /** A timer with no delay, one millisecond later. */
  lemma TimerIsDue() returns (run: seq<State>)
    ensures Run(run)
    ensures run[|run| - 1] == State(Core(Alone(), {1}, 0, {}, {}), 1, 2, {}, map[], 0, Alone(), map[], [])
  {
    var s0 := State(Core(map[], {}, 0, {}, {}), 0, 1, {}, map[], 0, map[], map[], []);
    var s1 := s0.(nextId := 2, reserved := {1});
    var s2 := State(Core(Alone(), {1}, 0, {}, {}), 0, 2, {}, map[], 0, Alone(), map[], []);
    assert Run([s0]);
    run := Lengthen([s0], ReserveId, s1);
    run := Lengthen(run, Schedule(1, 0, Once), s2);
    run := Lengthen(run, Elapse(1), s2.(clock := 1));
  }

  lemma DueExpires()
    ensures AdvanceStep(Core(Alone(), {1}, 0, {}, {}), 1, [Due()], Core(map[], {}, 1, {}, {}))
  {
    assert Before(Alone(), 1) == Alone() && From(Alone(), 1) == map[];
    assert [Due()][0] == Due();
    assert Ids([Due()]) <= {1};
  }

  lemma TimerIsPopped() returns (run: seq<State>)
    ensures Run(run)
    ensures run[|run| - 1]
         == State(Core(map[], {}, 1, {}, {}), 1, 2, {}, map[0 := Expired(1, [Due()])], 1, Alone(), map[1 := 0], [])
  {
    run := TimerIsDue();
    var s3 := run[|run| - 1];
    var s4 := s3.(ticks := map[0 := Sampled(1)], nextTick := 1);
    run := Lengthen(run, Begin, s4);
    var core := Core(map[], {}, 1, {}, {});
    DueExpires();
    assert [Due()][0].id == 1;
    assert Ids([Due()]) == {1};
    var s5 := s4.(core := core, ticks := map[0 := Expired(1, [Due()])], owner := map[1 := 0]);
    assert OwnedBy(map[], {1}, 0) == map[1 := 0];
    hide AdvanceStep, Ids;
    run := Lengthen(run, Advance(0, [Due()], core), s5);
  }

  /** cancel finds nothing, and the callback runs afterwards. */
  lemma CancelCanMiss() returns (run: seq<State>, i: nat)
    ensures Run(run) && i + 1 < |run| && Do(run[i], Cancel(1), run[i + 1])
    ensures !CancelStep(run[i].core, 1).1
    ensures FireCount(run[i + 1].log, 1) == 0 && FireCount(run[|run| - 1].log, 1) == 1
  {
    run := TimerIsPopped();
    i := |run| - 1;
    var s5 := run[i];
    run := Lengthen(run, Cancel(1), s5);
    var s6 := s5.(ticks := map[0 := Firing(1, [Due()], [])]);
    assert RepeatingIds([Due()]) == {};
    run := Lengthen(run, Mark(0), s6);
    var s7 := s6.(ticks := map[0 := Firing(1, [], [])], log := [Fired(0, 1, Due())]);
    assert [Due()][1..] == [];
    assert s6.log + s7.log == s7.log;
    run := Lengthen(run, Fire(0), s7);
    CountNext([], Fired(0, 1, Due()), 1);
  }

  /** The same after the mark: a one-shot timer is never put in flight. */
  lemma CancelCanMissAfterTheMark() returns (run: seq<State>, i: nat)
    ensures Run(run) && i + 1 < |run| && Do(run[i], Cancel(1), run[i + 1])
    ensures !CancelStep(run[i].core, 1).1 && forall t :: t in run[i].ticks ==> run[i].ticks[t].Firing?
    ensures FireCount(run[i + 1].log, 1) == 0 && FireCount(run[|run| - 1].log, 1) == 1
  {
    run := TimerIsPopped();
    var s5 := run[|run| - 1];
    var s6 := s5.(ticks := map[0 := Firing(1, [Due()], [])]);
    assert RepeatingIds([Due()]) == {};
    run := Lengthen(run, Mark(0), s6);
    i := |run| - 1;
    run := Lengthen(run, Cancel(1), s6);
    var s7 := s6.(ticks := map[0 := Firing(1, [], [])], log := [Fired(0, 1, Due())]);
    assert [Due()][1..] == [];
    assert s6.log + s7.log == s7.log;
    run := Lengthen(run, Fire(0), s7);
    CountNext([], Fired(0, 1, Due()), 1);
  }

  /** A timer due this very millisecond: the wait is zero, and an advance to now fires nothing. */
  lemma DueNowDoesNotFire()
    ensures var c := Core(Alone(), {1}, 0, {}, {}); IsEarliest(Alone(), 0) && AdvanceStep(c, 0, [], c)
  {
    assert Alone()[1].deadline == 0;
    assert Before(Alone(), 0) == map[] && From(Alone(), 0) == Alone();
    assert Ids([]) == {};
  }
}
