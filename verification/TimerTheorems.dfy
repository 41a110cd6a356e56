/** What callers of the timer wheel may rely on, over every run (TimerRuns). */
module TimerTheorems {
  import opened TimerSpec
  import opened TimerRuns

  /** Where a timer is, and what has been logged about it. */
  datatype Fate = Fate(live: bool, toFire: bool, inHand: bool, inFlight: bool, canceled: bool, fired: nat,
                       cancels: nat)

  function FateOf(s: State, id: nat): Fate {
    Fate(id in s.core.timers, ToFire(s, id), InHand(s, id), id in s.core.inFlight, id in s.core.canceled,
         FireCount(s.log, id), CancelCount(s.log, id))
  }

  /** The only ways a step can change the fate of a timer. */
  ghost predicate Moves(s: State, step: Step, s': State, id: nat) {
    var f, f' := FateOf(s, id), FateOf(s', id);
    match step
    case Schedule(k, _, _) => f' == if k == id then f.(live := true) else f
    case Cancel(k) =>
      f' == if k != id then f
            else if f.live then f.(live := false, cancels := f.cancels + 1)
            else if f.inFlight then f.(canceled := true, cancels := f.cancels + 1)
            else f
    case Advance(t, expired, _) =>
      f' == (if id in Ids(expired) then f.(live := false, toFire := true, inHand := true) else f)
      && (id in Ids(expired) ==> f.live)
    case Mark(t) =>
      t in s.ticks && f' == if id in RepeatingIds(Hand(s.ticks[t])) then f.(inFlight := true) else f
    case Fire(t) =>
      && t in s.ticks && s.ticks[t].Firing? && s.ticks[t].todo != []
      && var e := s.ticks[t].todo[0];
         f' == (if e.id == id then f.(toFire := false, inHand := e.kind.Repeating?, fired := f.fired + 1) else f)
         && (e.id == id ==> f.toFire && id in s.scheduled && e.kind == s.scheduled[id].kind
                            && (e.kind.Repeating? ==> f.inFlight))
    case Finish(t) =>
      && t in s.ticks
      && f' == (if id in Ids(Hand(s.ticks[t]))
                then f.(inHand := false, inFlight := false, canceled := false, live := !f.canceled)
                else f)
      && (id in Ids(Hand(s.ticks[t])) ==> f.inHand && !f.toFire)
    case _ => f' == f
  }

  /** How the places a timer can be in exclude and imply one another. */
  ghost predicate Placement(s: State, id: nat) {
    var f := FateOf(s, id);
    && (f.toFire ==> f.inHand)
    && (f.inHand ==> !f.live && id in s.scheduled)
    && (f.inFlight ==> f.inHand && s.scheduled[id].kind.Repeating?)
    && (f.canceled ==> f.inFlight)
    && (f.inHand && !f.toFire ==> f.inFlight)
    && (f.live ==> id in s.scheduled)
  }

  lemma Placements(s: State, id: nat)
    requires Inv(s)
    ensures Placement(s, id)
  {
    HandsArePlaces(s, id);
    if InHand(s, id) {
      var t := s.owner[id];
      var tick := s.ticks[t];
      assert TickOk(s, t, tick);
      var i :| 0 <= i < |Hand(tick)| && Hand(tick)[i].id == id;
      assert SameTimer(s, Hand(tick)[i]);
      if tick.Firing? && i >= |tick.done| {
        assert tick.todo[i - |tick.done|].id == id;
        assert id in Ids(tick.todo);
      }
      if id in RepeatingIds(Hand(tick)) {
        var j :| 0 <= j < |Hand(tick)| && Hand(tick)[j].kind.Repeating? && Hand(tick)[j].id == id;
        assert SameTimer(s, Hand(tick)[j]);
      }
    }
  }

  lemma MovesQuietly(s: State, step: Step, s': State, id: nat)
    requires Inv(s) && Do(s, step, s')
    requires step.Elapse? || step.ReserveId? || step.Begin? || step.Schedule? || step.Cancel?
    ensures Moves(s, step, s', id)
  {
    if step.Cancel? {
      CountNext(s.log, Cancelled(step.id), id);
    }
    assert s.nextTick in s.ticks ==> TickOk(s, s.nextTick, s.ticks[s.nextTick]);
    HandsArePlaces(s, id);
  }

  lemma MovesOnMark(s: State, t: nat, s': State, id: nat)
    requires Inv(s) && Do(s, Mark(t), s')
    ensures Moves(s, Mark(t), s', id)
  {
    assert Hand(s'.ticks[t]) == Hand(s.ticks[t]);
  }

  /** Where `id` is with respect to tick call `t`, and that no other call holds it. */
  lemma PlacesByTick(s: State, t: nat, id: nat)
    requires Inv(s) && t in s.ticks
    ensures id in Ids(ToRun(s.ticks[t])) ==> ToFire(s, id)
    ensures id in Ids(Hand(s.ticks[t])) ==> InHand(s, id) && s.owner[id] == t
    ensures InHand(s, id) && s.owner[id] == t ==> id in Ids(Hand(s.ticks[t]))
    ensures ToFire(s, id) && s.owner[id] == t ==> id in Ids(ToRun(s.ticks[t]))
    ensures ToFire(s, id) ==> InHand(s, id)
    ensures InHand(s, id) ==> id !in s.core.timers && id !in s.core.filed
  {
    HandsArePlaces(s, id);
    if s.ticks[t].Firing? {
      IdsConcat(s.ticks[t].done, s.ticks[t].todo);
    }
  }

  lemma PlacesAfterAdvance(s: State, t: nat, expired: seq<TimerEntry>, core: Core, s': State, id: nat)
    requires Do(s, Advance(t, expired, core), s')
    requires InHand(s, id) || ToFire(s, id) ==> id !in Ids(expired)
    ensures ToFire(s', id) <==> ToFire(s, id) || id in Ids(expired)
    ensures InHand(s', id) <==> InHand(s, id) || id in Ids(expired)
  {
    hide AdvanceStep;
    assert Ids([]) == {};
  }

  /** An advance logs nothing that counts for a timer. */
  lemma LogOnAdvance(s: State, t: nat, expired: seq<TimerEntry>, core: Core, s': State, id: nat)
    requires Do(s, Advance(t, expired, core), s')
    ensures FireCount(s'.log, id) == FireCount(s.log, id) && CancelCount(s'.log, id) == CancelCount(s.log, id)
  {
    hide AdvanceStep, FireCount, CancelCount, OwnedBy;
    var e := Finished(s.ticks[t].target);
    assert s'.log == s.log || s'.log == s.log + [e];
    hide Do;
    CountNext(s.log, e, id);
    assert !IsFiring(e, id);
  }

  lemma CoreOnAdvance(s: State, t: nat, expired: seq<TimerEntry>, core: Core, s': State, id: nat)
    requires Inv(s) && Do(s, Advance(t, expired, core), s')
    ensures s'.core.inFlight == s.core.inFlight && s'.core.canceled == s.core.canceled
    ensures id in s'.core.timers <==> id in s.core.timers && id !in Ids(expired)
    ensures id in Ids(expired) ==> id in s.core.timers
  {
    ExpiredIds(s.core, s.ticks[t].target, expired, core);
    assert s'.core == core && core.inFlight == s.core.inFlight && core.canceled == s.core.canceled;
    hide Do, Inv, AdvanceStep, Ids;
  }

  lemma MovesOnAdvance(s: State, t: nat, expired: seq<TimerEntry>, core: Core, s': State, id: nat)
    requires Inv(s) && Do(s, Advance(t, expired, core), s')
    ensures Moves(s, Advance(t, expired, core), s', id)
  {
    assert t in s.ticks by { hide Inv; }
    hide Inv, Do, Ids, ToFire, InHand, FireCount, CancelCount;
    LogOnAdvance(s, t, expired, core, s', id);
    CoreOnAdvance(s, t, expired, core, s', id);
    PlacesByTick(s, t, id);
    PlacesAfterAdvance(s, t, expired, core, s', id);
  }

  /** What running the head callback does to the id sets of a tick call. */
  lemma CallbackSets(s: State, t: nat, tick: Tick, tick': Tick)
    requires TicksOk(s) && t in s.ticks && tick == s.ticks[t]
    requires tick.Firing? && tick.todo != [] && tick' == AfterCallback(tick)
    ensures Ids(ToRun(tick')) == Ids(ToRun(tick)) - {tick.todo[0].id} && tick.todo[0].id in Ids(ToRun(tick))
    ensures Ids(Hand(tick')) == if tick.todo[0].kind.Repeating? then Ids(Hand(tick))
                                else Ids(Hand(tick)) - {tick.todo[0].id}
    ensures tick.todo[0].id in Ids(Hand(tick)) && SameTimer(s, tick.todo[0])
    ensures tick.todo[0].kind.Repeating? ==> tick.todo[0].id in s.core.inFlight
  {
    var e, rest := tick.todo[0], tick.todo[1..];
    assert TickOk(s, t, tick);
    CallbackRuns(tick);
    assert Hand(tick)[|tick.done|] == e;
    if e.kind.Repeating? {
      CallbackRepeats(tick);
      assert e.id in RepeatingIds(Hand(tick));
    } else {
      assert Hand(tick) == tick.done + [e] + rest && Hand(tick') == tick.done + rest;
      DropMiddle(tick.done, e, rest);
    }
  }

  lemma PlacesAfterFire(s: State, t: nat, s': State, id: nat)
    requires Inv(s) && Do(s, Fire(t), s')
    ensures var e := s.ticks[t].todo[0];
            && (ToFire(s', id) <==> ToFire(s, id) && id != e.id)
            && (InHand(s', id) <==> InHand(s, id) && (id != e.id || e.kind.Repeating?))
            && (id == e.id ==> ToFire(s, id) && InHand(s, id))
  {
    var tick, tick' := s.ticks[t], s'.ticks[t];
    CallbackSets(s, t, tick, tick');
    PlacesByTick(s, t, id);
    hide Inv, Ids, ToRun, Hand, AfterCallback;
  }

  lemma MovesOnFire(s: State, t: nat, s': State, id: nat)
    requires Inv(s) && Do(s, Fire(t), s')
    ensures Moves(s, Fire(t), s', id)
  {
    hide FireCount, CancelCount, Ids, ToRun, Hand, AfterCallback, ToFire, InHand, IdsOk, LiveOk, FlightOk, TicksOk;
    var tick, tick' := s.ticks[t], s'.ticks[t];
    assert tick.Firing? && tick.todo != [] && tick' == AfterCallback(tick) && s'.core == s.core;
    assert TicksOk(s);
    hide Do, Inv;
    LogOnFire(s, t, s', id);
    CallbackSets(s, t, tick, tick');
    PlacesAfterFire(s, t, s', id);
  }

  lemma LogOnFire(s: State, t: nat, s': State, id: nat)
    requires Do(s, Fire(t), s')
    ensures CancelCount(s'.log, id) == CancelCount(s.log, id)
    ensures FireCount(s'.log, id) == FireCount(s.log, id) + Count(s.ticks[t].todo[0].id == id)
  {
    hide FireCount, CancelCount, AfterCallback;
    CountNext(s.log, Fired(t, s.ticks[t].target, s.ticks[t].todo[0]), id);
  }

  lemma PlacesAfterFinish(s: State, t: nat, s': State, id: nat)
    requires Inv(s) && Do(s, Finish(t), s')
    ensures ToFire(s', id) <==> ToFire(s, id)
    ensures InHand(s', id) <==> InHand(s, id) && id !in Ids(Hand(s.ticks[t]))
    ensures id in Ids(Hand(s.ticks[t])) ==> InHand(s, id) && !ToFire(s, id) && id !in s.core.timers
  {
    hide ToFire, InHand, Ids, Hand, ToRun, RearmStep;
    NothingToRun(s, t, s', id);
    PlacesByTick(s, t, id);
    PlacesWithout(s, t, s', id);
  }

  lemma NothingToRun(s: State, t: nat, s': State, id: nat)
    requires Do(s, Finish(t), s')
    ensures t in s.ticks && id !in Ids(ToRun(s.ticks[t])) && s'.owner == s.owner && s'.ticks == s.ticks - {t}
  {
    hide RearmStep;
    assert ToRun(s.ticks[t]) == [];
  }

  /** Where `id` is once tick call `t`, which has nothing more to run, is gone. */
  lemma PlacesWithout(s: State, t: nat, s': State, id: nat)
    requires t in s.ticks && s'.owner == s.owner && s'.ticks == s.ticks - {t} && id !in Ids(ToRun(s.ticks[t]))
    requires id in Ids(Hand(s.ticks[t])) ==> InHand(s, id) && s.owner[id] == t
    ensures ToFire(s', id) <==> ToFire(s, id)
    ensures InHand(s', id) <==> InHand(s, id) && id !in Ids(Hand(s.ticks[t]))
    ensures id in Ids(Hand(s.ticks[t])) ==> !ToFire(s, id)
  {
    hide Ids, Hand, ToRun;
  }

  lemma MovesOnFinish(s: State, t: nat, s': State, id: nat)
    requires Inv(s) && Do(s, Finish(t), s')
    ensures Moves(s, Finish(t), s', id)
  {
    CountNext(s.log, Finished(s.ticks[t].target), id);
    PlacesAfterFinish(s, t, s', id);
    FinishedSets(s, t, s');
    hide Inv, RearmStep, FireCount, CancelCount, Ids, ToFire, InHand, Hand;
  }

  lemma StepMoves(s: State, step: Step, s': State, id: nat)
    requires Inv(s) && Do(s, step, s')
    ensures Moves(s, step, s', id)
  {
    match step
    case Advance(t, expired, core) => MovesOnAdvance(s, t, expired, core, s', id);
    case Mark(t) => MovesOnMark(s, t, s', id);
    case Fire(t) => MovesOnFire(s, t, s', id);
    case Finish(t) => MovesOnFinish(s, t, s', id);
    case _ => MovesQuietly(s, step, s', id);
  }

  /** The life of one timer of kind `kind`, step by step. */
  predicate Changes(f: Fate, f': Fate, kind: TimerKind) {
    || f' == f
    || (f.live && f' == f.(live := false, cancels := f.cancels + 1))
    || (!f.live && f.inFlight && f' == f.(canceled := true, cancels := f.cancels + 1))
    || (f.live && f' == f.(live := false, toFire := true, inHand := true))
    || (f.inHand && kind.Repeating? && f' == f.(inFlight := true))
    || (f.toFire && (kind.Repeating? ==> f.inFlight)
        && f' == f.(toFire := false, inHand := kind.Repeating?, fired := f.fired + 1))
    || (f.inHand && !f.toFire && kind.Repeating?
        && f' == f.(inHand := false, inFlight := false, canceled := false, live := !f.canceled))
  }

  lemma StepChanges(s: State, step: Step, s': State, id: nat)
    requires Inv(s) && Do(s, step, s') && id in s.scheduled
    ensures id in s'.scheduled && s'.scheduled[id] == s.scheduled[id]
    ensures Changes(FateOf(s, id), FateOf(s', id), s.scheduled[id].kind)
  {
    hide Ids, RepeatingIds, Hand, LiveOk, TicksOk, FlightOk, InHand, ToFire, FireCount, CancelCount;
    SchedulesStay(s, step, s');
    StepMoves(s, step, s', id);
    Placements(s, id);
    assert step.Schedule? ==> step.id != id;
    assert step.Mark? ==> step.t in s.ticks;
    hide Do, Inv;
    if step.Mark? && id in RepeatingIds(Hand(s.ticks[step.t])) {
      RepeatingInHand(s, step.t, id);
      assert FateOf(s, id).inHand;
    }
    hide FateOf;
  }

  lemma RepeatingInHand(s: State, t: nat, id: nat)
    requires Inv(s) && t in s.ticks && id in RepeatingIds(Hand(s.ticks[t]))
    ensures InHand(s, id) && id in s.scheduled && s.scheduled[id].kind.Repeating?
  {
    HandsArePlaces(s, id);
    HandIsOwned(s, t);
    assert TickOk(s, t, s.ticks[t]);
    var j :| 0 <= j < |Hand(s.ticks[t])| && Hand(s.ticks[t])[j].kind.Repeating? && Hand(s.ticks[t])[j].id == id;
    assert SameTimer(s, Hand(s.ticks[t])[j]);
  }

  // ---- Conservation ------------------------------------------------------------------------------------------

  /**
   A one-shot timer is at any moment exactly one of: live, popped with its callback due, fired, cancelled. A
   repeating timer that was never successfully cancelled is live or in the hands of exactly one tick call, so it is
   never lost; once cancelled it stays dead but for a callback already under way.
   */
  predicate Accounted(f: Fate, kind: TimerKind) {
    if kind.Once?
    then f.fired + f.cancels + Count(f.live) + Count(f.toFire) == 1 && !f.inFlight
    else (f.cancels == 0 ==> !f.canceled && f.live != f.inHand)
         && (f.cancels > 0 ==> !f.live && (f.inHand ==> f.canceled))
         && (f.live ==> !f.inHand) && (f.toFire ==> f.inHand)
  }

  /** What holds of every id: unborn before it is scheduled, accounted for afterwards. */
  ghost predicate FateOk(s: State, id: nat) {
    if id in s.scheduled then Accounted(FateOf(s, id), s.scheduled[id].kind)
    else FateOf(s, id) == Fate(false, false, false, false, false, 0, 0)
  }

  lemma StepAccounts(s: State, step: Step, s': State, id: nat)
    requires Inv(s) && Do(s, step, s') && FateOk(s, id)
    ensures FateOk(s', id)
  {
    if id in s.scheduled {
      StepChanges(s, step, s', id);
      Placements(s, id);
      hide FateOf, Do, Inv;
    } else {
      StepMoves(s, step, s', id);
      Placements(s, id);
      hide FateOf, Inv;
    }
  }

  lemma {:induction false} RunAccounts(run: seq<State>, i: nat, id: nat)
    requires Run(run) && i < |run|
    ensures FateOk(run[i], id)
  {
    if i > 0 {
      var p := i - 1;
      RunAccounts(run, p, id);
      var step := StepOf(run, p, i);
      StepAccounts(run[p], step, run[i], id);
    }
  }

  lemma StepOf(run: seq<State>, p: nat, i: nat) returns (step: Step)
    requires Run(run) && i < |run| && i == p + 1
    ensures Inv(run[p]) && Do(run[p], step, run[i])
  {
    RunKeepsInv(run, p);
    assert StepAt(run, i);
    step :| Do(run[p], step, run[i]);
  }

  // ---- The promises ------------------------------------------------------------------------------------------

  /** Cancelled for good: not live, and in nobody's hands except as a firing already marked cancelled. */
  predicate Doomed(f: Fate) {
    !f.live && (f.inHand ==> f.canceled) && (f.toFire ==> f.inHand)
  }

  lemma ChangesKeepDoom(f: Fate, f': Fate, kind: TimerKind)
    requires Changes(f, f', kind) && Doomed(f)
    ensures Doomed(f') && f'.fired + Count(f'.toFire) <= f.fired + Count(f.toFire)
  {}

  lemma {:induction false} DoomedForever(run: seq<State>, i: nat, j: nat, id: nat)
    requires Run(run) && i <= j < |run| && id in run[i].scheduled && Doomed(FateOf(run[i], id))
    ensures id in run[j].scheduled && Doomed(FateOf(run[j], id))
    ensures FateOf(run[j], id).fired + Count(FateOf(run[j], id).toFire)
         <= FateOf(run[i], id).fired + Count(FateOf(run[i], id).toFire)
  {
    if i < j {
      var p := j - 1;
      DoomedForever(run, i, p, id);
      var step := StepOf(run, p, j);
      var s, s' := run[p], run[j];
      StepChanges(s, step, s', id);
      ChangesKeepDoom(FateOf(s, id), FateOf(s', id), s.scheduled[id].kind);
      hide FateOf, Do, Inv, Changes, Doomed, Run;
    }
  }

  /** A cancel that returned true, as step `i` of the run. */
  ghost predicate CancelsAt(run: seq<State>, i: nat, id: nat) {
    i + 1 < |run| && Do(run[i], Cancel(id), run[i + 1]) && CancelStep(run[i].core, id).1
  }

  /**
   Once cancel has returned true the timer is never armed again, and its callback runs at most once more: not at all
   unless some tick call still had it to run, which then had marked it in flight.
   */
  lemma CancelIsFinal(run: seq<State>, i: nat, j: nat, id: nat)
    requires Run(run) && i < j < |run| && CancelsAt(run, i, id)
    ensures id !in run[j].core.timers
    ensures FireCount(run[j].log, id) <= FireCount(run[i].log, id) + Count(ToFire(run[i], id))
    ensures ToFire(run[i], id) ==> id in run[i].core.inFlight
  {
    RunKeepsInv(run, i);
    Placements(run[i], id);
    StepChanges(run[i], Cancel(id), run[i + 1], id);
    StepMoves(run[i], Cancel(id), run[i + 1], id);
    DoomedForever(run, i + 1, j, id);
  }

  /**
   Of the timers a tick call holds, cancel misses all before they are marked, and of the marked ones exactly the
   one-shot timers, whose callback is then still to come.
   */
  lemma CancelWindow(run: seq<State>, i: nat, t: nat, id: nat)
    requires Run(run) && i < |run| && t in run[i].ticks && id in Ids(Hand(run[i].ticks[t]))
    ensures id in run[i].scheduled
    ensures !CancelStep(run[i].core, id).1 <==> run[i].ticks[t].Expired? || run[i].scheduled[id].kind.Once?
    ensures run[i].scheduled[id].kind.Once? ==> ToFire(run[i], id)
  {
    var s := run[i];
    RunKeepsInv(run, i);
    PlacesByTick(s, t, id);
    Placements(s, id);
    var tick := s.ticks[t];
    assert TickOk(s, t, tick);
    var k :| 0 <= k < |Hand(tick)| && Hand(tick)[k].id == id;
    assert SameTimer(s, Hand(tick)[k]);
    assert tick.Firing? && s.scheduled[id].kind.Repeating? ==> id in RepeatingIds(Hand(tick));
  }

  /**
   A timer still to fire or to be armed again is live or held by the tick call that popped it last. cancel returns
   false for it exactly when it is held and either that call has not marked it yet or the timer is a one-shot.
   */
  lemma CancelMisses(run: seq<State>, i: nat, id: nat)
    requires Run(run) && i < |run| && (id in run[i].core.timers || InHand(run[i], id))
    ensures id in run[i].scheduled
    ensures !CancelStep(run[i].core, id).1 <==>
            InHand(run[i], id)
            && (run[i].ticks[run[i].owner[id]].Expired? || run[i].scheduled[id].kind.Once?)
  {
    RunKeepsInv(run, i);
    Placements(run[i], id);
    if InHand(run[i], id) {
      CancelWindow(run, i, run[i].owner[id], id);
    }
  }

  lemma {:induction false} FinishedBehind(run: seq<State>, i: nat, k: nat)
    requires Run(run) && i < |run| && k < |run[i].log| && run[i].log[k].Finished?
    ensures run[i].log[k].target <= run[i].core.cursor
  {
    if i > 0 {
      var p := i - 1;
      var step := StepOf(run, p, i);
      var s, s' := run[p], run[i];
      CursorGrows(s, step, s');
      hide Do, Inv, Run;
      if k < |s.log| {
        assert s'.log[k] == s'.log[..|s.log|][k];
        FinishedBehind(run, p, k);
      }
    }
  }

  lemma CursorGrows(s: State, step: Step, s': State)
    requires Inv(s) && Do(s, step, s')
    ensures s.core.cursor <= s'.core.cursor
    ensures |s.log| <= |s'.log| <= |s.log| + 1 && s'.log[..|s.log|] == s.log
    ensures |s.log| < |s'.log| && s'.log[|s.log|].Finished? ==> s'.log[|s.log|].target <= s'.core.cursor
  {
    match step
    case Finish(t) => {
      assert TickOk(s, t, s.ticks[t]);
      FinishedSets(s, t, s');
    }
    case _ => {}
  }

  /**
   A one-shot timer's callback runs at most once, and never once cancelled; and once some tick call with a target past
   its deadline has completed, a timer that was not cancelled has run exactly once or is about to, in a tick call still
   running.
   */
  lemma OneShotRunsOnce(run: seq<State>, i: nat, id: nat, k: nat)
    requires Run(run) && i < |run| && id in run[i].scheduled && run[i].scheduled[id].kind.Once?
    ensures FireCount(run[i].log, id) <= 1
    ensures Cancelled(id) in run[i].log ==> FireCount(run[i].log, id) == 0 && !ToFire(run[i], id)
    ensures k < |run[i].log| && run[i].log[k].Finished? && run[i].scheduled[id].deadline < run[i].log[k].target
            && Cancelled(id) !in run[i].log ==>
              && FireCount(run[i].log, id) + Count(ToFire(run[i], id)) == 1
              && (run[i].ticks == map[] ==> FireCount(run[i].log, id) == 1)
  {
    var s := run[i];
    RunKeepsInv(run, i);
    RunAccounts(run, i, id);
    if Cancelled(id) in s.log {
      SomeCancelCount(s.log, id);
    } else {
      NoCancelCount(s.log, id);
    }
    if k < |s.log| && s.log[k].Finished? && s.scheduled[id].deadline < s.log[k].target {
      FinishedBehind(run, i, k);
      assert id in s.core.timers ==> SameTimer(s, s.core.timers[id]);
    }
  }

  lemma {:induction false} SomeCancelCount(log: seq<Event>, id: nat)
    requires Cancelled(id) in log
    ensures CancelCount(log, id) > 0
  {
    var k := |log| - 1;
    if log[k] != Cancelled(id) {
      assert log == log[..k] + [log[k]];
      SomeCancelCount(log[..k], id);
    }
  }

  /** A repeating timer nobody cancelled is never lost: it is live or in the hands of one tick call. */
  lemma RepeatingIsNeverLost(run: seq<State>, i: nat, id: nat)
    requires Run(run) && i < |run| && id in run[i].scheduled && run[i].scheduled[id].kind.Repeating?
    requires Cancelled(id) !in run[i].log
    ensures id in run[i].core.timers || (InHand(run[i], id) && id !in run[i].core.canceled)
    ensures run[i].ticks == map[] ==> id in run[i].core.timers
  {
    RunAccounts(run, i, id);
    NoCancelCount(run[i].log, id);
  }

  // ---- When callbacks run ------------------------------------------------------------------------------------

  /** What is known of a logged callback: it was due, it ran in a tick call that will not run it again. */
  ghost predicate FiringOk(s: State, e: Event)
    requires e.Fired?
  {
    && e.tick < s.nextTick && e.target <= s.clock && e.entry.deadline <= e.target
    && SameTimer(s, e.entry)
    && (e.tick in s.ticks ==> s.ticks[e.tick].Firing? && e.entry.id !in Ids(ToRun(s.ticks[e.tick])))
  }

  /** The next firing of the timer `e` belongs to lies at least one interval later. */
  ghost predicate NextIsSpaced(s: State, e: Event)
    requires e.Fired?
  {
    e.entry.kind.Repeating? ==>
      && (e.entry.id in s.core.timers ==> e.target + e.entry.kind.interval <= s.core.timers[e.entry.id].deadline)
      && (forall t, i :: t in s.ticks && 0 <= i < |ToRun(s.ticks[t])| && ToRun(s.ticks[t])[i].id == e.entry.id ==>
            e.target + e.entry.kind.interval <= ToRun(s.ticks[t])[i].deadline)
  }

  /** Two callbacks of one timer: never in the same tick call, and targets at least an interval apart. */
  ghost predicate Apart(e: Event, e': Event) {
    e.Fired? && e'.Fired? && e.entry.id == e'.entry.id ==>
      e.tick != e'.tick
      && (e.entry.kind.Repeating? ==> e.target + e.entry.kind.interval <= e'.target)
  }

  ghost predicate LogOk(s: State) {
    && (forall k :: 0 <= k < |s.log| && s.log[k].Fired? ==> FiringOk(s, s.log[k]) && NextIsSpaced(s, s.log[k]))
    && (forall k, m :: 0 <= k < m < |s.log| ==> Apart(s.log[k], s.log[m]))
  }

  lemma FiringStays(s: State, step: Step, s': State, e: Event)
    requires Inv(s) && Do(s, step, s') && e.Fired? && FiringOk(s, e)
    ensures FiringOk(s', e)
  {
    hide Ids;
    SchedulesStay(s, step, s');
    match step
    case Fire(t) => {
      CallbackSets(s, t, s.ticks[t], s'.ticks[t]);
      FiringStaysInTicks(s, step, s', e);
    }
    case _ => FiringStaysInTicks(s, step, s', e);
  }

  /** Clock, tick numbers and schedules only grow. */
  lemma SchedulesStay(s: State, step: Step, s': State)
    requires Inv(s) && Do(s, step, s')
    ensures s.nextTick <= s'.nextTick && s.clock <= s'.clock
    ensures forall id :: id in s.scheduled ==> id in s'.scheduled && s'.scheduled[id] == s.scheduled[id]
  {
    hide AdvanceStep, RearmStep, LiveOk, FlightOk, TicksOk;
  }

  lemma FiringStaysInTicks(s: State, step: Step, s': State, e: Event)
    requires Do(s, step, s') && e.Fired? && e.tick < s.nextTick
    requires e.tick in s.ticks ==> s.ticks[e.tick].Firing? && e.entry.id !in Ids(ToRun(s.ticks[e.tick]))
    requires step.Fire? ==> Ids(ToRun(s'.ticks[step.t])) <= Ids(ToRun(s.ticks[step.t]))
    ensures e.tick in s'.ticks ==> s'.ticks[e.tick].Firing? && e.entry.id !in Ids(ToRun(s'.ticks[e.tick]))
  {
    hide AdvanceStep, RearmStep, Ids;
  }

  lemma SpacingStays(s: State, step: Step, s': State, e: Event)
    requires Inv(s) && Do(s, step, s') && e.Fired? && FiringOk(s, e) && NextIsSpaced(s, e)
    ensures NextIsSpaced(s', e)
  {
    match step {
      case Advance(t, expired, core) => SpacingStaysOnAdvance(s, t, expired, core, s', e);
      case Fire(t) => SpacingStaysOnFire(s, t, s', e);
      case Finish(t) => SpacingStaysOnFinish(s, t, s', e);
      case Schedule(k, _, _) => {
        assert k !in s.scheduled && e.entry.id in s.scheduled;
        hide Inv, FiringOk;
      }
      case _ => {
        hide Inv, FiringOk;
      }
    }
  }

  lemma SpacingStaysOnFire(s: State, t: nat, s': State, e: Event)
    requires Do(s, Fire(t), s') && e.Fired? && NextIsSpaced(s, e)
    ensures NextIsSpaced(s', e)
  {
    var todo, tick' := s.ticks[t].todo, s'.ticks[t];
    assert s'.core == s.core && s'.ticks == s.ticks[t := tick'] && ToRun(tick') == todo[1..] && ToRun(s.ticks[t]) == todo;
    hide Do;
    forall u, i | u in s'.ticks && 0 <= i < |ToRun(s'.ticks[u])| && ToRun(s'.ticks[u])[i].id == e.entry.id
      ensures e.entry.kind.Repeating? ==> e.target + e.entry.kind.interval <= ToRun(s'.ticks[u])[i].deadline
    {
      if u == t {
        assert ToRun(tick')[i] == ToRun(s.ticks[t])[i + 1];
      }
    }
    hide ToRun;
  }

  lemma SpacingStaysOnAdvance(s: State, t: nat, expired: seq<TimerEntry>, core: Core, s': State, e: Event)
    requires Do(s, Advance(t, expired, core), s') && e.Fired? && NextIsSpaced(s, e)
    ensures NextIsSpaced(s', e)
  {
    AdvanceMeans(s.core, s.ticks[t].target, expired, core);
    hide AdvanceStep;
    assert s'.core == core;
    assert forall u :: u in s'.ticks ==>
             (u == t && ToRun(s'.ticks[u]) == expired) || (u in s.ticks && s'.ticks[u] == s.ticks[u]);
    hide Do, ToRun;
  }

  lemma SpacingStaysOnFinish(s: State, t: nat, s': State, e: Event)
    requires Inv(s) && Do(s, Finish(t), s') && e.Fired? && FiringOk(s, e) && NextIsSpaced(s, e)
    ensures NextIsSpaced(s', e)
  {
    FinishedSets(s, t, s');
    HandIsOwned(s, t);
  }

  /** No tick call has the timer to run again right after its callback. */
  lemma NotToRunAgain(s: State, t: nat, s': State, u: nat, i: nat)
    requires Inv(s) && Inv(s') && Do(s, Fire(t), s') && u in s'.ticks && i < |ToRun(s'.ticks[u])|
    ensures ToRun(s'.ticks[u])[i].id != s.ticks[t].todo[0].id
  {
    var tick, tick', id := s.ticks[t], s'.ticks[t], s.ticks[t].todo[0].id;
    assert ToRun(s'.ticks[u])[i].id in Ids(ToRun(s'.ticks[u]));
    CallbackSets(s, t, tick, tick');
    PlacesAfterFire(s, t, s', id);
    PlacesByTick(s', u, id);
    hide Inv, Do, ToFire, InHand, Ids, ToRun, Hand;
  }

  /** What is known of a callback just run. */
  lemma CallbackIsKnown(s: State, t: nat, s': State)
    requires Inv(s) && Inv(s') && Do(s, Fire(t), s')
    ensures var e := s'.log[|s.log|]; FiringOk(s', e) && NextIsSpaced(s', e)
  {
    var tick, e := s.ticks[t], s'.log[|s.log|];
    assert TickOk(s, t, tick);
    assert ToRun(tick)[0] == tick.todo[0];
    CallbackSets(s, t, tick, s'.ticks[t]);
    PlacesAfterFire(s, t, s', e.entry.id);
    PlacesByTick(s', t, e.entry.id);
    forall u, i | u in s'.ticks && 0 <= i < |ToRun(s'.ticks[u])|
      ensures ToRun(s'.ticks[u])[i].id != e.entry.id
    {
      NotToRunAgain(s, t, s', u, i);
    }
    HandsArePlaces(s', e.entry.id);
    HandsArePlaces(s, e.entry.id);
    assert e == Fired(t, tick.target, tick.todo[0]) && s'.core == s.core && s'.scheduled == s.scheduled;
    assert s'.nextTick == s.nextTick && s'.clock == s.clock && s'.ticks[t].Firing?;
    hide Inv, Do, Ids, ToRun, Hand, AfterCallback, TickOk;
  }

  lemma CallbackIsApart(s: State, t: nat, s': State, k: nat)
    requires Inv(s) && Do(s, Fire(t), s') && LogOk(s) && k < |s.log|
    ensures Apart(s.log[k], s'.log[|s.log|])
  {
    hide Ids, Hand, LiveOk, FlightOk, IdsOk;
    var tick := s.ticks[t];
    var e := Fired(t, tick.target, tick.todo[0]);
    assert s'.log[|s.log|] == e && ToRun(tick)[0] == e.entry;
    assert TickOk(s, t, tick);
    CallbackSets(s, t, tick, s'.ticks[t]);
    hide Do, TickOk, TicksOk;
    if s.log[k].Fired? && s.log[k].entry.id == e.entry.id {
      assert FiringOk(s, s.log[k]) && NextIsSpaced(s, s.log[k]);
      assert e.entry.id in Ids(ToRun(tick));
    }
    hide Inv, LogOk, Do, Ids;
  }

  lemma OldFiringsStay(s: State, step: Step, s': State)
    requires Inv(s) && Do(s, step, s') && LogOk(s)
    ensures forall k :: 0 <= k < |s.log| && s.log[k].Fired? ==> FiringOk(s', s.log[k]) && NextIsSpaced(s', s.log[k])
  {
    forall k | 0 <= k < |s.log| && s.log[k].Fired?
      ensures FiringOk(s', s.log[k]) && NextIsSpaced(s', s.log[k])
    {
      FiringStays(s, step, s', s.log[k]);
      SpacingStays(s, step, s', s.log[k]);
    }
  }

  lemma LogGrows(s: State, s': State)
    requires LogOk(s) && |s.log| <= |s'.log| <= |s.log| + 1 && s'.log[..|s.log|] == s.log
    requires forall k :: 0 <= k < |s.log| && s.log[k].Fired? ==> FiringOk(s', s.log[k]) && NextIsSpaced(s', s.log[k])
    requires |s.log| < |s'.log| && s'.log[|s.log|].Fired? ==>
               var e := s'.log[|s.log|];
               FiringOk(s', e) && NextIsSpaced(s', e) && forall k :: 0 <= k < |s.log| ==> Apart(s.log[k], e)
    ensures LogOk(s')
  {
    hide FiringOk, NextIsSpaced;
    assert forall k :: 0 <= k < |s.log| ==> s'.log[k] == s.log[k];
  }

  lemma StepKeepsLog(s: State, step: Step, s': State)
    requires Inv(s) && Do(s, step, s') && LogOk(s)
    ensures LogOk(s')
  {
    CursorGrows(s, step, s');
    OldFiringsStay(s, step, s');
    hide Inv, FiringOk, NextIsSpaced, LogOk, Apart;
    if step.Fire? {
      StepKeepsInv(s, step, s');
      CallbackIsKnown(s, step.t, s');
      forall k | 0 <= k < |s.log| ensures Apart(s.log[k], s'.log[|s.log|]) {
        CallbackIsApart(s, step.t, s', k);
      }
    }
    LogGrows(s, s');
  }

  lemma {:induction false} RunKeepsLog(run: seq<State>, i: nat)
    requires Run(run) && i < |run|
    ensures LogOk(run[i])
  {
    if i > 0 {
      var p := i - 1;
      RunKeepsLog(run, p);
      var step := StepOf(run, p, i);
      StepKeepsLog(run[p], step, run[i]);
    }
  }

  /**
   Callbacks never run early: when one runs, the clock has passed its deadline. A timer's callback runs at most once
   per tick call, and a repeating timer's successive firing targets are at least one interval apart.
   */
  lemma FiringsAreSpaced(run: seq<State>, i: nat, k: nat, m: nat)
    requires Run(run) && i < |run| && k < |run[i].log| && m < |run[i].log|
    requires run[i].log[k].Fired? && run[i].log[m].Fired?
    ensures var e := run[i].log[k]; e.entry.deadline <= e.target <= run[i].clock
    ensures var e, e' := run[i].log[k], run[i].log[m];
            k != m && e.entry.id == e'.entry.id ==> e.tick != e'.tick
    ensures var e, e' := run[i].log[k], run[i].log[m];
            k < m && e.entry.id == e'.entry.id && e.entry.kind.Repeating? ==>
              e.target + e.entry.kind.interval <= e'.target
  {
    RunKeepsLog(run, i);
    assert FiringOk(run[i], run[i].log[k]);
    assert k < m ==> Apart(run[i].log[k], run[i].log[m]);
    assert m < k ==> Apart(run[i].log[m], run[i].log[k]);
  }

  // ---- The first firing --------------------------------------------------------------------------------------

  /** A timer is scheduled as asked: at the clock plus the delay, live at once, every other timer as it was. */
  lemma ScheduledAsAsked(s: State, id: nat, delay: nat, kind: TimerKind, s': State)
    requires Inv(s) && Do(s, Schedule(id, delay, kind), s')
    ensures s'.core.timers == s.core.timers[id := TimerEntry(id, s.clock + delay, kind)]
    ensures id !in s.scheduled && s'.scheduled == s.scheduled[id := TimerEntry(id, s.clock + delay, kind)]
  {
    hide LiveOk, FlightOk, TicksOk;
  }

  predicate Unfired(s: State, id: nat) {
    id in s.scheduled && FireCount(s.log, id) == 0
  }

  /** A timer that has not fired yet is, wherever it is, as it was scheduled; what a tick call has done has fired. */
  ghost predicate FirstOk(s: State) {
    && (forall id :: Unfired(s, id) && id in s.core.timers ==> s.core.timers[id] == s.scheduled[id])
    && (forall t :: t in s.ticks ==> HandFirstOk(s, s.ticks[t]))
  }

  ghost predicate HandFirstOk(s: State, tick: Tick) {
    && (forall i :: 0 <= i < |ToRun(tick)| && Unfired(s, ToRun(tick)[i].id) ==>
          ToRun(tick)[i] == s.scheduled[ToRun(tick)[i].id])
    && (tick.Firing? ==> forall i :: 0 <= i < |tick.done| ==> FireCount(s.log, tick.done[i].id) > 0)
  }

  /** Logs only grow, so what has fired has fired. */
  lemma FiredStays(s: State, step: Step, s': State, id: nat)
    requires Inv(s) && Do(s, step, s')
    ensures FireCount(s.log, id) <= FireCount(s'.log, id)
    ensures id in s.scheduled ==> id in s'.scheduled && s'.scheduled[id] == s.scheduled[id]
  {
    SchedulesStay(s, step, s');
    CursorGrows(s, step, s');
    hide Do, Inv, FireCount, CancelCount;
    if |s'.log| == |s.log| {
      assert s'.log == s'.log[..|s.log|] == s.log;
    } else {
      assert s'.log == s.log + [s'.log[|s.log|]];
      CountNext(s.log, s'.log[|s.log|], id);
    }
  }

  lemma HandStaysFirst(s: State, s': State, tick: Tick)
    requires HandFirstOk(s, tick)
    requires forall id :: FireCount(s.log, id) <= FireCount(s'.log, id)
    requires forall id :: id in s.scheduled ==> id in s'.scheduled && s'.scheduled[id] == s.scheduled[id]
    requires forall i :: 0 <= i < |ToRun(tick)| ==> ToRun(tick)[i].id in s.scheduled
    ensures HandFirstOk(s', tick)
  {
    hide FireCount, ToRun;
  }

  /** Tick calls a step does not touch. */
  lemma OtherHandsFirst(s: State, step: Step, s': State, u: nat)
    requires Inv(s) && Do(s, step, s') && FirstOk(s) && u in s.ticks
    ensures HandFirstOk(s', s.ticks[u])
  {
    forall id ensures FireCount(s.log, id) <= FireCount(s'.log, id)
                      && (id in s.scheduled ==> id in s'.scheduled && s'.scheduled[id] == s.scheduled[id])
    {
      hide Do, Inv, FireCount, FirstOk;
      FiredStays(s, step, s', id);
    }
    assert HandFirstOk(s, s.ticks[u]);
    hide Do, FireCount, FirstOk;
    HeldAreScheduled(s, u);
    hide Inv;
    HandStaysFirst(s, s', s.ticks[u]);
  }

  lemma HeldAreScheduled(s: State, u: nat)
    requires TicksOk(s) && u in s.ticks
    ensures forall i :: 0 <= i < |ToRun(s.ticks[u])| ==> ToRun(s.ticks[u])[i].id in s.scheduled
  {
    var tick := s.ticks[u];
    assert TickOk(s, u, tick);
    forall i | 0 <= i < |ToRun(tick)| ensures ToRun(tick)[i].id in s.scheduled {
      var h := if tick.Firing? then |tick.done| + i else i;
      assert Hand(tick)[h] == ToRun(tick)[i] && SameTimer(s, Hand(tick)[h]);
    }
  }

  lemma LiveStaysFirst(s: State, step: Step, s': State, id: nat)
    requires Inv(s) && Do(s, step, s') && FirstOk(s) && Unfired(s', id) && id in s'.core.timers
    ensures s'.core.timers[id] == s'.scheduled[id]
  {
    hide FireCount;
    FiredStays(s, step, s', id);
    match step
    case Schedule(k, delay, kind) =>
      ScheduledAsAsked(s, k, delay, kind, s');
      assert s'.log == s.log;
      hide Do, Inv;
    case Advance(t, expired, core) =>
      AdvanceMeans(s.core, s.ticks[t].target, expired, core);
      LiveAreScheduled(s, id);
      assert s'.core == core && s'.scheduled == s.scheduled;
      hide Do, Inv;
    case Finish(t) =>
      LiveAfterFinish(s, t, s', id);
    case _ =>
      LiveAreScheduled(s, id);
      assert id in s.core.timers && s'.core.timers[id] == s.core.timers[id] && s'.scheduled == s.scheduled by {
        hide Inv, FirstOk, Unfired;
      }
      hide Do, Inv;
  }

  lemma LiveAfterFinish(s: State, t: nat, s': State, id: nat)
    requires Inv(s) && Do(s, Finish(t), s') && FirstOk(s) && Unfired(s', id) && id in s'.core.timers
    ensures s'.core.timers[id] == s'.scheduled[id]
  {
    FiredStays(s, Finish(t), s', id);
    FinishedSets(s, t, s');
    assert HandFirstOk(s, s.ticks[t]);
    assert s'.scheduled == s.scheduled;
    hide RearmStep, FireCount, Inv;
    assert id !in Ids(s.ticks[t].done);
    LiveAreScheduled(s, id);
  }

  lemma LiveAreScheduled(s: State, id: nat)
    requires Inv(s)
    ensures id in s.core.timers ==> id in s.scheduled
  {}

  /** The tick call a step does touch. */
  lemma OwnHandFirst(s: State, step: Step, s': State)
    requires Inv(s) && Do(s, step, s') && FirstOk(s)
    requires step.Begin? || step.Advance? || step.Mark? || step.Fire?
    ensures var t := if step.Begin? then s.nextTick else step.t;
            t in s'.ticks ==> HandFirstOk(s', s'.ticks[t])
  {
    hide FireCount, Inv;
    match step
    case Begin =>
    case Advance(t, expired, core) => PoppedFirst(s, t, expired, core, s');
    case Mark(t) =>
      OtherHandsFirst(s, step, s', t);
      assert ToRun(s'.ticks[t]) == ToRun(s.ticks[t]);
    case Fire(t) => FiredHandFirst(s, t, s');
  }

  lemma PoppedFirst(s: State, t: nat, expired: seq<TimerEntry>, core: Core, s': State)
    requires Inv(s) && Do(s, Advance(t, expired, core), s') && FirstOk(s)
    ensures t in s'.ticks ==> HandFirstOk(s', s'.ticks[t])
  {
    AdvanceMeans(s.core, s.ticks[t].target, expired, core);
    assert s'.scheduled == s.scheduled;
    if t in s'.ticks {
      assert s'.ticks[t] == Expired(s.ticks[t].target, expired) && s'.log == s.log;
      hide FireCount, AdvanceStep, Inv, Do;
      assert forall i :: 0 <= i < |expired| && Unfired(s', expired[i].id) ==> Unfired(s, expired[i].id);
    }
  }

  lemma FiredHandFirst(s: State, t: nat, s': State)
    requires Inv(s) && Do(s, Fire(t), s') && FirstOk(s)
    ensures HandFirstOk(s', s'.ticks[t])
  {
    hide FireCount, CancelCount, AfterCallback;
    OtherHandsFirst(s, Fire(t), s', t);
    var tick := s.ticks[t];
    var fired := Fired(t, tick.target, tick.todo[0]);
    CountNext(s.log, fired, tick.todo[0].id);
    assert s'.log == s.log + [fired] && IsFiring(fired, tick.todo[0].id);
    assert s'.ticks[t] == AfterCallback(tick);
    hide Inv, Do, FirstOk;
    HandAfterCallback(s', tick);
  }

  lemma HandAfterCallback(s: State, tick: Tick)
    requires tick.Firing? && tick.todo != [] && HandFirstOk(s, tick) && FireCount(s.log, tick.todo[0].id) > 0
    ensures HandFirstOk(s, AfterCallback(tick))
  {
    hide FireCount;
    var after := AfterCallback(tick);
    assert forall i :: 0 <= i < |after.todo| ==> after.todo[i] == ToRun(tick)[i + 1];
  }

  lemma StepKeepsFirst(s: State, step: Step, s': State)
    requires Inv(s) && Do(s, step, s') && FirstOk(s)
    ensures FirstOk(s')
  {
    forall id | Unfired(s', id) && id in s'.core.timers ensures s'.core.timers[id] == s'.scheduled[id] {
      LiveStaysFirst(s, step, s', id);
    }
    hide Unfired, HandFirstOk, FirstOk;
    if step.Begin? || step.Advance? || step.Mark? || step.Fire? {
      OwnHandFirst(s, step, s');
    }
    forall t | t in s'.ticks ensures HandFirstOk(s', s'.ticks[t]) {
      if t in s.ticks && s'.ticks[t] == s.ticks[t] {
        OtherHandsFirst(s, step, s', t);
      } else {
        assert t == if step.Begin? then s.nextTick else step.t;
      }
    }
    FirstOkFrom(s');
  }

  lemma FirstOkFrom(s: State)
    requires forall id :: Unfired(s, id) && id in s.core.timers ==> s.core.timers[id] == s.scheduled[id]
    requires forall t :: t in s.ticks ==> HandFirstOk(s, s.ticks[t])
    ensures FirstOk(s)
  {
    hide HandFirstOk, Unfired;
  }

  lemma {:induction false} RunKeepsFirst(run: seq<State>, i: nat)
    requires Run(run) && i < |run|
    ensures FirstOk(run[i])
  {
    if i > 0 {
      hide FirstOk, Do;
      var p := i - 1;
      RunKeepsFirst(run, p);
      var step := StepOf(run, p, i);
      StepKeepsFirst(run[p], step, run[i]);
    }
  }

  /**
   The first firing, of one-shot and repeating timers alike: a timer nobody cancelled that has not fired yet has, while
   it is live, the deadline it was scheduled with; and once some tick call with a later target has completed it is no
   longer live, but about to fire in a tick call still running.
   */
  lemma FirstFiringIsOnTime(run: seq<State>, i: nat, id: nat, k: nat)
    requires Run(run) && i < |run| && id in run[i].scheduled
    requires FireCount(run[i].log, id) == 0 && Cancelled(id) !in run[i].log
    ensures id in run[i].core.timers ==> run[i].core.timers[id] == run[i].scheduled[id]
    ensures k < |run[i].log| && run[i].log[k].Finished? && run[i].scheduled[id].deadline < run[i].log[k].target ==>
              id !in run[i].core.timers && ToFire(run[i], id) && run[i].ticks != map[]
  {
    var s := run[i];
    RunKeepsFirst(run, i);
    RunKeepsInv(run, i);
    assert Unfired(s, id);
    if k < |s.log| && s.log[k].Finished? && s.scheduled[id].deadline < s.log[k].target {
      FinishedBehind(run, i, k);
      assert id !in s.core.timers;
      UnfiredIsToFire(run, i, id);
    }
  }

  lemma UnfiredIsToFire(run: seq<State>, i: nat, id: nat)
    requires Run(run) && i < |run| && id in run[i].scheduled && id !in run[i].core.timers
    requires FireCount(run[i].log, id) == 0 && Cancelled(id) !in run[i].log
    ensures ToFire(run[i], id)
  {
    var s := run[i];
    RunKeepsFirst(run, i);
    RunAccounts(run, i, id);
    NoCancelCount(s.log, id);
    if s.scheduled[id].kind.Repeating? {
      assert InHand(s, id);
      HeldUnfired(s, s.owner[id], id);
    }
  }

  /** What a tick call holds and has not fired, it has yet to run. */
  lemma HeldUnfired(s: State, t: nat, id: nat)
    requires t in s.ticks && HandFirstOk(s, s.ticks[t]) && id in Ids(Hand(s.ticks[t])) && FireCount(s.log, id) == 0
    ensures id in Ids(ToRun(s.ticks[t]))
  {
    var tick := s.ticks[t];
    hide FireCount;
    if tick.Firing? {
      IdsConcat(tick.done, tick.todo);
      forall i | 0 <= i < |tick.done| ensures tick.done[i].id != id {
        assert FireCount(s.log, tick.done[i].id) > 0;
      }
    }
  }
}
