/** The wheel refines the timer service: driven by any script of operations, it passes
    through exactly the states of the service and emits exactly what the service fires. */
module WheelRefinement {
  import opened Wrappers
  import opened WheelConfig
  import opened TimerModel
  import opened TimerRuns
  import opened TimeWheel
  import WheelCore

  ghost predicate Matches<T>(wheel: Wheel<T>, w: World<T>)
    reads wheel, wheel.tasks
  {
    wheel.Now() == w.clock && wheel.View() == w.live && wheel.tasks.nextKey == w.issued
  }

  /** `log` holds every firing once, with the deadline it had. */
  ghost predicate Logged<T>(w: World<T>, log: seq<Expired<T>>)
  {
    && Ids(log) == w.fired.Keys
    && (forall i :: 0 <= i < |log| ==> log[i].id in w.fired && w.fired[log[i].id].deadline == log[i].deadline)
    && (forall i, j :: 0 <= i < j < |log| ==> log[i].id != log[j].id)
  }

  lemma LogMore<T>(w: World<T>, elapsed: nat, c: Clock, log: seq<Expired<T>>, out: seq<Expired<T>>)
    requires Sound(w) && AdvanceClock(w.clock, elapsed) == Ok(c) && Logged(w, log)
    requires Emits(w.live, Remaining(w.live, c.tick), out) && WheelCore.DueBy(out, c.tick)
    ensures Logged(Step(w, Advance(elapsed)), log + out)
  {
    EmitsDue(w.live, Remaining(w.live, c.tick), out, c.tick);
    IdsConcat(log, out);
    hide Emits, Nanos, ClockOk, AdvanceClock;
    LogEntries(w, elapsed, c, log, out);
  }

  lemma LogEntries<T>(w: World<T>, elapsed: nat, c: Clock, log: seq<Expired<T>>, out: seq<Expired<T>>)
    requires Sound(w) && AdvanceClock(w.clock, elapsed) == Ok(c) && Logged(w, log)
    requires Emits(w.live, Remaining(w.live, c.tick), out) && Ids(out) == Due(w.live, c.tick).Keys
    ensures var w', all := Step(w, Advance(elapsed)), log + out;
      && (forall i :: 0 <= i < |all| ==> all[i].id in w'.fired && w'.fired[all[i].id].deadline == all[i].deadline)
      && (forall i, j :: 0 <= i < j < |all| ==> all[i].id != all[j].id)
  {
    hide Nanos, AdvanceClock;
    var w', all := Step(w, Advance(elapsed)), log + out;
    forall i | 0 <= i < |all| ensures all[i].id in w'.fired && w'.fired[all[i].id].deadline == all[i].deadline {
      if i < |log| {
        assert log[i].id in w.fired && log[i].id !in w.live;
      } else {
        assert out[i - |log|].id in Ids(out);
      }
    }
    forall i, j | 0 <= i < j < |all| ensures all[i].id != all[j].id {
      if i < |log| <= j { assert log[i].id in w.fired && out[j - |log|].id in w.live; }
    }
  }

  /** One operation on the wheel is one step of the service. */
  method Apply<T>(wheel: Wheel<T>, op: Op<T>, ghost w: World<T>) returns (out: seq<Expired<T>>)
    requires wheel.Valid() && Sound(w) && Matches(wheel, w)
    modifies wheel, wheel.tasks, wheel.heap
    ensures wheel.Valid() && Matches(wheel, Step(w, op))
    ensures Yields(w, op, out)
  {
    hide Emits, WheelCore.DueBy, WheelCore.ViewOf, Remaining, AdvanceClock, DeadlineAfter, Nanos, Wheel.Valid;
    if op.Advance? {
      var _, emitted := wheel.AdvanceBy(op.elapsed);
      return emitted;
    }
    ApplyOther(wheel, op, w);
    out := [];
  }

  /** What the operation `op` in state `w` may emit. */
  ghost predicate Yields<T>(w: World<T>, op: Op<T>, out: seq<Expired<T>>)
    requires w.clock.base > 0
  {
    if op.Advance? && AdvanceClock(w.clock, op.elapsed).Ok? then
      Emits(w.live, Step(w, op).live, out) && WheelCore.DueBy(out, Step(w, op).clock.tick)
    else out == []
  }

  method ApplyOther<T>(wheel: Wheel<T>, op: Op<T>, ghost w: World<T>)
    requires wheel.Valid() && Sound(w) && Matches(wheel, w) && !op.Advance?
    modifies wheel, wheel.tasks, wheel.heap
    ensures wheel.Valid() && Matches(wheel, Step(w, op))
  {
    hide WheelCore.ViewOf, DeadlineAfter, Nanos, Wheel.Valid;
    match op {
      case Insert(item, delay) => var _ := wheel.Insert(item, delay);
      case Reschedule(id, delay) => var _ := wheel.Reschedule(id, delay);
      case Cancel(id) =>
        var _ := wheel.Cancel(id);
        assert id !in w.live ==> w.live - {id} == w.live;
      case Clear => var _, order := wheel.Clear();
    }
  }

  /** Every run of the wheel, from a valid configuration, is a run of the service. */
  method RunScript<T>(config: Config, ops: seq<Op<T>>) returns (wheel: Wheel<T>, log: seq<Expired<T>>)
    requires Layout(config.levels) && 0 < config.baseTickNanos <= U64_MAX
    ensures wheel.Valid() && Matches(wheel, Run(Start(config.baseTickNanos), ops))
    ensures Logged(Run(Start(config.baseTickNanos), ops), log)
  {
    wheel := new Wheel(config);
    ghost var w := Start<T>(config.baseTickNanos);
    log := [];
    assert Sound(w);
    assert Ids(log) == {};
    hide Logged, Sound, Matches, Step, Layout, Wheel.Valid, Yields;
    for n := 0 to |ops|
      invariant wheel.Valid() && fresh(wheel) && fresh(wheel.tasks) && fresh(wheel.heap)
      invariant w.clock.base > 0 && w == Run(Start(config.baseTickNanos), ops[..n])
      invariant Sound(w) && Matches(wheel, w) && Logged(w, log)
    {
      assert ops[..n + 1] == ops[..n] + [ops[n]];
      RunSnoc(Start(config.baseTickNanos), ops[..n], ops[n]);
      var out := Apply(wheel, ops[n], w);
      StepSound(w, ops[n]);
      LogStep(w, ops[n], log, out);
      w := Step(w, ops[n]);
      log := log + out;
    }
    assert ops[..|ops|] == ops;
  }

  lemma LogStep<T>(w: World<T>, op: Op<T>, log: seq<Expired<T>>, out: seq<Expired<T>>)
    requires Sound(w) && Logged(w, log) && Yields(w, op, out)
    ensures Logged(Step(w, op), log + out)
  {
    if op.Advance? && AdvanceClock(w.clock, op.elapsed).Ok? {
      LogMore(w, op.elapsed, AdvanceClock(w.clock, op.elapsed).value, log, out);
    } else {
      assert log + out == log;
    }
  }
}
