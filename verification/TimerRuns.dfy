/** Whole runs of the timer service: time is conserved, every timer fires at most once and
    on time, and the reported wait is exact. */
module TimerRuns {
  import opened Wrappers
  import opened SlotTable
  import opened TimerModel

  datatype Op<T> =
    | Insert(item: T, delay: nat)
    | Reschedule(id: Key, delay: nat)
    | Cancel(id: Key)
    | Advance(elapsed: nat)
    | Clear

  /** A timer that fired during the advance from tick `from` to tick `at`. */
  datatype Firing = Firing(deadline: nat, from: nat, at: nat)

  /** The service with its history: what fired, what was cancelled, how much time passed. */
  datatype World<T> = World(
    clock: Clock, live: map<Key, Timer<T>>, issued: nat,
    fired: map<Key, Firing>, cancelled: set<Key>, elapsed: nat)

  function Start<T>(base: nat): World<T>
  {
    World(Clock(0, 0, base), map[], 0, map[], {}, 0)
  }

  /** One operation, as the wheel's contracts state it. A refused operation changes nothing. */
  function Step<T>(w: World<T>, op: Op<T>): World<T>
    requires w.clock.base > 0
    ensures Step(w, op).clock.base == w.clock.base
  {
    match op
    case Insert(item, delay) =>
      (match DeadlineAfter(w.clock, delay)
       case Err(_) => w
       case Ok(d) => w.(live := w.live[w.issued := Timer(item, d)], issued := w.issued + 1))
    case Reschedule(id, delay) =>
      if id !in w.live then w else
      (match DeadlineAfter(w.clock, delay)
       case Err(_) => w
       case Ok(d) => w.(live := w.live[id := w.live[id].(deadline := d)]))
    case Cancel(id) =>
      if id !in w.live then w else w.(live := w.live - {id}, cancelled := w.cancelled + {id})
    case Advance(elapsed) =>
      (match AdvanceClock(w.clock, elapsed)
       case Err(_) => w
       case Ok(c) =>
         var due := Due(w.live, c.tick);
         w.(clock := c, live := Remaining(w.live, c.tick), elapsed := w.elapsed + elapsed,
            fired := w.fired + map k | k in due :: Firing(due[k].deadline, w.clock.tick, c.tick)))
    case Clear => w.(live := map[], cancelled := w.cancelled + w.live.Keys)
  }

  function Run<T>(w: World<T>, ops: seq<Op<T>>): World<T>
    requires w.clock.base > 0
    ensures Run(w, ops).clock.base == w.clock.base
    decreases |ops|
  {
    if |ops| == 0 then w else Run(Step(w, ops[0]), ops[1..])
  }

  lemma {:induction false} RunSnoc<T>(w: World<T>, ops: seq<Op<T>>, op: Op<T>)
    requires w.clock.base > 0
    ensures Run(w, ops + [op]) == Step(Run(w, ops), op)
    decreases |ops|
  {
    if |ops| == 0 {
      assert ([] + [op])[1..] == [];
    } else {
      assert (ops + [op])[1..] == ops[1..] + [op];
      RunSnoc(Step(w, ops[0]), ops[1..], op);
    }
  }

  /** Clock and elapsed time agree; every id issued is live, fired or cancelled, and only
      one of them; nothing live is overdue, and nothing fired early or late. */
  ghost predicate Sound<T>(w: World<T>)
  {
    && ClockOk(w.clock)
    && Nanos(w.clock) == w.elapsed
    && (forall k: Key :: k < w.issued <==> k in w.live || k in w.fired || k in w.cancelled)
    && (forall k :: k in w.live ==> k !in w.fired && k !in w.cancelled && w.clock.tick <= w.live[k].deadline)
    && (forall k :: k in w.fired ==>
          k !in w.cancelled && w.fired[k].from <= w.fired[k].deadline <= w.fired[k].at <= w.clock.tick)
  }

  lemma StepSound<T>(w: World<T>, op: Op<T>)
    requires Sound(w)
    ensures Sound(Step(w, op))
  {
    match op {
      case Insert(_, delay) =>
        DeadlineBounds(w.clock, delay);
        assert w.issued !in w.live && w.issued !in w.fired && w.issued !in w.cancelled;
      case Reschedule(_, delay) => DeadlineBounds(w.clock, delay);
      case Cancel(_) =>
      case Advance(elapsed) =>
        if AdvanceClock(w.clock, elapsed).Ok? {
          AdvanceConserves(w.clock, elapsed);
          AdvanceSound(w, AdvanceClock(w.clock, elapsed).value, elapsed);
        }
      case Clear =>
    }
  }

  lemma AdvanceSound<T>(w: World<T>, c: Clock, elapsed: nat)
    requires Sound(w) && AdvanceClock(w.clock, elapsed) == Ok(c)
    requires ClockOk(c) && w.clock.tick <= c.tick && Nanos(c) == Nanos(w.clock) + elapsed
    ensures Sound(Step(w, Advance(elapsed)))
  {
    hide Nanos, ClockOk;
  }

  /** Every reachable state is sound. */
  lemma {:induction false} RunSound<T>(w: World<T>, ops: seq<Op<T>>)
    requires Sound(w)
    ensures Sound(Run(w, ops))
    decreases |ops|
  {
    if |ops| > 0 {
      StepSound(w, ops[0]);
      RunSound(Step(w, ops[0]), ops[1..]);
    }
  }

  lemma ReachableSound<T>(base: nat, ops: seq<Op<T>>)
    requires 0 < base <= U64_MAX
    ensures Sound(Run(Start<T>(base), ops))
  {
    RunSound(Start<T>(base), ops);
  }

  // ---- When a timer fires ----

  /** From setting the timer until it is due, this much time must pass. */
  ghost function DueAfter(c: Clock, delay: nat): int
    requires c.base > 0 && DeadlineAfter(c, delay).Ok?
  {
    DeadlineAfter(c, delay).value * c.base - Nanos(c)
  }

  lemma CeilBounds(a: nat, b: nat)
    requires b > 0
    ensures a <= CeilDiv(a, b) * b < a + b
  {
    var n := a + b - 1;
    assert n == b * (n / b) + n % b;
  }

  /** Never early, and less than one tick late. */
  lemma DueWindow(c: Clock, delay: nat)
    requires ClockOk(c) && delay > 0 && DeadlineAfter(c, delay).Ok?
    ensures delay <= DueAfter(c, delay) < delay + c.base
  {
    CeilBounds(delay + c.remainder, c.base);
    Distribute(c.tick, CeilDiv(delay + c.remainder, c.base), c.base);
  }

  /** A deadline tick is reached exactly when the nanoseconds of its ticks have passed. */
  lemma TickReached(c: Clock, d: nat)
    requires ClockOk(c)
    ensures d <= c.tick <==> d * c.base <= Nanos(c)
  {
    if d <= c.tick {
      Distribute(d, c.tick - d, c.base);
    } else {
      Distribute(c.tick, d - c.tick, c.base);
      ProductAtLeast(d - c.tick, c.base);
    }
  }

  ghost predicate Untouched<T>(ops: seq<Op<T>>, id: Key)
  {
    forall i :: 0 <= i < |ops| ==> !ops[i].Clear? && ops[i] != Cancel(id) && !(ops[i].Reschedule? && ops[i].id == id)
  }

  /** Timer `id` is live with deadline `d`, or fired and its deadline has passed. */
  ghost predicate Tracks<T>(w: World<T>, id: Key, d: nat)
  {
    && id < w.issued && Sound(w)
    && (id in w.live ==> w.live[id].deadline == d && id !in w.fired)
    && (id in w.fired ==> d <= w.clock.tick)
    && (id in w.live || id in w.fired)
  }

  lemma StepTracks<T>(w: World<T>, op: Op<T>, id: Key, d: nat)
    requires Tracks(w, id, d) && Untouched([op], id)
    ensures Tracks(Step(w, op), id, d)
    ensures w.elapsed <= Step(w, op).elapsed
  {
    StepSound(w, op);
    assert [op][0] == op;
    if op.Advance? && AdvanceClock(w.clock, op.elapsed).Ok? { AdvanceConserves(w.clock, op.elapsed); }
    hide Sound, ClockOk;
  }

  /** A timer set with delay D > 0 and left alone has fired exactly when, counted from its
      insertion, at least X time has passed, where D <= X < D + one tick. The bound X is
      fixed at insertion: it does not depend on how the time is split over calls, nor on
      anything else done in between. */
  lemma FiresOnTime<T>(w: World<T>, item: T, delay: nat, ops: seq<Op<T>>)
    requires Sound(w) && delay > 0 && DeadlineAfter(w.clock, delay).Ok?
    requires Untouched(ops, w.issued)
    ensures var x, w' := DueAfter(w.clock, delay), Run(Step(w, Insert(item, delay)), ops);
      && delay <= x < delay + w.clock.base
      && w.elapsed <= w'.elapsed
      && (w.issued in w'.fired <==> w'.elapsed - w.elapsed >= x)
      && (w.issued in w'.live <==> w'.elapsed - w.elapsed < x)
  {
    var d, id := DeadlineAfter(w.clock, delay).value, w.issued;
    var w1 := Step(w, Insert(item, delay));
    DueWindow(w.clock, delay);
    StepSound(w, Insert(item, delay));
    TickReached(w.clock, d);
    RunAhead(w1, ops, id, d);
    TickReached(Run(w1, ops).clock, d);
  }

  /** A timer strictly in the future is live until its deadline tick, and fired from then on. */
  lemma {:induction false} RunAhead<T>(w: World<T>, ops: seq<Op<T>>, id: Key, d: nat)
    requires Sound(w) && id in w.live && w.live[id].deadline == d && w.clock.tick < d && Untouched(ops, id)
    ensures var w' := Run(w, ops);
      && Sound(w') && w.elapsed <= w'.elapsed
      && (id in w'.fired <==> d <= w'.clock.tick) && (id in w'.live <==> w'.clock.tick < d)
    decreases |ops|
  {
    if |ops| > 0 {
      var w1 := Step(w, ops[0]);
      assert id < w.issued;
      assert Tracks(w, id, d);
      assert Untouched([ops[0]], id);
      StepTracks(w, ops[0], id, d);
      assert Untouched(ops[1..], id);
      StepAhead(w, ops[0], id, d);
      if id in w1.live {
        RunAhead(w1, ops[1..], id, d);
      } else {
        RunGone(w1, ops[1..], id, d);
      }
    }
  }

  lemma StepAhead<T>(w: World<T>, op: Op<T>, id: Key, d: nat)
    requires Sound(w) && id in w.live && w.live[id].deadline == d && w.clock.tick < d && Untouched([op], id)
    ensures id in Step(w, op).live ==> Step(w, op).clock.tick < d && Step(w, op).live[id].deadline == d
  {
    assert [op][0] == op;
    hide ClockOk, Nanos, DeadlineAfter;
  }

  /** Once fired, a timer stays fired. */
  lemma {:induction false} RunGone<T>(w: World<T>, ops: seq<Op<T>>, id: Key, d: nat)
    requires Tracks(w, id, d) && id in w.fired && Untouched(ops, id)
    ensures var w' := Run(w, ops);
      Sound(w') && id in w'.fired && id !in w'.live && d <= w'.clock.tick && w.elapsed <= w'.elapsed
    decreases |ops|
  {
    if |ops| > 0 {
      assert [ops[0]][0] == ops[0];
      StepTracks(w, ops[0], id, d);
      assert Untouched(ops[1..], id);
      RunGone(Step(w, ops[0]), ops[1..], id, d);
    }
  }

  // ---- Sleeping exactly until the next deadline ----

  /** `d` is the earliest deadline among the live timers. */
  ghost predicate LeastDeadline<T>(live: map<Key, Timer<T>>, d: nat)
  {
    (exists k :: k in live && live[k].deadline == d) && forall k :: k in live ==> d <= live[k].deadline
  }

  lemma WaitReaches(c: Clock, d: nat)
    requires ClockOk(c) && c.tick <= d && WaitFor(c, d).Ok?
    ensures d * c.base <= Nanos(c) + WaitFor(c, d).value < d * c.base + c.base
    ensures WaitFor(c, d).value > 0 ==> Nanos(c) + WaitFor(c, d).value == d * c.base
  {
    if d > c.tick { Distribute(c.tick, d - c.tick, c.base); }
  }

  /** Advancing by the reported wait expires the earliest timers and no others; advancing by
      anything shorter expires none. */
  lemma ExactSleep<T>(w: World<T>, d: nat, shorter: nat)
    requires Sound(w) && LeastDeadline(w.live, d) && WaitFor(w.clock, d).Ok?
    ensures var wait := WaitFor(w.clock, d).value;
      && (AdvanceClock(w.clock, wait).Ok? ==>
            var c := AdvanceClock(w.clock, wait).value;
            && c.tick == d
            && Due(w.live, c.tick) != map[]
            && forall k :: k in Due(w.live, c.tick) ==> w.live[k].deadline == d)
      && (shorter < wait && AdvanceClock(w.clock, shorter).Ok? ==>
            Due(w.live, AdvanceClock(w.clock, shorter).value.tick) == map[])
  {
    var wait := WaitFor(w.clock, d).value;
    var k0 :| k0 in w.live && w.live[k0].deadline == d;
    WaitReaches(w.clock, d);
    hide WaitFor, AdvanceClock;
    if AdvanceClock(w.clock, wait).Ok? {
      var c := AdvanceClock(w.clock, wait).value;
      AdvanceConserves(w.clock, wait);
      TickReached(c, d);
      TickReached(c, d + 1);
      Distribute(d, 1, c.base);
      assert k0 in Due(w.live, c.tick);
    }
    if shorter < wait && AdvanceClock(w.clock, shorter).Ok? {
      var c := AdvanceClock(w.clock, shorter).value;
      AdvanceConserves(w.clock, shorter);
      TickReached(c, d);
      assert Due(w.live, c.tick) == map[];
    }
  }
}
