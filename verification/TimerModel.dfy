/** The simple timer service that the wheel must be indistinguishable from: a map from
    timer id to payload and deadline tick, and a clock. */
module TimerModel {
  import opened Wrappers
  import opened SlotTable

  datatype Timer<T> = Timer(item: T, deadline: nat)

  datatype Expired<T> = Expired(id: Key, item: T, deadline: nat)

  /** `tick` whole ticks plus `remainder` nanoseconds have passed; a tick lasts `base` nanoseconds. */
  datatype Clock = Clock(tick: nat, remainder: nat, base: nat)

  ghost predicate ClockOk(c: Clock)
  {
    0 < c.base <= U64_MAX && c.remainder < c.base && c.tick <= U64_MAX
  }

  ghost function Nanos(c: Clock): nat
  {
    c.tick * c.base + c.remainder
  }

  function CeilDiv(a: nat, b: nat): nat
    requires b > 0
  {
    (a + b - 1) / b
  }

  /** Deadline tick of a timer set now: rounded up, and never before the delay has passed. */
  function DeadlineAfter(c: Clock, delay: nat): Result<nat, TimerError>
    requires c.base > 0
  {
    var ticks := if delay == 0 then 0 else CeilDiv(delay + c.remainder, c.base);
    if c.tick + ticks > U64_MAX then Err(DelayOverflow) else Ok(c.tick + ticks)
  }

  lemma DeadlineBounds(c: Clock, delay: nat)
    requires ClockOk(c)
    ensures DeadlineAfter(c, delay).Ok? ==> c.tick <= DeadlineAfter(c, delay).value <= U64_MAX
  {
  }

  function AdvanceClock(c: Clock, elapsed: nat): Result<Clock, TimerError>
    requires c.base > 0
  {
    var total := c.remainder + elapsed;
    if total > U64_MAX then Err(ElapsedOverflow)
    else if c.tick + total / c.base > U64_MAX then Err(ClockOverflow)
    else Ok(Clock(c.tick + total / c.base, total % c.base, c.base))
  }

  /** The whole ticks that pass while the clock advances. */
  function TicksIn(c: Clock, elapsed: nat): nat
    requires c.base > 0
  {
    (c.remainder + elapsed) / c.base
  }

  lemma AdvanceTicks(c: Clock, elapsed: nat)
    requires c.base > 0 && AdvanceClock(c, elapsed).Ok?
    ensures AdvanceClock(c, elapsed).value.tick == c.tick + TicksIn(c, elapsed)
  {
  }

  /** Elapsed time is conserved: whole ticks and remainder add up to all the nanoseconds. */
  lemma AdvanceConserves(c: Clock, elapsed: nat)
    requires ClockOk(c) && AdvanceClock(c, elapsed).Ok?
    ensures var c' := AdvanceClock(c, elapsed).value;
      ClockOk(c') && c'.base == c.base && c.tick <= c'.tick && Nanos(c') == Nanos(c) + elapsed
  {
    hide AdvanceClock;
    var ticks, rest := TicksPassed(c, elapsed);
    Carried(c.tick, ticks, c.base, rest, c.remainder + elapsed);
  }

  lemma TicksPassed(c: Clock, elapsed: nat) returns (ticks: nat, rest: nat)
    requires ClockOk(c) && AdvanceClock(c, elapsed).Ok?
    ensures AdvanceClock(c, elapsed).value == Clock(c.tick + ticks, rest, c.base)
    ensures c.tick + ticks <= U64_MAX && rest < c.base && c.remainder + elapsed == ticks * c.base + rest
  {
    ticks, rest := (c.remainder + elapsed) / c.base, (c.remainder + elapsed) % c.base;
    DivSplit(c.remainder + elapsed, c.base);
  }

  lemma DivSplit(n: nat, b: nat)
    requires b > 0
    ensures n == (n / b) * b + n % b
  {
  }

  lemma Carried(tick: nat, ticks: nat, base: nat, rest: nat, total: nat)
    requires total == ticks * base + rest
    ensures (tick + ticks) * base + rest == tick * base + total
  {
    Distribute(tick, ticks, base);
  }

  lemma Distribute(a: nat, b: nat, n: nat)
    ensures (a + b) * n == a * n + b * n
  {
  }

  function Remaining<T>(live: map<Key, Timer<T>>, tick: nat): map<Key, Timer<T>>
  {
    map k | k in live && live[k].deadline > tick :: live[k]
  }

  function Due<T>(live: map<Key, Timer<T>>, tick: nat): map<Key, Timer<T>>
  {
    map k | k in live && live[k].deadline <= tick :: live[k]
  }

  /** Time until the earliest deadline, in nanoseconds. */
  function WaitFor(c: Clock, deadline: nat): Result<nat, TimerError>
    requires c.remainder < c.base
  {
    if deadline <= c.tick then Ok(0)
    else
      ProductAtLeast(deadline - c.tick, c.base);
      var nanos := (deadline - c.tick) * c.base - c.remainder;
      if nanos / 1_000_000_000 > U64_MAX then Err(DeadlineOverflow) else Ok(nanos)
  }

  lemma ProductAtLeast(a: nat, b: nat)
    requires a >= 1
    ensures a * b >= b
  {
  }

  // ---- Emission ----

  ghost function Ids<T>(out: seq<Expired<T>>): set<Key>
  {
    set i | 0 <= i < |out| :: out[i].id
  }

  /** `out` holds exactly the timers in `before` and not in `after`, once each. */
  ghost predicate Emits<T>(before: map<Key, Timer<T>>, after: map<Key, Timer<T>>, out: seq<Expired<T>>)
  {
    && before.Keys == after.Keys + Ids(out)
    && (forall k :: k in after ==> k in before && after[k] == before[k])
    && (forall i :: 0 <= i < |out| ==>
          out[i].id !in after && out[i].id in before && before[out[i].id] == Timer(out[i].item, out[i].deadline))
    && (forall i, j :: 0 <= i < j < |out| ==> out[i].id != out[j].id)
  }

  ghost predicate SortedByDeadline<T>(out: seq<Expired<T>>)
  {
    forall i, j :: 0 <= i < j < |out| ==> out[i].deadline <= out[j].deadline
  }

  lemma EmitsNothing<T>(v: map<Key, Timer<T>>)
    ensures Emits(v, v, [])
  {
    assert Ids<T>([]) == {};
  }

  lemma IdsConcat<T>(a: seq<Expired<T>>, b: seq<Expired<T>>)
    ensures Ids(a + b) == Ids(a) + Ids(b)
  {
    forall k | k in Ids(a) + Ids(b) ensures k in Ids(a + b) {
      if k in Ids(a) {
        var i :| 0 <= i < |a| && a[i].id == k;
        assert (a + b)[i].id == k;
      } else {
        var i :| 0 <= i < |b| && b[i].id == k;
        assert (a + b)[|a| + i].id == k;
      }
    }
  }

  lemma EmitsConcat<T>(v0: map<Key, Timer<T>>, v1: map<Key, Timer<T>>, v2: map<Key, Timer<T>>, a: seq<Expired<T>>,
          b: seq<Expired<T>>)
    requires Emits(v0, v1, a) && Emits(v1, v2, b)
    ensures Emits(v0, v2, a + b)
  {
    IdsConcat(a, b);
    var c := a + b;
    forall i, j | 0 <= i < j < |c| ensures c[i].id != c[j].id {
      if i < |a| <= j { assert b[j - |a|].id in v1; }
    }
  }

  lemma EmitsOne<T>(v: map<Key, Timer<T>>, k: Key)
    requires k in v
    ensures Emits(v, v - {k}, [Expired(k, v[k].item, v[k].deadline)])
  {
    var out := [Expired(k, v[k].item, v[k].deadline)];
    assert out[0].id == k;
    assert Ids(out) == {k};
  }

  /** An emission that leaves only later deadlines, and emits only due ones, is determined. */
  lemma EmitsDue<T>(before: map<Key, Timer<T>>, after: map<Key, Timer<T>>, out: seq<Expired<T>>, tick: nat)
    requires Emits(before, after, out)
    requires forall k :: k in after ==> after[k].deadline > tick
    requires forall i :: 0 <= i < |out| ==> out[i].deadline <= tick
    ensures after == Remaining(before, tick)
    ensures Ids(out) == Due(before, tick).Keys
  {
    forall k | k in before ensures k in after <==> before[k].deadline > tick {
      if k !in after {
        assert k in Ids(out);
        var i :| 0 <= i < |out| && out[i].id == k;
      }
    }
    forall k | k in Ids(out) ensures k in Due(before, tick) {
      var i :| 0 <= i < |out| && out[i].id == k;
    }
  }

  /** Two ways of emitting the same timers differ only in order. */
  lemma {:induction false} SameEmission<T>(before: map<Key, Timer<T>>, after: map<Key, Timer<T>>, a: seq<Expired<T>>,
          b: seq<Expired<T>>)
    requires Emits(before, after, a) && Emits(before, after, b)
    ensures multiset(a) == multiset(b)
  {
    forall e ensures multiset(a)[e] == multiset(b)[e] {
      OnceEach(before, after, a, e);
      OnceEach(before, after, b, e);
    }
  }

  lemma {:induction false} OnceEach<T>(before: map<Key, Timer<T>>, after: map<Key, Timer<T>>, out: seq<Expired<T>>,
          e: Expired<T>)
    requires Emits(before, after, out)
    ensures multiset(out)[e] == if e.id in before && e.id !in after && before[e.id] == Timer(e.item, e.deadline) then 1
        else 0
  {
    if e in out {
      var i :| 0 <= i < |out| && out[i] == e;
      assert out == out[..i] + [e] + out[i + 1..];
      assert e !in out[..i] && e !in out[i + 1..];
    } else if e.id in before && e.id !in after {
      assert e.id in Ids(out);
      var i :| 0 <= i < |out| && out[i].id == e.id;
    }
  }

  // ---- Stepping and jumping ----

  /** A quotient and a remainder below the divisor are those of the division. */
  lemma DivUnique(n: nat, b: nat, q: nat, r: nat)
    requires r < b && n == q * b + r
    ensures n / b == q && n % b == r
  {
    MoreThan(n / b - q, b);
    Difference(n / b, q, b);
  }

  lemma MoreThan(d: int, b: nat)
    ensures d >= 1 ==> d * b >= b
    ensures d <= -1 ==> d * b <= 0 - b
  {
  }

  lemma Difference(p: nat, q: nat, b: nat)
    ensures p * b - q * b == (p - q) * b
  {
  }

  lemma AdvanceParts(c: Clock, elapsed: nat, ticks: nat, rest: nat)
    requires ClockOk(c) && rest < c.base && c.remainder + elapsed == ticks * c.base + rest
    requires c.remainder + elapsed <= U64_MAX && c.tick + ticks <= U64_MAX
    ensures AdvanceClock(c, elapsed) == Ok(Clock(c.tick + ticks, rest, c.base))
  {
    DivUnique(c.remainder + elapsed, c.base, ticks, rest);
  }

  /** Two advances in a row move the clock as one advance over both durations. */
  lemma SplitClock(c: Clock, first: nat, second: nat)
    requires ClockOk(c) && AdvanceClock(c, first).Ok? && AdvanceClock(AdvanceClock(c, first).value, second).Ok?
    requires c.remainder + first + second <= U64_MAX
    ensures AdvanceClock(c, first + second) == AdvanceClock(AdvanceClock(c, first).value, second)
  {
    hide AdvanceClock;
    var t1, r1 := TicksPassed(c, first);
    var middle := Clock(c.tick + t1, r1, c.base);
    var t2, r2 := TicksPassed(middle, second);
    Distribute(t1, t2, c.base);
    AdvanceParts(c, first + second, t1 + t2, r2);
  }

  lemma RemainingLater<T>(live: map<Key, Timer<T>>, t: nat, t': nat)
    requires t <= t'
    ensures Remaining(Remaining(live, t), t') == Remaining(live, t')
  {
  }

  /** However an advance is cut into two, and whether each part steps or jumps, the clock and
      the timers left are the same, and the same timers are emitted, up to their order. */
  lemma PathsAgree<T>(c: Clock, first: nat, second: nat, live: map<Key, Timer<T>>, a: seq<Expired<T>>,
          b: seq<Expired<T>>, whole: seq<Expired<T>>)
    requires ClockOk(c) && AdvanceClock(c, first).Ok? && AdvanceClock(AdvanceClock(c, first).value, second).Ok?
    requires c.remainder + first + second <= U64_MAX
    requires var c1 := AdvanceClock(c, first).value; var c2 := AdvanceClock(c1, second).value;
      && Emits(live, Remaining(live, c1.tick), a)
      && Emits(Remaining(live, c1.tick), Remaining(Remaining(live, c1.tick), c2.tick), b)
      && Emits(live, Remaining(live, c2.tick), whole)
    ensures var c1 := AdvanceClock(c, first).value; var c2 := AdvanceClock(c1, second).value;
      && AdvanceClock(c, first + second) == Ok(c2)
      && Remaining(Remaining(live, c1.tick), c2.tick) == Remaining(live, c2.tick)
    ensures multiset(a + b) == multiset(whole)
  {
    hide AdvanceClock, Emits, Remaining;
    SplitClock(c, first, second);
    var c1 := AdvanceClock(c, first).value;
    AdvanceConserves(c, first);
    AdvanceConserves(c1, second);
    var c2 := AdvanceClock(c1, second).value;
    RemainingLater(live, c1.tick, c2.tick);
    EmitsConcat(live, Remaining(live, c1.tick), Remaining(live, c2.tick), a, b);
    SameEmission(live, Remaining(live, c2.tick), a + b, whole);
  }
}
