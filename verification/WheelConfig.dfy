/** Layout of the hierarchical wheel: slot counts are powers of two, and each level's
    unit is the span of the level below it. */
module WheelConfig {
  import opened Wrappers

  const MAX_LEVELS: nat := 8
  const MAX_LEVEL_SLOTS: nat := 65536
  const MAX_TOTAL_SLOTS: nat := 300000

  datatype Level = Level(unitTicks: nat, spanTicks: nat, slotCount: nat, mask: nat)

  datatype Config = Config(baseTickNanos: nat, levels: seq<Level>, totalSlots: nat)

  datatype ConfigError =
    | ZeroTick
    | TickRangeOverflow
    | InvalidLevelCount(count: nat, max: nat)
    | InvalidSlotCount(level: nat, slotCount: nat)
    | SlotBudgetExceeded(totalSlots: nat, max: nat)
    | DerivedRangeOverflow(level: nat)

  predicate IsPowerOfTwo(n: nat)
    decreases n
  {
    n == 1 || (0 < n && n % 2 == 0 && IsPowerOfTwo(n / 2))
  }

  /** Bitwise conjunction of two naturals, bit by bit. */
  function BitAnd(a: nat, b: nat): nat
    decreases a
  {
    if a == 0 then 0 else (if a % 2 == 1 && b % 2 == 1 then 1 else 0) + 2 * BitAnd(a / 2, b / 2)
  }

  /** Masking with `slot_count - 1` is reduction modulo the slot count, because the
      slot count is a power of two. */
  lemma {:induction false} MaskIsMod(a: nat, n: nat)
    requires IsPowerOfTwo(n)
    ensures BitAnd(a, n - 1) == a % n
    decreases n
  {
    if n == 1 {
      AndZero(a);
    } else {
      var h := n / 2;
      assert n == 2 * h && IsPowerOfTwo(h);
      MaskIsMod(a / 2, h);
      ModHalves(a, h);
      AndOdd(a, h - 1);
    }
  }

  lemma AndOdd(a: nat, m: nat)
    ensures BitAnd(a, 2 * m + 1) == a % 2 + 2 * BitAnd(a / 2, m)
  {
    assert (2 * m + 1) % 2 == 1 && (2 * m + 1) / 2 == m;
  }

  lemma {:induction false} AndZero(a: nat)
    ensures BitAnd(a, 0) == 0
    decreases a
  {
    if a != 0 { AndZero(a / 2); }
  }

  lemma ModHalves(a: nat, h: nat)
    requires h > 0
    ensures a % (2 * h) == a % 2 + 2 * ((a / 2) % h)
  {
    var q, r := (a / 2) / h, (a / 2) % h;
    assert a / 2 == q * h + r;
    assert a == (2 * h) * q + (a % 2 + 2 * r);
    ModUnique(a, 2 * h, q, a % 2 + 2 * r);
  }

  /** The quotient and remainder of a division are unique. */
  lemma ModUnique(a: nat, n: nat, q: nat, r: nat)
    requires n > 0 && r < n && a == n * q + r
    ensures a / n == q && a % n == r
  {
    assert a == n * (a / n) + a % n;
    assert n * (a / n - q) == r - a % n;
    Multiples(n, a / n - q);
  }

  lemma Multiples(n: nat, d: int)
    ensures d >= 1 ==> n * d >= n
    ensures d <= -1 ==> n * d <= 0 - n
  {
  }

  /** What the wheel relies on: one valid level layout. */
  ghost predicate Layout(levels: seq<Level>)
  {
    && 1 <= |levels| <= MAX_LEVELS
    && levels[0].unitTicks == 1
    && (forall i :: 0 <= i < |levels| ==> LevelOk(levels[i]))
    && (forall i :: 0 < i < |levels| ==> levels[i].unitTicks == levels[i - 1].spanTicks)
  }

  ghost predicate LevelOk(v: Level)
  {
    && 0 < v.unitTicks
    && SlotCountOk(v.slotCount)
    && v.mask == v.slotCount - 1
    && v.spanTicks == v.unitTicks * v.slotCount
    && v.spanTicks <= U64_MAX
  }

  predicate SlotCountOk(n: nat)
  {
    2 <= n && IsPowerOfTwo(n) && n <= MAX_LEVEL_SLOTS
  }

  /** Total of the first `n` slot counts, and their product. */
  function SumTo(slots: seq<nat>, n: nat): nat
    requires n <= |slots|
  {
    if n == 0 then 0 else SumTo(slots, n - 1) + slots[n - 1]
  }

  function ProductTo(slots: seq<nat>, n: nat): nat
    requires n <= |slots|
  {
    if n == 0 then 1 else ProductTo(slots, n - 1) * slots[n - 1]
  }

  /** Level `i` passes the per-level checks of the builder. */
  ghost predicate Fits(slots: seq<nat>, i: nat)
    requires i < |slots|
  {
    && SlotCountOk(slots[i])
    && SumTo(slots, i + 1) <= MAX_TOTAL_SLOTS
    && ProductTo(slots, i + 1) <= U64_MAX
  }

  ghost predicate FirstMisfit(slots: seq<nat>, i: nat)
  {
    i < |slots| && !Fits(slots, i) && forall j :: 0 <= j < i ==> Fits(slots, j)
  }

  lemma OnlyMisfit(slots: seq<nat>, level: nat)
    requires FirstMisfit(slots, level)
    ensures forall i: nat :: FirstMisfit(slots, i) ==> i == level
  {
    hide Fits;
  }

  /** Why level `i` does not fit: the first of its checks that fails. */
  function Blame(slots: seq<nat>, i: nat): ConfigError
    requires i < |slots|
  {
    if !SlotCountOk(slots[i]) then InvalidSlotCount(i, slots[i])
    else if SumTo(slots, i + 1) > MAX_TOTAL_SLOTS then SlotBudgetExceeded(SumTo(slots, i + 1), MAX_TOTAL_SLOTS)
    else DerivedRangeOverflow(i)
  }

  /** The requests for which a configuration exists, said without the builder's loop. */
  ghost predicate Buildable(baseTickNanos: nat, slots: seq<nat>)
  {
    && 0 < baseTickNanos <= U64_MAX
    && 1 <= |slots| <= MAX_LEVELS
    && forall i :: 0 <= i < |slots| ==> Fits(slots, i)
  }

  /** The parameters of level `i` implied by the slot counts alone. */
  ghost function LevelAt(slots: seq<nat>, i: nat): Level
    requires i < |slots| && slots[i] >= 1
  {
    Level(ProductTo(slots, i), ProductTo(slots, i + 1), slots[i], slots[i] - 1)
  }

  lemma {:induction false} ProductPositive(slots: seq<nat>, n: nat)
    requires n <= |slots| && forall i :: 0 <= i < n ==> slots[i] >= 1
    ensures ProductTo(slots, n) >= 1
  {
    if n > 0 {
      ProductPositive(slots, n - 1);
      Multiples(ProductTo(slots, n - 1), slots[n - 1]);
    }
  }

  /** Levels derived from fitting slot counts form a layout. */
  lemma DerivedIsLayout(slots: seq<nat>, levels: seq<Level>)
    requires 1 <= |slots| <= MAX_LEVELS && |levels| == |slots|
    requires forall i :: 0 <= i < |slots| ==> Fits(slots, i) && levels[i] == LevelAt(slots, i)
    ensures Layout(levels)
  {
    forall i | 0 <= i < |levels| ensures LevelOk(levels[i]) {
      assert Fits(slots, i);
      forall j | 0 <= j < i ensures slots[j] >= 1 { assert Fits(slots, j); }
      ProductPositive(slots, i);
    }
  }

  /** `WheelConfigBuilder::build`. */
  method Build(baseTickNanos: nat, slots: seq<nat>) returns (r: Result<Config, ConfigError>)
    ensures r.Ok? <==> Buildable(baseTickNanos, slots)
    ensures r.Ok? ==>
      && Layout(r.value.levels)
      && r.value.baseTickNanos == baseTickNanos
      && |r.value.levels| == |slots|
      && r.value.totalSlots == SumTo(slots, |slots|)
      && forall i :: 0 <= i < |slots| ==> Fits(slots, i) && r.value.levels[i] == LevelAt(slots, i)
    ensures baseTickNanos > U64_MAX ==> r == Err(TickRangeOverflow)
    ensures baseTickNanos == 0 ==> r == Err(ZeroTick)
    ensures 0 < baseTickNanos <= U64_MAX && !(1 <= |slots| <= MAX_LEVELS) ==>
      r == Err(InvalidLevelCount(|slots|, MAX_LEVELS))
    // Otherwise the first level that does not fit is blamed, and there is only one such level.
    ensures 0 < baseTickNanos <= U64_MAX && 1 <= |slots| <= MAX_LEVELS ==>
      forall i: nat :: FirstMisfit(slots, i) ==> r == Err(Blame(slots, i))
  {
    if baseTickNanos > U64_MAX { return Err(TickRangeOverflow); }
    if baseTickNanos == 0 { return Err(ZeroTick); }
    if |slots| == 0 || |slots| > MAX_LEVELS { return Err(InvalidLevelCount(|slots|, MAX_LEVELS)); }
    var totalSlots, unitTicks := 0, 1;
    var derived: seq<Level> := [];
    for level := 0 to |slots|
      invariant |derived| == level
      invariant totalSlots == SumTo(slots, level)
      invariant unitTicks == ProductTo(slots, level)
      invariant forall i :: 0 <= i < level ==> Fits(slots, i) && derived[i] == LevelAt(slots, i)
    {
      var slotCount := slots[level];
      if !SlotCountOk(slotCount) {
        OnlyMisfit(slots, level);
        return Err(InvalidSlotCount(level, slotCount));
      }
      totalSlots := totalSlots + slotCount;
      if totalSlots > MAX_TOTAL_SLOTS {
        OnlyMisfit(slots, level);
        return Err(SlotBudgetExceeded(totalSlots, MAX_TOTAL_SLOTS));
      }
      var spanTicks := unitTicks * slotCount;
      if spanTicks > U64_MAX {
        OnlyMisfit(slots, level);
        return Err(DerivedRangeOverflow(level));
      }
      derived := derived + [Level(unitTicks, spanTicks, slotCount, slotCount - 1)];
      unitTicks := spanTicks;
    }
    DerivedIsLayout(slots, derived);
    r := Ok(Config(baseTickNanos, derived, totalSlots));
  }
}
