/** Where an entry may sit. A list at level `l` is opened at ticks that are multiples of the
    level's unit; an entry there is next looked at, at the latest, at `VisitTick`, which
    never lies after its deadline. */
module Placement {
  import opened Wrappers
  import opened SlotTable
  import opened WheelConfig

  function VisitTick(levels: seq<Level>, l: nat, deadline: nat): nat
    requires l < |levels| && levels[l].unitTicks > 0
  {
    Whole(deadline, levels[l].unitTicks)
  }

  /** The largest multiple of `unit` that is not above `d`. */
  function Whole(d: nat, unit: nat): nat
    requires unit > 0
  {
    (d / unit) * unit
  }

  function SlotOf(levels: seq<Level>, l: nat, tick: nat): nat
    requires l < |levels| && levels[l].unitTicks > 0
  {
    BitAnd(tick / levels[l].unitTicks, levels[l].mask)
  }

  /** Entry `e` is in the slot of its deadline, is not overdue at tick `t`, and on levels
      from `bound` up its list has yet to be opened after `t`. */
  ghost predicate PlacedAt<T>(e: Entry<T>, levels: seq<Level>, t: nat, bound: nat)
    requires Layout(levels)
  {
    && e.level < |levels|
    && e.slot == SlotOf(levels, e.level, e.deadline)
    && t <= VisitTick(levels, e.level, e.deadline)
    && (bound <= e.level ==> t < VisitTick(levels, e.level, e.deadline))
    && e.deadline <= U64_MAX
  }

  ghost predicate Placed<T>(entries: map<Key, Entry<T>>, levels: seq<Level>, t: nat, bound: nat)
    requires Layout(levels)
  {
    forall k :: k in entries ==> PlacedAt(entries[k], levels, t, bound)
  }

  lemma WholeBounds(d: nat, unit: nat)
    requires unit > 0
    ensures Whole(d, unit) <= d < Whole(d, unit) + unit
    ensures unit == 1 ==> Whole(d, unit) == d
  {
    assert d == unit * (d / unit) + d % unit;
  }

  /** A list opened at its own visit tick is the one the clock points to. */
  lemma VisitOpens(d: nat, unit: nat, t: nat)
    requires unit > 0 && Whole(d, unit) == t
    ensures t % unit == 0 && t / unit == d / unit
  {
    ModUnique(t, unit, d / unit, 0);
  }

  lemma VisitBound(levels: seq<Level>, l: nat, d: nat)
    requires Layout(levels) && l < |levels|
    ensures VisitTick(levels, l, d) <= d
    ensures l == 0 ==> VisitTick(levels, l, d) == d
  {
    assert LevelOk(levels[l]);
    WholeBounds(d, levels[l].unitTicks);
  }

  lemma SlotInRange(levels: seq<Level>, l: nat, tick: nat)
    requires Layout(levels) && l < |levels|
    ensures SlotOf(levels, l, tick) < levels[l].slotCount
    ensures SlotOf(levels, l, tick) == (tick / levels[l].unitTicks) % levels[l].slotCount
  {
    assert LevelOk(levels[l]);
    MaskIsMod(tick / levels[l].unitTicks, levels[l].slotCount);
  }

  /** A deadline at least one whole unit away is opened strictly in the future. */
  lemma FarVisit(levels: seq<Level>, l: nat, d: nat, t: nat)
    requires Layout(levels) && l < |levels| && d >= t + levels[l].unitTicks
    ensures t < VisitTick(levels, l, d)
  {
    assert LevelOk(levels[l]);
    WholeBounds(d, levels[l].unitTicks);
  }

  /** An entry due to be opened at `t` sits exactly in the slot that is opened at `t`. */
  lemma DueSlot(levels: seq<Level>, l: nat, d: nat, t: nat)
    requires Layout(levels) && l < |levels| && VisitTick(levels, l, d) == t
    ensures t % levels[l].unitTicks == 0
    ensures SlotOf(levels, l, d) == SlotOf(levels, l, t)
  {
    assert LevelOk(levels[l]);
    VisitOpens(d, levels[l].unitTicks, t);
  }

  lemma NextTick<T>(entries: map<Key, Entry<T>>, levels: seq<Level>, t: nat)
    requires Layout(levels) && Placed(entries, levels, t, 0)
    ensures Placed(entries, levels, t + 1, |levels|)
  {
    hide SlotOf, VisitTick;
  }

  lemma AnyBound<T>(entries: map<Key, Entry<T>>, levels: seq<Level>, t: nat)
    requires Layout(levels) && Placed(entries, levels, t, 1)
    ensures Placed(entries, levels, t, |levels|)
  {
    hide SlotOf, VisitTick;
  }

  /** After level 0 was opened too, only strictly future deadlines are left. */
  lemma AllLater<T>(entries: map<Key, Entry<T>>, levels: seq<Level>, t: nat, k: Key)
    requires Layout(levels) && Placed(entries, levels, t, 0) && k in entries
    ensures entries[k].deadline > t
  {
    assert PlacedAt(entries[k], levels, t, 0);
    VisitBound(levels, entries[k].level, entries[k].deadline);
  }

  lemma NeverOverdue<T>(entries: map<Key, Entry<T>>, levels: seq<Level>, t: nat, bound: nat, k: Key)
    requires Layout(levels) && Placed(entries, levels, t, bound) && k in entries
    ensures entries[k].deadline >= t
  {
    assert PlacedAt(entries[k], levels, t, bound);
    VisitBound(levels, entries[k].level, entries[k].deadline);
  }
}
