/** The wheel's invariant and its steps, read on plain values. The class in TimeWheel
    performs the steps; the lemmas here say what each of them preserves. */
module WheelCore {
  import opened Wrappers
  import opened SlotTable
  import opened DeadlineHeap
  import opened WheelConfig
  import opened WheelLists
  import opened Placement
  import opened TimerModel

  ghost function ViewOf<T>(entries: map<Key, Entry<T>>): map<Key, Timer<T>>
  {
    map k | k in entries :: Timer(entries[k].item, entries[k].deadline)
  }

  /** One slot row per level, of the level's size. */
  ghost predicate Shaped(levels: seq<Level>, slots: seq<seq<Slot>>)
  {
    && Layout(levels)
    && |slots| == |levels|
    && forall l :: 0 <= l < |slots| ==> |slots[l]| == levels[l].slotCount
  }

  /** The structural invariant. The slot lists partition the entries outside `loose`; the
      heap is in order and mirrors the entries outside `absent`, with the deadlines of
      those in `stale` not yet copied. */
  ghost predicate CoreAt<T>(levels: seq<Level>, slots: seq<seq<Slot>>, lists: seq<seq<seq<Key>>>,
                            entries: map<Key, Entry<T>>, nextKey: Key, nodes: seq<Node>,
                            loose: set<Key>, absent: set<Key>, stale: set<Key>)
  {
    && Shaped(levels, slots)
    && KeysIssued(entries, nextKey)
    && Partition(entries, slots, lists, loose)
    && Ordered(nodes)
    && Aligned(nodes, entries, absent, stale)
  }

  ghost predicate DeadlinesFit<T>(entries: map<Key, Entry<T>>)
  {
    forall k :: k in entries ==> entries[k].deadline <= U64_MAX
  }

  ghost predicate KeysIssued<T>(entries: map<Key, Entry<T>>, nextKey: Key)
  {
    forall k :: k in entries ==> k < nextKey
  }

  // ---- Relations between entry tables ----

  /** The effect of placing `key` at (l, s). */
  ghost predicate Placing<T>(a: map<Key, Entry<T>>, b: map<Key, Entry<T>>, key: Key, l: nat, s: nat, loose: set<Key>)
  {
    && Relinked(a, b)
    && StaysPut(a, b, key)
    && key in b && b[key].level == l && b[key].slot == s
    && forall k :: k in loose && k != key && k in a ==> b[k] == a[k]
  }

  /** The effect of expelling `key`: gone, and the others at most moved in the heap. */
  ghost predicate Expelled<T>(a: map<Key, Entry<T>>, b: map<Key, Entry<T>>, key: Key)
  {
    && key in a
    && b.Keys == a.Keys - {key}
    && forall k :: k in b ==> b[k] == a[k].(heapIndex := b[k].heapIndex)
  }

  function Detached<T>(a: map<Key, Entry<T>>, key: Key): map<Key, Entry<T>>
    requires key in a
  {
    a[key := a[key].(prev := None, next := None)]
  }

  /** The keys located at (l, s). */
  ghost function KeysAt<T>(entries: map<Key, Entry<T>>, l: nat, s: nat): set<Key>
  {
    set k | k in entries && entries[k].level == l && entries[k].slot == s
  }

  /** Keys taken from their list and not yet dealt with, still chained by `next`. */
  ghost predicate Waiting<T>(entries: map<Key, Entry<T>>, rest: seq<Key>)
  {
    && Distinct(rest)
    && forall i :: 0 <= i < |rest| ==> rest[i] in entries && entries[rest[i]].next == Nth(rest, i + 1)
  }

  /** From `before` to `after`: entries outside `taken` keep their place; those taken and no
      longer in `rest` have left, or were placed anew with a deadline after `t`. */
  ghost predicate Settling<T>(before: map<Key, Entry<T>>, after: map<Key, Entry<T>>, taken: set<Key>, rest: set<Key>,
          levels: seq<Level>, t: nat)
    requires Layout(levels)
  {
    forall k :: k in after ==>
      && k in before
      && after[k].item == before[k].item
      && after[k].deadline == before[k].deadline <= U64_MAX
      && (k !in taken ==> after[k].level == before[k].level && after[k].slot == before[k].slot)
      && (k in taken && k !in rest ==> after[k].deadline > t && PlacedAt(after[k], levels, t, 0))
  }

  ghost predicate DueBy<T>(out: seq<Expired<T>>, t: nat)
  {
    forall i :: 0 <= i < |out| ==> out[i].deadline <= t
  }

  ghost predicate DueAt<T>(out: seq<Expired<T>>, t: nat)
  {
    forall i :: 0 <= i < |out| ==> out[i].deadline == t
  }

  /** Opening the keys in `taken` at tick `t`, with `rest` still to do: every key dealt with
      was either emitted, being due, or placed anew. */
  ghost predicate Progress<T>(before: map<Key, Entry<T>>, after: map<Key, Entry<T>>, taken: set<Key>, rest: set<Key>,
                              out: seq<Expired<T>>, levels: seq<Level>, t: nat)
    requires Layout(levels)
  {
    && Settling(before, after, taken, rest, levels, t)
    && Emits(ViewOf(before), ViewOf(after), out)
    && DueBy(out, t)
  }

  // ---- Views ----

  lemma RelinkedView<T>(a: map<Key, Entry<T>>, b: map<Key, Entry<T>>)
    requires Relinked(a, b)
    ensures ViewOf(b) == ViewOf(a)
  {
  }

  lemma ExpelledView<T>(a: map<Key, Entry<T>>, b: map<Key, Entry<T>>, key: Key)
    requires Expelled(a, b, key)
    ensures ViewOf(b) == ViewOf(a) - {key}
    ensures Emits(ViewOf(a), ViewOf(b), [Expired(key, a[key].item, a[key].deadline)])
  {
    EmitsOne(ViewOf(a), key);
  }

  // ---- Linking ----

  /** Head and tail of a list are both present or both absent, and the tail is not loose. */
  lemma TailIsListed<T>(entries: map<Key, Entry<T>>, slots: seq<seq<Slot>>, lists: seq<seq<seq<Key>>>,
          loose: set<Key>, l: nat, s: nat)
    requires Partition(entries, slots, lists, loose) && InGrid(slots, l, s)
    ensures InGrid(lists, l, s)
    ensures At(slots, l, s).head.None? <==> At(slots, l, s).tail.None?
    ensures At(slots, l, s).tail.Some? ==> At(slots, l, s).tail.value in entries && At(slots, l, s).tail.value !in loose
  {
    assert Chain(entries, At(lists, l, s), l, s, At(slots, l, s));
    if At(slots, l, s).tail.Some? {
      assert At(slots, l, s).tail.value in At(lists, l, s);
    }
  }

  lemma LinkedPlaces<T>(entries: map<Key, Entry<T>>, key: Key, l: nat, s: nat, tail: Option<Key>, loose: set<Key>)
    requires key in entries && key in loose && (tail.Some? ==> tail.value in entries && tail.value !in loose)
    ensures Placing(entries, LinkedEntries(entries, key, l, s, tail), key, l, s, loose)
  {
  }

  /** What appending a loose key to a list preserves. */
  lemma LinkFacts<T>(levels: seq<Level>, slots: seq<seq<Slot>>, lists: seq<seq<seq<Key>>>, entries: map<Key, Entry<T>>,
                     nextKey: Key, nodes: seq<Node>, loose: set<Key>, absent: set<Key>, stale: set<Key>,
                     key: Key, l: nat, s: nat)
    requires CoreAt(levels, slots, lists, entries, nextKey, nodes, loose, absent, stale)
    requires key in loose && key in entries && InGrid(slots, l, s)
    ensures InGrid(lists, l, s)
    ensures At(slots, l, s).head.None? <==> At(slots, l, s).tail.None?
    ensures At(slots, l, s).tail.Some? ==> At(slots, l, s).tail.value in entries
    ensures var head, tail := At(slots, l, s).head, At(slots, l, s).tail;
      var e' := LinkedEntries(entries, key, l, s, tail);
      && Placing(entries, e', key, l, s, loose)
      && CoreAt(levels, Put(slots, l, s, Slot(if head.None? then Some(key) else head, Some(key))),
                Put(lists, l, s, At(lists, l, s) + [key]), e', nextKey, nodes, loose - {key}, absent, stale)
  {
    TailIsListed(entries, slots, lists, loose, l, s);
    LinkedPlaces(entries, key, l, s, At(slots, l, s).tail, loose);
    AppendPartition(entries, slots, lists, loose, key, l, s);
    hide LinkedEntries, At, Put;
    RelinkCore(levels, slots, Put(slots, l, s,
        Slot(if At(slots, l, s).head.None? then Some(key) else At(slots, l, s).head, Some(key))),
               Put(lists, l, s, At(lists, l, s) + [key]), entries, LinkedEntries(entries, key, l, s,
                   At(slots, l, s).tail),
               nextKey, nodes, loose - {key}, absent, stale);
  }

  // ---- Unlinking ----

  lemma UnlinkedPlaces<T>(entries: map<Key, Entry<T>>, key: Key)
    requires key in entries
    requires entries[key].prev.Some? ==> entries[key].prev.value in entries
    requires entries[key].next.Some? ==> entries[key].next.value in entries
    ensures Relinked(entries, UnlinkedEntries(entries, key)) && StaysPut(entries, UnlinkedEntries(entries, key), key)
    ensures UnlinkedEntries(entries, key)[key].level == entries[key].level
    ensures UnlinkedEntries(entries, key)[key].slot == entries[key].slot
  {
  }

  /** The slot grid after `key` left its list. */
  function UnlinkedSlots<T>(slots: seq<seq<Slot>>, e: Entry<T>): seq<seq<Slot>>
    requires InGrid(slots, e.level, e.slot)
  {
    Put(slots, e.level, e.slot, UnlinkedSlot(At(slots, e.level, e.slot), e))
  }

  lemma UnlinkFacts<T>(levels: seq<Level>, slots: seq<seq<Slot>>, lists: seq<seq<seq<Key>>>, entries: map<Key,
          Entry<T>>,
                       nextKey: Key, nodes: seq<Node>, key: Key)
    returns (lists': seq<seq<seq<Key>>>)
    requires CoreAt(levels, slots, lists, entries, nextKey, nodes, {}, {}, {}) && key in entries
    ensures InGrid(slots, entries[key].level, entries[key].slot)
    ensures entries[key].prev.Some? ==> entries[key].prev.value in entries
    ensures entries[key].next.Some? ==> entries[key].next.value in entries
    ensures Relinked(entries, UnlinkedEntries(entries, key))
    ensures CoreAt(levels, UnlinkedSlots(slots, entries[key]), lists', UnlinkedEntries(entries, key), nextKey, nodes,
        {key}, {}, {})
  {
    lists' := RemovePartition(entries, slots, lists, {}, key);
    assert {} + {key} == {key};
    UnlinkedPlaces(entries, key);
    hide UnlinkedEntries, UnlinkedSlot, At, Put, Partition, Ordered, Aligned, Layout, Relinked;
    RelinkCore(levels, slots, UnlinkedSlots(slots, entries[key]), lists', entries, UnlinkedEntries(entries, key),
        nextKey, nodes, {key}, {}, {});
  }

  /** Relinking the entries consistently with new lists leaves the rest of the invariant alone. */
  lemma RelinkCore<T>(levels: seq<Level>, slots: seq<seq<Slot>>, slots': seq<seq<Slot>>, lists': seq<seq<seq<Key>>>,
                      a: map<Key, Entry<T>>, b: map<Key, Entry<T>>, nextKey: Key, nodes: seq<Node>,
                      loose: set<Key>, absent: set<Key>, stale: set<Key>)
    requires Shaped(levels, slots) && SameShape(slots, slots') && KeysIssued(a, nextKey)
    requires Ordered(nodes) && Aligned(nodes, a, absent, stale)
    requires Relinked(a, b) && Partition(b, slots', lists', loose)
    ensures CoreAt(levels, slots', lists', b, nextKey, nodes, loose, absent, stale)
  {
    RelinkKeepsHeap(a, b, nodes, absent, stale);
    hide Partition, Ordered, Aligned, Layout;
  }

  // ---- Leaving the table ----

  lemma DropAligned<T>(entries: map<Key, Entry<T>>, nodes: seq<Node>, key: Key)
    requires Aligned(nodes, entries, {key}, {})
    ensures Aligned(nodes, entries - {key}, {}, {})
  {
  }

  /** Taking a loose key out of the heap and then out of the table. */
  lemma ExpelFacts<T>(levels: seq<Level>, slots: seq<seq<Slot>>, lists: seq<seq<seq<Key>>>, e0: map<Key, Entry<T>>,
          e1: map<Key, Entry<T>>,
                      nextKey: Key, nodes: seq<Node>, loose: set<Key>, key: Key)
    requires Shaped(levels, slots) && KeysIssued(e0, nextKey) && Partition(e0, slots, lists, loose)
    requires key in loose && key in e0 && Reindexed(e0, e1)
    requires Ordered(nodes) && Aligned(nodes, e1, {key}, {})
    ensures CoreAt(levels, slots, lists, e1 - {key}, nextKey, nodes, loose - {key}, {}, {})
    ensures Expelled(e0, e1 - {key}, key)
  {
    ReindexKeepsChains(e0, e1, slots, lists, loose);
    DropLoose(e1, slots, lists, loose, key);
    DropAligned(e1, nodes, key);
    hide Partition, Ordered, Aligned, Layout;
  }

  // ---- Opening a list ----

  lemma DetachFacts<T>(levels: seq<Level>, slots: seq<seq<Slot>>, lists: seq<seq<seq<Key>>>, entries: map<Key,
          Entry<T>>,
                       nextKey: Key, nodes: seq<Node>, loose: set<Key>, key: Key)
    requires CoreAt(levels, slots, lists, entries, nextKey, nodes, loose, {}, {}) && key in loose && key in entries
    ensures CoreAt(levels, slots, lists, Detached(entries, key), nextKey, nodes, loose, {}, {})
  {
    TouchLoose(entries, Detached(entries, key), slots, lists, loose);
    RelinkKeepsHeap(entries, Detached(entries, key), nodes, {}, {});
  }

  lemma TakenKeys<T>(entries: map<Key, Entry<T>>, slots: seq<seq<Slot>>, lists: seq<seq<seq<Key>>>, l: nat, s: nat)
    requires Partition(entries, slots, lists, {}) && InGrid(slots, l, s)
    ensures KeySet(At(lists, l, s)) == KeysAt(entries, l, s)
    ensures Waiting(entries, At(lists, l, s))
    ensures At(slots, l, s).head == Nth(At(lists, l, s), 0)
  {
    assert Chain(entries, At(lists, l, s), l, s, At(slots, l, s));
    forall k | k in KeysAt(entries, l, s) ensures k in KeySet(At(lists, l, s)) {
      assert k in At(lists, l, s);
    }
  }

  lemma TakeFacts<T>(levels: seq<Level>, slots: seq<seq<Slot>>, lists: seq<seq<seq<Key>>>, entries: map<Key, Entry<T>>,
                     nextKey: Key, nodes: seq<Node>, l: nat, s: nat, t: nat)
    requires CoreAt(levels, slots, lists, entries, nextKey, nodes, {}, {}, {}) && InGrid(slots, l, s)
    requires DeadlinesFit(entries)
    ensures InGrid(lists, l, s) && At(slots, l, s).head == Nth(At(lists, l, s), 0)
    ensures KeySet(At(lists, l, s)) == KeysAt(entries, l, s)
    ensures Waiting(entries, At(lists, l, s))
    ensures CoreAt(levels, Put(slots, l, s, EMPTY_SLOT), Put(lists, l, s, []), entries, nextKey, nodes,
        KeysAt(entries, l, s), {}, {})
    ensures Progress(entries, entries, KeysAt(entries, l, s), KeysAt(entries, l, s), [], levels, t)
  {
    TakenKeys(entries, slots, lists, l, s);
    TakePartition(entries, slots, lists, l, s);
    EmitsNothing(ViewOf(entries));
    hide Partition, Ordered, Aligned, Layout, At, Put, Waiting;
  }

  lemma RestKeys(rest: seq<Key>)
    requires Distinct(rest) && |rest| > 0
    ensures KeySet(rest[1..]) == KeySet(rest) - {rest[0]}
    ensures Distinct(rest[1..]) && rest[0] in KeySet(rest)
  {
    forall k | k in KeySet(rest) - {rest[0]} ensures k in KeySet(rest[1..]) {
      var i :| 0 <= i < |rest| && rest[i] == k;
      assert rest[1..][i - 1] == k;
    }
  }

  /** `key` was dealt with; the other keys in `loose` are still chained as they were. */
  ghost predicate KeepsChain<T>(a: map<Key, Entry<T>>, c: map<Key, Entry<T>>, key: Key, loose: set<Key>)
  {
    forall k :: k in loose && k != key && k in a ==> k in c && c[k].next == a[k].next
  }

  lemma WaitingNext<T>(a: map<Key, Entry<T>>, c: map<Key, Entry<T>>, rest: seq<Key>)
    requires Waiting(a, rest) && |rest| > 0 && KeepsChain(Detached(a, rest[0]), c, rest[0], KeySet(rest))
    ensures Waiting(c, rest[1..])
  {
    forall i | 0 <= i < |rest| - 1 ensures rest[1..][i] in c && c[rest[1..][i]].next == Nth(rest[1..], i + 1) {
      assert rest[i + 1] != rest[0] && rest[i + 1] in KeySet(rest);
    }
  }

  /** The first waiting key, and what detaching it leaves unchanged. */
  lemma NextWaiting<T>(levels: seq<Level>, slots: seq<seq<Slot>>, lists: seq<seq<seq<Key>>>, before: map<Key,
          Entry<T>>, a: map<Key, Entry<T>>,
                       nextKey: Key, nodes: seq<Node>, taken: set<Key>, rest: seq<Key>, out: seq<Expired<T>>, t: nat)
    requires Layout(levels) && |rest| > 0 && Waiting(a, rest) && KeySet(rest) <= taken
    requires CoreAt(levels, slots, lists, a, nextKey, nodes, KeySet(rest), {}, {})
    requires Progress(before, a, taken, KeySet(rest), out, levels, t)
    ensures rest[0] in a && rest[0] in KeySet(rest) && rest[0] in taken && a[rest[0]].next == Nth(rest[1..], 0)
    ensures CoreAt(levels, slots, lists, Detached(a, rest[0]), nextKey, nodes, KeySet(rest), {}, {})
    ensures Progress(before, Detached(a, rest[0]), taken, KeySet(rest), out, levels, t)
    ensures KeySet(rest[1..]) == KeySet(rest) - {rest[0]}
  {
    RestKeys(rest);
    hide CoreAt, Progress;
    DetachFacts(levels, slots, lists, a, nextKey, nodes, KeySet(rest), rest[0]);
    ProgressDetach(before, a, taken, KeySet(rest), out, levels, t, rest[0]);
  }

  lemma ProgressExpel<T>(before: map<Key, Entry<T>>, a: map<Key, Entry<T>>, c: map<Key, Entry<T>>, taken: set<Key>,
          rest: set<Key>,
                         out: seq<Expired<T>>, levels: seq<Level>, t: nat, key: Key)
    requires Layout(levels) && Progress(before, a, taken, rest, out, levels, t)
    requires Expelled(a, c, key) && a[key].deadline <= t
    ensures Progress(before, c, taken, rest - {key}, out + [Expired(key, a[key].item, a[key].deadline)], levels, t)
  {
    ExpelledView(a, c, key);
    EmitsConcat(ViewOf(before), ViewOf(a), ViewOf(c), out, [Expired(key, a[key].item, a[key].deadline)]);
    hide Emits, ViewOf, PlacedAt;
    forall k | k in c
      ensures k in before && c[k].item == before[k].item && c[k].deadline == before[k].deadline <= U64_MAX
    {
      assert k in a;
    }
    SettlingExpel(before, a, c, taken, rest, levels, t, key);
  }

  lemma SettlingExpel<T>(before: map<Key, Entry<T>>, a: map<Key, Entry<T>>, c: map<Key, Entry<T>>, taken: set<Key>,
          rest: set<Key>,
                         levels: seq<Level>, t: nat, key: Key)
    requires Layout(levels) && Settling(before, a, taken, rest, levels, t) && Expelled(a, c, key)
    ensures Settling(before, c, taken, rest - {key}, levels, t)
  {
    forall k | k in c && k in taken && k !in rest - {key} ensures PlacedAt(c[k], levels, t, 0) {
      assert PlacedAt(a[k], levels, t, 0);
    }
  }

  lemma ProgressPlace<T>(before: map<Key, Entry<T>>, a: map<Key, Entry<T>>, c: map<Key, Entry<T>>, taken: set<Key>,
          rest: set<Key>,
                         out: seq<Expired<T>>, levels: seq<Level>, t: nat, key: Key, l: nat, s: nat)
    requires Layout(levels) && Progress(before, a, taken, rest, out, levels, t)
    requires key in a && key in taken && Placing(a, c, key, l, s, rest)
    requires c[key].deadline > t && PlacedAt(c[key], levels, t, 0)
    ensures Progress(before, c, taken, rest - {key}, out, levels, t)
  {
    RelinkedView(a, c);
    hide Emits, ViewOf;
    SettlingPlace(before, a, c, taken, rest, levels, t, key, l, s);
  }

  lemma SettlingPlace<T>(before: map<Key, Entry<T>>, a: map<Key, Entry<T>>, c: map<Key, Entry<T>>, taken: set<Key>,
          rest: set<Key>,
                         levels: seq<Level>, t: nat, key: Key, l: nat, s: nat)
    requires Layout(levels) && Settling(before, a, taken, rest, levels, t)
    requires key in a && key in taken && Placing(a, c, key, l, s, rest)
    requires c[key].deadline > t && PlacedAt(c[key], levels, t, 0)
    ensures Settling(before, c, taken, rest - {key}, levels, t)
  {
    forall k | k in c && k in taken && k !in rest - {key} ensures c[k].deadline > t && PlacedAt(c[k], levels, t, 0) {
      if k != key { assert PlacedAt(a[k], levels, t, 0); }
    }
  }

  /** Detaching a waiting key changes neither progress nor the chain behind it. */
  lemma ProgressDetach<T>(before: map<Key, Entry<T>>, a: map<Key, Entry<T>>, taken: set<Key>, rest: set<Key>,
                          out: seq<Expired<T>>, levels: seq<Level>, t: nat, key: Key)
    requires Layout(levels) && Progress(before, a, taken, rest, out, levels, t) && key in a && key in rest
    ensures Progress(before, Detached(a, key), taken, rest, out, levels, t)
  {
    RelinkedView(a, Detached(a, key));
    hide Emits, ViewOf;
    forall k | k in a && k in taken && k !in rest ensures PlacedAt(Detached(a, key)[k], levels, t, 0) {
      assert PlacedAt(a[k], levels, t, 0);
    }
  }

  // ---- Opening a level ----

  /** Opening the list the clock points to on level `l` leaves nothing on that level that
      was to be opened now. */
  lemma OpenedLevel<T>(before: map<Key, Entry<T>>, after: map<Key, Entry<T>>, out: seq<Expired<T>>,
          levels: seq<Level>, t: nat, l: nat)
    requires Layout(levels) && l < |levels| && Placed(before, levels, t, l + 1)
    requires Progress(before, after, KeysAt(before, l, SlotOf(levels, l, t)), {}, out, levels, t)
    ensures Placed(after, levels, t, l) && DueAt(out, t)
  {
    hide Emits, ViewOf, SlotOf, VisitTick;
    forall k | k in after ensures PlacedAt(after[k], levels, t, l) {
      assert PlacedAt(before[k], levels, t, l + 1);
      if k !in KeysAt(before, l, SlotOf(levels, l, t)) && after[k].level == l {
        if VisitTick(levels, l, before[k].deadline) == t { DueSlot(levels, l, before[k].deadline, t); }
      }
    }
    EmittedNow(before, after, out, levels, t, l + 1);
  }

  lemma EmittedNow<T>(before: map<Key, Entry<T>>, after: map<Key, Entry<T>>, out: seq<Expired<T>>, levels: seq<Level>,
          t: nat, bound: nat)
    requires Layout(levels) && Placed(before, levels, t, bound)
    requires Emits(ViewOf(before), ViewOf(after), out) && DueBy(out, t)
    ensures DueAt(out, t)
  {
    forall i | 0 <= i < |out| ensures out[i].deadline == t {
      NeverOverdue(before, levels, t, bound, out[i].id);
    }
  }

  /** A level whose unit does not divide the tick has nothing to be opened now. */
  lemma SkippedLevel<T>(entries: map<Key, Entry<T>>, levels: seq<Level>, t: nat, l: nat)
    requires Layout(levels) && l < |levels| && Placed(entries, levels, t, l + 1)
    requires levels[l].unitTicks > 0 && t % levels[l].unitTicks != 0
    ensures Placed(entries, levels, t, l)
  {
    hide SlotOf, VisitTick;
    forall k | k in entries ensures PlacedAt(entries[k], levels, t, l) {
      assert PlacedAt(entries[k], levels, t, l + 1);
      if entries[k].level == l && VisitTick(levels, l, entries[k].deadline) == t {
        DueSlot(levels, l, entries[k].deadline, t);
      }
    }
  }

  lemma PlacedFit<T>(entries: map<Key, Entry<T>>, levels: seq<Level>, t: nat, bound: nat)
    requires Layout(levels) && Placed(entries, levels, t, bound)
    ensures DeadlinesFit(entries)
  {
    forall k | k in entries ensures entries[k].deadline <= U64_MAX {
      assert PlacedAt(entries[k], levels, t, bound);
    }
  }

  lemma LevelSlot(levels: seq<Level>, slots: seq<seq<Slot>>, l: nat, t: nat)
    requires Shaped(levels, slots) && l < |levels|
    ensures levels[l].unitTicks > 0 && InGrid(slots, l, SlotOf(levels, l, t))
    ensures l == 0 ==> SlotOf(levels, l, t) == BitAnd(t, levels[0].mask)
  {
    assert LevelOk(levels[l]);
    SlotInRange(levels, l, t);
    assert t / 1 == t;
  }

  /** Everything was taken and nothing is left to do: what remains is placed after `t`. */
  lemma AllSettled<T>(before: map<Key, Entry<T>>, after: map<Key, Entry<T>>, out: seq<Expired<T>>, levels: seq<Level>,
          t: nat)
    requires Layout(levels) && Progress(before, after, before.Keys, {}, out, levels, t)
    ensures Placed(after, levels, t, 0)
  {
    hide Emits, ViewOf, PlacedAt;
  }

  /** Once only future deadlines are left, the emission is exactly the due timers. */
  lemma OpenedExactly<T>(before: map<Key, Entry<T>>, after: map<Key, Entry<T>>, out: seq<Expired<T>>,
          levels: seq<Level>, t: nat)
    requires Layout(levels) && Placed(after, levels, t, 0)
    requires Emits(ViewOf(before), ViewOf(after), out) && DueBy(out, t)
    ensures ViewOf(after) == Remaining(ViewOf(before), t)
  {
    forall k | k in ViewOf(after) ensures ViewOf(after)[k].deadline > t { AllLater(after, levels, t, k); }
    EmitsDue(ViewOf(before), ViewOf(after), out, t);
  }

  lemma ProgressEmits<T>(before: map<Key, Entry<T>>, after: map<Key, Entry<T>>, taken: set<Key>, rest: set<Key>,
                         out: seq<Expired<T>>, levels: seq<Level>, t: nat)
    requires Layout(levels) && Progress(before, after, taken, rest, out, levels, t)
    ensures Emits(ViewOf(before), ViewOf(after), out) && DueBy(out, t)
  {
  }

  lemma NothingDue<T>(t: nat)
    ensures DueAt<T>([], t)
  {
  }

  lemma DueConcat<T>(a: seq<Expired<T>>, b: seq<Expired<T>>, t: nat)
    requires DueAt(a, t) && DueAt(b, t)
    ensures DueAt(a + b, t) && DueBy(a + b, t)
  {
  }

  lemma BlankFacts<T>(levels: seq<Level>, slots: seq<seq<Slot>>, lists: seq<seq<seq<Key>>>, entries: map<Key, Entry<T>>,
                      nextKey: Key, nodes: seq<Node>, t: nat)
    requires CoreAt(levels, slots, lists, entries, nextKey, nodes, {}, {}, {}) && DeadlinesFit(entries)
    ensures CoreAt(levels, Blank(slots), BlankLists(Blank(slots)), entries, nextKey, nodes, entries.Keys, {}, {})
    ensures Progress(entries, entries, entries.Keys, entries.Keys, [], levels, t)
  {
    BlankPartition(entries, slots);
    assert BlankLists(Blank(slots)) == BlankLists(slots);
    EmitsNothing(ViewOf(entries));
  }

  // ---- Stepping ----

  lemma SortedConcat<T>(a: seq<Expired<T>>, b: seq<Expired<T>>, t: nat, t': nat)
    requires SortedByDeadline(a) && DueBy(a, t) && DueAt(b, t') && t <= t'
    ensures SortedByDeadline(a + b) && DueBy(a + b, t')
  {
  }

  /** Everything due by `t`, and nothing else, was emitted, in deadline order. */
  ghost predicate Stepped<T>(start: map<Key, Timer<T>>, now: map<Key, Timer<T>>, out: seq<Expired<T>>, t: nat)
  {
    Emits(start, now, out) && DueBy(out, t) && SortedByDeadline(out) && now == Remaining(start, t)
  }

  lemma StepFirst<T>(start: map<Key, Timer<T>>, now: map<Key, Timer<T>>, out: seq<Expired<T>>, t: nat)
    requires Emits(start, now, out) && DueAt(out, t) && now == Remaining(start, t)
    ensures Stepped(start, now, out, t)
  {
  }

  lemma StepAgain<T>(start: map<Key, Timer<T>>, before: map<Key, Timer<T>>, now: map<Key, Timer<T>>,
                     done: seq<Expired<T>>, pushed: seq<Expired<T>>, t: nat)
    requires Stepped(start, before, done, t)
    requires Emits(before, now, pushed) && DueAt(pushed, t + 1) && now == Remaining(before, t + 1)
    ensures Stepped(start, now, done + pushed, t + 1)
  {
    EmitsConcat(start, before, now, done, pushed);
    SortedConcat(done, pushed, t, t + 1);
    RemainingTwice(start, t, t + 1);
  }

  lemma RemainingTwice<T>(v: map<Key, Timer<T>>, t: nat, t': nat)
    requires t <= t'
    ensures Remaining(Remaining(v, t), t') == Remaining(v, t')
  {
  }

  lemma PlacedWeaker<T>(entries: map<Key, Entry<T>>, levels: seq<Level>, t: nat)
    requires Layout(levels) && Placed(entries, levels, t, 0)
    ensures Placed(entries, levels, t, 1)
  {
    hide SlotOf, VisitTick;
  }

  // ---- Inserting and rescheduling ----

  /** The heap moved entries around and is complete again. */
  lemma ReindexCore<T>(levels: seq<Level>, slots: seq<seq<Slot>>, lists: seq<seq<seq<Key>>>, a: map<Key, Entry<T>>,
          b: map<Key, Entry<T>>,
                       nextKey: Key, nodes: seq<Node>, nodes': seq<Node>, loose: set<Key>, absent: set<Key>,
                       stale: set<Key>)
    requires CoreAt(levels, slots, lists, a, nextKey, nodes, loose, absent, stale)
    requires Reindexed(a, b) && Ordered(nodes') && Aligned(nodes', b, {}, {})
    ensures CoreAt(levels, slots, lists, b, nextKey, nodes', loose, {}, {})
  {
    ReindexKeepsChains(a, b, slots, lists, loose);
    hide Partition, Ordered, Aligned, Layout;
  }

  lemma AddFacts<T>(levels: seq<Level>, slots: seq<seq<Slot>>, lists: seq<seq<seq<Key>>>, entries: map<Key, Entry<T>>,
                    nextKey: Key, nodes: seq<Node>, e: Entry<T>)
    requires CoreAt(levels, slots, lists, entries, nextKey, nodes, {}, {}, {})
    ensures CoreAt(levels, slots, lists, entries[nextKey := e], nextKey + 1, nodes, {nextKey}, {nextKey}, {})
  {
    AddLoose(entries, slots, lists, nextKey, e);
  }

  lemma StaleFacts<T>(levels: seq<Level>, slots: seq<seq<Slot>>, lists: seq<seq<seq<Key>>>, entries: map<Key, Entry<T>>,
                      nextKey: Key, nodes: seq<Node>, key: Key, deadline: nat)
    requires CoreAt(levels, slots, lists, entries, nextKey, nodes, {key}, {}, {}) && key in entries
    ensures CoreAt(levels, slots, lists, entries[key := entries[key].(deadline := deadline)], nextKey, nodes, {key},
        {}, {key})
  {
    TouchLoose(entries, entries[key := entries[key].(deadline := deadline)], slots, lists, {key});
    StaleAligned(entries, nodes, key, deadline);
    hide Partition, Ordered, Aligned, Layout;
  }

  lemma StaleAligned<T>(entries: map<Key, Entry<T>>, nodes: seq<Node>, key: Key, deadline: nat)
    requires Aligned(nodes, entries, {}, {}) && key in entries
    ensures Aligned(nodes, entries[key := entries[key].(deadline := deadline)], {}, {key})
  {
  }

  /** All entries but `key` keep location and deadline. */
  ghost predicate KeepsOthers<T>(a: map<Key, Entry<T>>, b: map<Key, Entry<T>>, key: Key)
  {
    && (forall k :: k in a && k != key ==> k in b)
    && forall k :: k in b && k != key ==>
         && k in a
         && b[k].level == a[k].level && b[k].slot == a[k].slot
         && b[k].deadline == a[k].deadline && b[k].item == a[k].item
  }

  lemma PlacedKeeps<T>(a: map<Key, Entry<T>>, b: map<Key, Entry<T>>, key: Key, levels: seq<Level>, t: nat)
    requires Layout(levels) && Placed(a, levels, t, 1) && KeepsOthers(a, b, key)
    requires key in b ==> PlacedAt(b[key], levels, t, 1)
    ensures Placed(b, levels, t, 1)
  {
    hide SlotOf, VisitTick;
    forall k | k in b ensures PlacedAt(b[k], levels, t, 1) {
      if k != key { assert PlacedAt(a[k], levels, t, 1); }
    }
  }

  lemma KeepsView<T>(a: map<Key, Entry<T>>, b: map<Key, Entry<T>>, key: Key)
    requires KeepsOthers(a, b, key)
    ensures key in b ==> ViewOf(b) == ViewOf(a)[key := Timer(b[key].item, b[key].deadline)]
    ensures key !in b ==> ViewOf(b) == ViewOf(a) - {key}
  {
  }

  lemma OthersPlacing<T>(a: map<Key, Entry<T>>, b: map<Key, Entry<T>>, c: map<Key, Entry<T>>, key: Key, l: nat,
          s: nat, loose: set<Key>)
    requires key in b && KeepsOthers(a, b, key) && Placing(b, c, key, l, s, loose)
    ensures KeepsOthers(a, c, key) && key in c
    ensures c[key].item == b[key].item && c[key].deadline == b[key].deadline && c[key].level == l && c[key].slot == s
  {
  }

  lemma OthersAdded<T>(a: map<Key, Entry<T>>, key: Key, e: Entry<T>)
    requires key !in a
    ensures KeepsOthers(a, a[key := e], key)
  {
  }

  lemma OthersReindexed<T>(a: map<Key, Entry<T>>, b: map<Key, Entry<T>>, c: map<Key, Entry<T>>, key: Key)
    requires KeepsOthers(a, b, key) && Reindexed(b, c)
    ensures KeepsOthers(a, c, key)
    ensures key in b ==> key in c && c[key] == b[key].(heapIndex := c[key].heapIndex)
  {
  }

  lemma OthersUnlinked<T>(a: map<Key, Entry<T>>, key: Key)
    requires key in a
    requires a[key].prev.Some? ==> a[key].prev.value in a
    requires a[key].next.Some? ==> a[key].next.value in a
    ensures KeepsOthers(a, UnlinkedEntries(a, key), key)
    ensures key in UnlinkedEntries(a, key)
    ensures UnlinkedEntries(a, key)[key].item == a[key].item && UnlinkedEntries(a, key)[key].deadline == a[key].deadline
  {
  }

  lemma OthersChanged<T>(a: map<Key, Entry<T>>, b: map<Key, Entry<T>>, key: Key, e: Entry<T>)
    requires KeepsOthers(a, b, key)
    ensures KeepsOthers(a, b[key := e], key)
  {
  }

  lemma OthersExpelled<T>(a: map<Key, Entry<T>>, b: map<Key, Entry<T>>, c: map<Key, Entry<T>>, key: Key)
    requires KeepsOthers(a, b, key) && Expelled(b, c, key)
    ensures KeepsOthers(a, c, key) && key !in c
  {
  }

  // ---- The earliest deadline ----

  /** `k` has the earliest deadline of all live timers. */
  ghost predicate Earliest<T>(live: map<Key, Timer<T>>, k: Key)
  {
    k in live && forall j :: j in live ==> live[k].deadline <= live[j].deadline
  }

  lemma RootIsEarliest<T>(entries: map<Key, Entry<T>>, nodes: seq<Node>)
    requires Ordered(nodes) && Aligned(nodes, entries, {}, {}) && |nodes| > 0
    ensures Earliest(ViewOf(entries), nodes[0].key)
    ensures nodes[0].key in entries && entries[nodes[0].key].deadline == nodes[0].deadline
  {
    forall j | j in entries ensures entries[nodes[0].key].deadline <= entries[j].deadline {
      RootIsLeast(nodes, entries[j].heapIndex);
    }
  }

  lemma EmptyHeap<T>(entries: map<Key, Entry<T>>, nodes: seq<Node>)
    requires Aligned(nodes, entries, {}, {}) && |nodes| == 0
    ensures entries == map[]
  {
    assert forall k :: k !in entries;
  }

  lemma ClearedCore<T>(levels: seq<Level>, slots: seq<seq<Slot>>, nextKey: Key)
    requires Shaped(levels, slots)
    ensures CoreAt<T>(levels, Blank(slots), BlankLists(slots), map[], nextKey, [], {}, {}, {})
  {
    BlankPartition<T>(map[], slots);
    var none: map<Key, Entry<T>> := map[];
    assert none.Keys == {};
    hide Partition, Layout;
  }
}
