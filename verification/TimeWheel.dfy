/** The hierarchical timing wheel: slot map, slot lists, deadline heap and clock. Its public
    operations are proved to act as those of TimerModel on the map of live timers. */
module TimeWheel {
  import opened Wrappers
  import opened SlotTable
  import opened DeadlineHeap
  import opened WheelConfig
  import opened WheelLists
  import opened Placement
  import opened TimerModel
  import opened WheelCore

  /** Advances of more ticks than this re-bucket every entry instead of stepping. */
  const SMALL_ADVANCE_LIMIT: nat := 4096

  datatype AdvanceReport = AdvanceReport(elapsedTicks: nat, expiredCount: nat, fastForwarded: bool)

  class Wheel<T> {
    const tasks: Table<T>
    const heap: Heap<T>
    const levels: seq<Level>
    const baseTickNanos: nat
    var slots: seq<seq<Slot>>
    var currentTick: nat
    var remainderNanos: nat
    ghost var lists: seq<seq<seq<Key>>>

    /** The structural invariant, relaxed for the keys in `loose`, `absent` and `stale`. */
    ghost predicate Core(loose: set<Key>, absent: set<Key>, stale: set<Key>)
      reads this, tasks, heap
    {
      CoreAt(levels, slots, lists, tasks.entries, tasks.nextKey, heap.nodes, loose, absent, stale)
    }

    ghost predicate Valid()
      reads this, tasks, heap
    {
      Layout(levels) && Core({}, {}, {}) && Placed(tasks.entries, levels, currentTick, 1) && ClockOk(Now())
    }

    ghost function Now(): Clock
      reads this
    {
      Clock(currentTick, remainderNanos, baseTickNanos)
    }

    ghost function View(): map<Key, Timer<T>>
      reads this, tasks
    {
      ViewOf(tasks.entries)
    }

    constructor (config: Config)
      requires Layout(config.levels) && 0 < config.baseTickNanos <= U64_MAX
      ensures Valid() && fresh(tasks) && fresh(heap)
      ensures View() == map[] && Now() == Clock(0, 0, config.baseTickNanos) && tasks.nextKey == 0
    {
      tasks := new Table();
      heap := new Heap();
      levels := config.levels;
      baseTickNanos := config.baseTickNanos;
      currentTick := 0;
      remainderNanos := 0;
      slots := seq(|config.levels|, l requires 0 <= l < |config.levels| => seq(config.levels[l].slotCount,
          _ => EMPTY_SLOT));
      lists := seq(|config.levels|, l requires 0 <= l < |config.levels| => seq(config.levels[l].slotCount, _ => []));
      new;
      assert slots == Blank(slots) && lists == BlankLists(slots);
      BlankPartition(tasks.entries, slots);
    }

    // ---- Location ----

    /** The lowest level whose span contains the distance, and the slot of the deadline there. */
    method DetermineLocation(deadline: nat) returns (l: nat, s: nat)
      requires Shaped(levels, slots) && deadline <= U64_MAX
      ensures InGrid(slots, l, s) && l < |levels| && s == SlotOf(levels, l, deadline)
      ensures currentTick <= deadline ==>
        currentTick <= VisitTick(levels, l, deadline) && (0 < l ==> currentTick < VisitTick(levels, l, deadline))
    {
      hide SlotOf, VisitTick;
      var delta := SatSub(deadline, currentTick);
      l := |levels| - 1;
      var index := 0;
      while index < |levels|
        invariant index <= |levels| && l == |levels| - 1
        invariant forall i :: 0 <= i < index ==> delta >= levels[i].spanTicks
        decreases |levels| - index
      {
        if delta < levels[index].spanTicks {
          l := index;
          break;
        }
        index := index + 1;
      }
      s := SlotOf(levels, l, deadline);
      SlotInRange(levels, l, deadline);
      if currentTick <= deadline {
        if 0 < l {
          assert delta >= levels[l - 1].spanTicks;
          FarVisit(levels, l, deadline, currentTick);
        } else {
          VisitBound(levels, 0, deadline);
        }
      }
    }

    // ---- Lists ----

    /** `link`: append `key` to the list of slot (l, s). */
    method AppendNode(key: Key, l: nat, s: nat) returns (r: Result<(), TimerError>)
      requires InGrid(slots, l, s) && key in tasks.entries
      requires var slot := At(slots, l, s);
        (slot.head.None? <==> slot.tail.None?) && (slot.tail.Some? ==> slot.tail.value in tasks.entries)
      modifies this`slots, tasks
      ensures r.Ok? && tasks.nextKey == old(tasks.nextKey)
      ensures tasks.entries == LinkedEntries(old(tasks.entries), key, l, s, old(At(slots, l, s).tail))
      ensures var head := old(At(slots, l, s).head);
        slots == Put(old(slots), l, s, Slot(if head.None? then Some(key) else head, Some(key)))
    {
      var oldHead := At(slots, l, s).head;
      if oldHead.None? {
        slots := Put(slots, l, s, Slot(Some(key), Some(key)));
        if key !in tasks.entries { return Err(InvariantViolation); }
        tasks.entries := tasks.entries[key := tasks.entries[key].(level := l, slot := s, prev := None, next := None)];
        return Ok(());
      }
      var oldTail := At(slots, l, s).tail;
      if oldTail.None? { return Err(InvariantViolation); }
      if oldTail.value !in tasks.entries { return Err(InvariantViolation); }
      tasks.entries := tasks.entries[oldTail.value := tasks.entries[oldTail.value].(next := Some(key))];
      if key !in tasks.entries { return Err(InvariantViolation); }
      tasks.entries := tasks.entries[key := tasks.entries[key].(level := l, slot := s, prev := oldTail, next := None)];
      slots := Put(slots, l, s, At(slots, l, s).(tail := Some(key)));
      r := Ok(());
    }

    method Link(key: Key, l: nat, s: nat, ghost loose: set<Key>, ghost absent: set<Key>, ghost stale: set<Key>)
      returns (r: Result<(), TimerError>)
      requires Core(loose, absent, stale) && key in loose && key in tasks.entries && InGrid(slots, l, s)
      modifies this`slots, this`lists, tasks
      ensures r.Ok? && Core(loose - {key}, absent, stale) && tasks.nextKey == old(tasks.nextKey)
      ensures Placing(old(tasks.entries), tasks.entries, key, l, s, loose)
    {
      LinkFacts(levels, slots, lists, tasks.entries, tasks.nextKey, heap.nodes, loose, absent, stale, key, l, s);
      hide CoreAt, Placing, LinkedEntries, Put, At;
      lists := Put(lists, l, s, At(lists, l, s) + [key]);
      r := AppendNode(key, l, s);
    }

    /** `unlink`: take `key` out of the list it is in, repairing its neighbours or the slot. */
    method RemoveNode(key: Key) returns (r: Result<(), TimerError>)
      requires key in tasks.entries ==>
        && InGrid(slots, tasks.entries[key].level, tasks.entries[key].slot)
        && (tasks.entries[key].prev.Some? ==> tasks.entries[key].prev.value in tasks.entries)
        && (tasks.entries[key].next.Some? ==> tasks.entries[key].next.value in tasks.entries)
      modifies this`slots, tasks
      ensures tasks.nextKey == old(tasks.nextKey)
      ensures if key in old(tasks.entries) then r.Ok? else r == Err(StaleTimerId)
      ensures r.Ok? ==>
        && tasks.entries == UnlinkedEntries(old(tasks.entries), key)
        && slots == UnlinkedSlots(old(slots), old(tasks.entries)[key])
      ensures r.Err? ==> tasks.entries == old(tasks.entries) && slots == old(slots)
    {
      if key !in tasks.entries { return Err(StaleTimerId); }
      var e := tasks.entries[key];
      if !InGrid(slots, e.level, e.slot) { return Err(InvariantViolation); }
      match e.prev {
        case Some(prev) =>
          if prev !in tasks.entries { return Err(InvariantViolation); }
          tasks.entries := tasks.entries[prev := tasks.entries[prev].(next := e.next)];
        case None =>
          slots := Put(slots, e.level, e.slot, At(slots, e.level, e.slot).(head := e.next));
      }
      match e.next {
        case Some(next) =>
          if next !in tasks.entries { return Err(InvariantViolation); }
          tasks.entries := tasks.entries[next := tasks.entries[next].(prev := e.prev)];
        case None =>
          slots := Put(slots, e.level, e.slot, At(slots, e.level, e.slot).(tail := e.prev));
      }
      if key !in tasks.entries { return Err(InvariantViolation); }
      tasks.entries := tasks.entries[key := tasks.entries[key].(prev := None, next := None)];
      PutSame(old(slots), e.level, e.slot);
      ghost var slot := old(At(slots, e.level, e.slot));
      PutTwice(old(slots), e.level, e.slot, slot.(head := e.next), UnlinkedSlot(slot, e));
      r := Ok(());
    }

    method Unlink(key: Key) returns (r: Result<(), TimerError>)
      requires Core({}, {}, {}) && key in tasks.entries
      modifies this`slots, this`lists, tasks
      ensures r.Ok? && Core({key}, {}, {}) && tasks.nextKey == old(tasks.nextKey)
      ensures KeepsOthers(old(tasks.entries), tasks.entries, key) && key in tasks.entries
      ensures tasks.entries[key].item == old(tasks.entries)[key].item
      ensures tasks.entries[key].deadline == old(tasks.entries)[key].deadline
    {
      ghost var lists' := UnlinkFacts(levels, slots, lists, tasks.entries, tasks.nextKey, heap.nodes, key);
      OthersUnlinked(tasks.entries, key);
      hide CoreAt, KeepsOthers, UnlinkedEntries, UnlinkedSlots, Put, At;
      lists := lists';
      r := RemoveNode(key);
    }

    // ---- Opening lists ----

    /** Remove a loose key from the heap and from the table. */
    method Expel(key: Key, ghost loose: set<Key>) returns (r: Result<Expired<T>, TimerError>)
      requires Core(loose, {}, {}) && key in loose && key in tasks.entries
      modifies tasks, heap
      ensures Core(loose - {key}, {}, {}) && tasks.nextKey == old(tasks.nextKey)
      ensures Expelled(old(tasks.entries), tasks.entries, key)
      ensures r == Ok(Expired(key, old(tasks.entries)[key].item, old(tasks.entries)[key].deadline))
    {
      ghost var before := tasks.entries;
      hide Shaped, KeysIssued, Partition, Ordered, Expelled;
      var deadline := tasks.entries[key].deadline;
      var removed := heap.Remove(key, tasks.entries[key].heapIndex, tasks);
      if removed.Err? { return Err(InvariantViolation); }
      ExpelFacts(levels, slots, lists, before, tasks.entries, tasks.nextKey, heap.nodes, loose, key);
      var entry := tasks.Remove(key);
      if entry.None? { return Err(InvariantViolation); }
      hide Aligned;
      r := Ok(Expired(key, entry.value.item, deadline));
    }

    /** Deal with one loose key: emit it if it is due, place it anew otherwise. Returns what
        it pushes. `before`, `taken` and `done` say what the surrounding loop has achieved. */
    method Settle(key: Key, ghost before: map<Key, Entry<T>>, ghost taken: set<Key>, ghost loose: set<Key>,
            ghost done: seq<Expired<T>>)
      returns (r: Result<(), TimerError>, pushed: seq<Expired<T>>)
      requires Layout(levels) && Core(loose, {}, {}) && key in loose && key in taken && key in tasks.entries
      requires Progress(before, tasks.entries, taken, loose, done, levels, currentTick)
      modifies this`slots, this`lists, tasks, heap
      ensures r.Ok? && Core(loose - {key}, {}, {}) && tasks.nextKey == old(tasks.nextKey)
      ensures Progress(before, tasks.entries, taken, loose - {key}, done + pushed, levels, currentTick)
      ensures KeepsChain(old(tasks.entries), tasks.entries, key, loose)
    {
      hide SlotOf, VisitTick, Partition, Ordered, Aligned, Layout, Emits, ViewOf;
      var deadline := tasks.entries[key].deadline;
      if deadline <= currentTick {
        var expired := Expel(key, loose);
        if expired.Err? { return Err(InvariantViolation), []; }
        ProgressExpel(before, old(tasks.entries), tasks.entries, taken, loose, done, levels, currentTick, key);
        pushed := [expired.value];
      } else {
        var l, s := DetermineLocation(deadline);
        VisitBound(levels, l, deadline);
        r := Link(key, l, s, loose, {}, {});
        if r.Err? { return r, []; }
        ProgressPlace(before, old(tasks.entries), tasks.entries, taken, loose, done, levels, currentTick, key, l, s);
        pushed := [];
        assert done + pushed == done;
      }
      r := Ok(());
    }

    /** One round of the list walk: read the successor, detach the key, deal with it. */
    method OpenNext(key: Key, ghost before: map<Key, Entry<T>>, ghost taken: set<Key>, ghost rest: seq<Key>,
            ghost done: seq<Expired<T>>)
      returns (r: Result<(), TimerError>, pushed: seq<Expired<T>>, next: Option<Key>)
      requires Layout(levels) && |rest| > 0 && key == rest[0] && KeySet(rest) <= taken
      requires Core(KeySet(rest), {}, {}) && Waiting(tasks.entries, rest)
      requires Progress(before, tasks.entries, taken, KeySet(rest), done, levels, currentTick)
      modifies this`slots, this`lists, tasks, heap
      ensures r.Ok? && next == Nth(rest[1..], 0) && KeySet(rest[1..]) <= taken
      ensures Core(KeySet(rest[1..]), {}, {}) && Waiting(tasks.entries, rest[1..])
      ensures tasks.nextKey == old(tasks.nextKey)
      ensures Progress(before, tasks.entries, taken, KeySet(rest[1..]), done + pushed, levels, currentTick)
    {
      NextWaiting(levels, slots, lists, before, tasks.entries, tasks.nextKey, heap.nodes, taken, rest, done,
          currentTick);
      hide CoreAt, Progress, Waiting, KeySet, KeepsChain, Layout, Detached;
      if key !in tasks.entries { return Err(InvariantViolation), [], None; }
      next := tasks.entries[key].next;
      tasks.entries := Detached(tasks.entries, key);
      r, pushed := Settle(key, before, taken, KeySet(rest), done);
      WaitingNext(old(tasks.entries), tasks.entries, rest);
    }

    /** `process_slot`: empty the list of slot (l, s), emitting what is due and placing the
        rest anew. Returns the timers it pushes. */
    method ProcessSlot(l: nat, s: nat) returns (r: Result<(), TimerError>, out: seq<Expired<T>>)
      requires Layout(levels) && Core({}, {}, {}) && InGrid(slots, l, s) && DeadlinesFit(tasks.entries)
      modifies this`slots, this`lists, tasks, heap
      ensures r.Ok? && Core({}, {}, {}) && tasks.nextKey == old(tasks.nextKey)
      ensures Progress(old(tasks.entries), tasks.entries, KeysAt(old(tasks.entries), l, s), {}, out, levels,
          currentTick)
    {
      ghost var before := tasks.entries;
      ghost var rest := At(lists, l, s);
      ghost var taken := KeysAt(before, l, s);
      TakeFacts(levels, slots, lists, before, tasks.nextKey, heap.nodes, l, s, currentTick);
      hide CoreAt, Progress, Waiting, KeysAt, Put, At, Layout, DeadlinesFit;
      out := [];
      var current := At(slots, l, s).head;
      slots := Put(slots, l, s, EMPTY_SLOT);
      lists := Put(lists, l, s, []);
      while current.Some?
        invariant current == Nth(rest, 0) && KeySet(rest) <= taken
        invariant Core(KeySet(rest), {}, {}) && tasks.nextKey == old(tasks.nextKey) && Waiting(tasks.entries, rest)
        invariant Progress(before, tasks.entries, taken, KeySet(rest), out, levels, currentTick)
        decreases |rest|
      {
        var dealt, pushed, next := OpenNext(current.value, before, taken, rest, out);
        if dealt.Err? { return dealt, out; }
        out := out + pushed;
        rest := rest[1..];
        current := next;
      }
      assert rest == [];
      r := Ok(());
    }

    // ---- Advancing ----

    /** Open the list of level `l` that the clock points to, if it points to a new one. */
    method OpenLevel(l: nat) returns (r: Result<(), TimerError>, out: seq<Expired<T>>)
      requires Layout(levels) && l < |levels| && Core({}, {}, {}) && Placed(tasks.entries, levels, currentTick, l + 1)
      modifies this`slots, this`lists, tasks, heap
      ensures r.Ok? && Core({}, {}, {}) && tasks.nextKey == old(tasks.nextKey)
      ensures Placed(tasks.entries, levels, currentTick, l)
      ensures Emits(old(View()), View(), out) && DueAt(out, currentTick)
    {
      ghost var before := tasks.entries;
      LevelSlot(levels, slots, l, currentTick);
      PlacedFit(tasks.entries, levels, currentTick, l + 1);
      hide Emits, ViewOf, Placed, CoreAt, DueAt, Progress, Layout;
      if currentTick % levels[l].unitTicks == 0 {
        var levelTick := currentTick / levels[l].unitTicks;
        var slot := BitAnd(levelTick, levels[l].mask);
        r, out := ProcessSlot(l, slot);
        OpenedLevel(before, tasks.entries, out, levels, currentTick, l);
        ProgressEmits(before, tasks.entries, KeysAt(before, l, slot), {}, out, levels, currentTick);
      } else {
        SkippedLevel(tasks.entries, levels, currentTick, l);
        EmitsNothing(View());
        NothingDue<T>(currentTick);
        return Ok(()), [];
      }
    }

    /** `cascade_at_current_tick`: from the top down, open the list of every level whose
        unit divides the tick. */
    method CascadeAtCurrentTick() returns (r: Result<(), TimerError>, out: seq<Expired<T>>)
      requires Layout(levels) && Core({}, {}, {}) && Placed(tasks.entries, levels, currentTick, |levels|)
      modifies this`slots, this`lists, tasks, heap
      ensures r.Ok? && Core({}, {}, {}) && tasks.nextKey == old(tasks.nextKey)
      ensures Placed(tasks.entries, levels, currentTick, 1)
      ensures Emits(old(View()), View(), out) && DueAt(out, currentTick)
    {
      EmitsNothing(View());
      NothingDue<T>(currentTick);
      assert |levels| >= 1;
      hide Emits, ViewOf, Placed, CoreAt, DueAt, Layout;
      out := [];
      for l := |levels| downto 1
        invariant Core({}, {}, {}) && tasks.nextKey == old(tasks.nextKey)
        invariant Placed(tasks.entries, levels, currentTick, l)
        invariant Emits(old(View()), View(), out) && DueAt(out, currentTick)
      {
        ghost var before, done := View(), out;
        var pushed;
        r, pushed := OpenLevel(l);
        if r.Err? { return; }
        EmitsConcat(old(View()), before, View(), done, pushed);
        DueConcat(done, pushed, currentTick);
        out := out + pushed;
      }
      r := Ok(());
    }

    /** `process_l0_slot`. */
    method ProcessL0Slot() returns (r: Result<(), TimerError>, out: seq<Expired<T>>)
      requires Layout(levels) && Core({}, {}, {}) && Placed(tasks.entries, levels, currentTick, 1)
      modifies this`slots, this`lists, tasks, heap
      ensures r.Ok? && Core({}, {}, {}) && tasks.nextKey == old(tasks.nextKey)
      ensures Placed(tasks.entries, levels, currentTick, 0)
      ensures Emits(old(View()), View(), out) && DueAt(out, currentTick)
    {
      ghost var before := tasks.entries;
      LevelSlot(levels, slots, 0, currentTick);
      PlacedFit(tasks.entries, levels, currentTick, 1);
      hide Emits, ViewOf, Placed, CoreAt, DueAt, Progress, SlotOf;
      var slot := BitAnd(currentTick, levels[0].mask);
      r, out := ProcessSlot(0, slot);
      OpenedLevel(before, tasks.entries, out, levels, currentTick, 0);
      ProgressEmits(before, tasks.entries, KeysAt(before, 0, slot), {}, out, levels, currentTick);
    }

    /** Everything that happens at one tick: exactly the timers whose deadline is this very
        tick are emitted. */
    method OpenTick() returns (r: Result<(), TimerError>, out: seq<Expired<T>>)
      requires Layout(levels) && Core({}, {}, {}) && Placed(tasks.entries, levels, currentTick, |levels|)
      modifies this`slots, this`lists, tasks, heap
      ensures r.Ok? && Core({}, {}, {}) && tasks.nextKey == old(tasks.nextKey)
      ensures Placed(tasks.entries, levels, currentTick, 0)
      ensures Emits(old(View()), View(), out) && DueAt(out, currentTick)
      ensures View() == Remaining(old(View()), currentTick)
    {
      ghost var before := tasks.entries;
      hide Emits, ViewOf, Placed, CoreAt, Remaining, DueAt;
      r, out := CascadeAtCurrentTick();
      if r.Err? { return; }
      ghost var middle, first := tasks.entries, out;
      var pushed;
      r, pushed := ProcessL0Slot();
      if r.Err? { return; }
      out := out + pushed;
      EmitsConcat(ViewOf(before), ViewOf(middle), View(), first, pushed);
      DueConcat(first, pushed, currentTick);
      OpenedExactly(before, tasks.entries, out, levels, currentTick);
    }

    /** `fast_forward`: jump to the target, clear every slot and deal with every entry. */
    method FastForward(target: nat) returns (r: Result<(), TimerError>, out: seq<Expired<T>>)
      requires Layout(levels) && Core({}, {}, {}) && DeadlinesFit(tasks.entries)
      modifies this`slots, this`lists, this`currentTick, tasks, heap
      ensures r.Ok? && Core({}, {}, {}) && tasks.nextKey == old(tasks.nextKey) && currentTick == target
      ensures Placed(tasks.entries, levels, target, 0)
      ensures Emits(old(View()), View(), out) && DueBy(out, target)
      ensures View() == Remaining(old(View()), target)
    {
      ghost var before := tasks.entries;
      ghost var taken := before.Keys;
      BlankFacts(levels, slots, lists, before, tasks.nextKey, heap.nodes, target);
      hide Emits, ViewOf, Placed, CoreAt, Remaining, Progress;
      hide Blank, BlankLists, Layout, KeepsChain, DueBy, DeadlinesFit;
      var keys := tasks.entries.Keys;
      slots := Blank(slots);
      lists := BlankLists(slots);
      currentTick := target;
      out := [];
      while keys != {}
        invariant keys <= taken && keys <= tasks.entries.Keys && currentTick == target
        invariant Core(keys, {}, {}) && tasks.nextKey == old(tasks.nextKey)
        invariant Progress(before, tasks.entries, taken, keys, out, levels, target)
        decreases keys
      {
        var key :| key in keys;
        ghost var was := tasks.entries;
        if key !in tasks.entries { return Err(InvariantViolation), out; }
        var settled, pushed := Settle(key, before, taken, keys, out);
        if settled.Err? { return settled, out; }
        StillLive(was, tasks.entries, key, keys);
        out := out + pushed;
        keys := keys - {key};
      }
      AllSettled(before, tasks.entries, out, levels, target);
      ProgressEmits(before, tasks.entries, taken, {}, out, levels, target);
      OpenedExactly(before, tasks.entries, out, levels, target);
      r := Ok(());
    }

    /** Move to the next tick and open it. `start` and `done` say what was emitted before. */
    method NextStep(ghost start: map<Key, Timer<T>>, ghost done: seq<Expired<T>>)
      returns (r: Result<(), TimerError>, pushed: seq<Expired<T>>)
      requires Layout(levels) && Core({}, {}, {}) && Placed(tasks.entries, levels, currentTick, 0)
      requires Stepped(start, View(), done, currentTick)
      modifies this`slots, this`lists, this`currentTick, tasks, heap
      ensures r.Ok? && Core({}, {}, {}) && tasks.nextKey == old(tasks.nextKey) && currentTick == old(currentTick) + 1
      ensures Placed(tasks.entries, levels, currentTick, 0)
      ensures Stepped(start, View(), done + pushed, currentTick)
    {
      NextTick(tasks.entries, levels, currentTick);
      hide Emits, ViewOf, Placed, CoreAt, DueAt, Layout, Remaining, Stepped;
      currentTick := currentTick + 1;
      r, pushed := OpenTick();
      StepAgain(start, old(View()), View(), done, pushed, currentTick - 1);
    }

    /** The step-by-step advance: open the current tick, then every tick up to the target. */
    method StepTo(target: nat) returns (r: Result<(), TimerError>, out: seq<Expired<T>>)
      requires Layout(levels) && Core({}, {}, {}) && Placed(tasks.entries, levels, currentTick, 1)
      requires currentTick <= target
      modifies this`slots, this`lists, this`currentTick, tasks, heap
      ensures r.Ok? && Core({}, {}, {}) && tasks.nextKey == old(tasks.nextKey) && currentTick == target
      ensures Placed(tasks.entries, levels, target, 0)
      ensures Stepped(old(View()), View(), out, target)
    {
      AnyBound(tasks.entries, levels, currentTick);
      hide Emits, ViewOf, Placed, CoreAt, DueAt, Layout, Remaining, Stepped;
      ghost var start := View();
      r, out := OpenTick();
      if r.Err? { return; }
      StepFirst(start, View(), out, currentTick);
      while currentTick < target
        invariant currentTick <= target && tasks.nextKey == old(tasks.nextKey)
        invariant Core({}, {}, {}) && Placed(tasks.entries, levels, currentTick, 0)
        invariant Stepped(start, View(), out, currentTick)
      {
        var pushed;
        r, pushed := NextStep(start, out);
        if r.Err? { return; }
        out := out + pushed;
      }
      r := Ok(());
    }

    /** The clock after `elapsed` nanoseconds, or why it cannot be advanced. */
    method NextClock(elapsed: nat) returns (r: Result<Clock, TimerError>)
      requires ClockOk(Now())
      ensures r == AdvanceClock(Now(), elapsed)
    {
      if elapsed > U64_MAX { return Err(ElapsedOverflow); }
      var totalNanos := remainderNanos + elapsed;
      if totalNanos > U64_MAX { return Err(ElapsedOverflow); }
      var elapsedTicks := totalNanos / baseTickNanos;
      var remainder := totalNanos % baseTickNanos;
      var targetTick := currentTick + elapsedTicks;
      if targetTick > U64_MAX { return Err(ClockOverflow); }
      r := Ok(Clock(targetTick, remainder, baseTickNanos));
    }

    /** `advance_by`. On success the clock moves as the model's, and exactly the timers due
        by the new tick are emitted: in deadline order when stepping, in any order when
        fast-forwarding. A failed advance changes nothing. */
    method AdvanceBy(elapsed: nat) returns (r: Result<AdvanceReport, TimerError>, out: seq<Expired<T>>)
      requires Valid()
      modifies this`slots, this`lists, this`currentTick, this`remainderNanos, tasks, heap
      ensures Valid() && tasks.nextKey == old(tasks.nextKey)
      ensures AdvanceClock(old(Now()), elapsed).Err? ==>
        r == Err(AdvanceClock(old(Now()), elapsed).error) && out == [] && Now() == old(Now()) && View() == old(View())
      ensures AdvanceClock(old(Now()), elapsed).Ok? ==>
        var ticks := TicksIn(old(Now()), elapsed);
        && Now() == AdvanceClock(old(Now()), elapsed).value
        && r == Ok(AdvanceReport(ticks, |out|, ticks > SMALL_ADVANCE_LIMIT))
        && View() == Remaining(old(View()), currentTick)
        && Emits(old(View()), View(), out)
        && DueBy(out, currentTick)
        && (ticks <= SMALL_ADVANCE_LIMIT ==> SortedByDeadline(out))
    {
      hide Emits, ViewOf, Placed, CoreAt, Layout, DueBy, SortedByDeadline, Remaining, AdvanceClock, Nanos, TicksIn;
      var next := NextClock(elapsed);
      if next.Err? { return Err(next.error), []; }
      AdvanceConserves(Now(), elapsed);
      AdvanceTicks(Now(), elapsed);
      var elapsedTicks := next.value.tick - currentTick;
      remainderNanos := next.value.remainder;
      var fastForwarded := elapsedTicks > SMALL_ADVANCE_LIMIT;
      var advanced;
      if fastForwarded {
        PlacedFit(tasks.entries, levels, currentTick, 1);
        advanced, out := FastForward(next.value.tick);
      } else {
        advanced, out := StepTo(next.value.tick);
      }
      if advanced.Err? { return Err(InvariantViolation), out; }
      PlacedWeaker(tasks.entries, levels, next.value.tick);
      r := Ok(AdvanceReport(elapsedTicks, |out|, fastForwarded));
    }

    // ---- Timers ----

    /** Locate and link one loose key; all other entries stay where they are. */
    method PlaceAnew(key: Key, ghost before: map<Key, Entry<T>>, ghost absent: set<Key>, ghost stale: set<Key>)
      returns (r: Result<(), TimerError>)
      requires Layout(levels) && Core({key}, absent, stale) && key in tasks.entries
      requires currentTick <= tasks.entries[key].deadline <= U64_MAX
      requires KeepsOthers(before, tasks.entries, key)
      modifies this`slots, this`lists, tasks
      ensures r.Ok? && Core({}, absent, stale) && tasks.nextKey == old(tasks.nextKey)
      ensures KeepsOthers(before, tasks.entries, key) && key in tasks.entries
      ensures tasks.entries[key].item == old(tasks.entries)[key].item
      ensures tasks.entries[key].deadline == old(tasks.entries)[key].deadline
      ensures PlacedAt(tasks.entries[key], levels, currentTick, 1)
    {
      hide Partition, Ordered, Aligned, Layout, KeepsOthers, Placing, SlotOf, VisitTick;
      var deadline := tasks.entries[key].deadline;
      var l, s := DetermineLocation(deadline);
      VisitBound(levels, l, deadline);
      r := Link(key, l, s, {key}, absent, stale);
      OthersPlacing(before, old(tasks.entries), tasks.entries, key, l, s, {key});
      assert {key} - {key} == {};
    }

    /** `insert`. */
    method Insert(item: T, delay: nat) returns (r: Result<Key, TimerError>)
      requires Valid()
      modifies this`slots, this`lists, tasks, heap
      ensures Valid()
      ensures DeadlineAfter(Now(), delay).Err? ==>
        r == Err(DeadlineAfter(Now(), delay).error) && View() == old(View()) && tasks.nextKey == old(tasks.nextKey)
      ensures DeadlineAfter(Now(), delay).Ok? ==>
        && r == Ok(old(tasks.nextKey)) && tasks.nextKey == old(tasks.nextKey) + 1
        && old(tasks.nextKey) !in old(View())
        && View() == old(View())[old(tasks.nextKey) := Timer(item, DeadlineAfter(Now(), delay).value)]
    {
      ghost var before := tasks.entries;
      DeadlineBounds(Now(), delay);
      var deadline := DeadlineAfter(Clock(currentTick, remainderNanos, baseTickNanos), delay);
      if deadline.Err? { return Err(deadline.error); }
      var entry := Entry(item, deadline.value, 0, 0, None, None, 0);
      AddFacts(levels, slots, lists, tasks.entries, tasks.nextKey, heap.nodes, entry);
      hide ViewOf, Placed, Partition, Ordered, Layout, Shaped, DeadlineAfter, KeepsOthers, Reindexed, PlacedAt, Aligned;
      var key := tasks.Insert(entry);
      OthersAdded(before, key, entry);
      var written := PlaceAnew(key, before, {key}, {});
      if written.Err? { return Err(InvariantViolation); }
      ghost var linked, nodes := tasks.entries, heap.nodes;
      written := heap.Insert(key, deadline.value, tasks);
      if written.Err? { return Err(InvariantViolation); }
      Mended(before, linked, nodes, key, {key}, {});
      r := Ok(key);
    }

    /** The heap has caught up with the change to `key`: the wheel is valid again. */
    lemma Mended(before: map<Key, Entry<T>>, linked: map<Key, Entry<T>>, nodes: seq<Node>, key: Key, absent: set<Key>,
            stale: set<Key>)
      requires Layout(levels) && ClockOk(Now()) && Placed(before, levels, currentTick, 1)
      requires CoreAt(levels, slots, lists, linked, tasks.nextKey, nodes, {}, absent, stale)
      requires KeepsOthers(before, linked, key) && key in linked && PlacedAt(linked[key], levels, currentTick, 1)
      requires Reindexed(linked, tasks.entries) && Ordered(heap.nodes) && Aligned(heap.nodes, tasks.entries, {}, {})
      ensures Valid()
      ensures View() == ViewOf(before)[key := Timer(linked[key].item, linked[key].deadline)]
    {
      hide ViewOf, Placed, Ordered, Layout, KeepsOthers, Reindexed, Aligned, CoreAt;
      ReindexCore(levels, slots, lists, linked, tasks.entries, tasks.nextKey, nodes, heap.nodes, {}, absent, stale);
      OthersReindexed(before, linked, tasks.entries, key);
      PlacedKeeps(before, tasks.entries, key, levels, currentTick);
      KeepsView(before, tasks.entries, key);
    }

    /** `reschedule`. */
    method Reschedule(id: Key, delay: nat) returns (r: Result<(), TimerError>)
      requires Valid()
      modifies this`slots, this`lists, tasks, heap
      ensures Valid() && tasks.nextKey == old(tasks.nextKey)
      ensures id !in old(View()) ==> r == Err(StaleTimerId) && View() == old(View())
      ensures id in old(View()) && DeadlineAfter(Now(), delay).Err? ==>
        r == Err(DeadlineAfter(Now(), delay).error) && View() == old(View())
      ensures id in old(View()) && DeadlineAfter(Now(), delay).Ok? ==>
        r.Ok? && View() == old(View())[id := Timer(old(View())[id].item, DeadlineAfter(Now(), delay).value)]
    {
      hide Valid;
      assert id in View() <==> id in tasks.entries;
      if id !in tasks.entries { return Err(StaleTimerId); }
      ClockIsOk();
      DeadlineBounds(Now(), delay);
      var deadline := DeadlineAfter(Clock(currentTick, remainderNanos, baseTickNanos), delay);
      if deadline.Err? { return Err(deadline.error); }
      hide ViewOf, DeadlineAfter;
      r := Move(id, deadline.value);
    }

    lemma ClockIsOk()
      requires Valid()
      ensures ClockOk(Now())
    {
    }

    /** Give a live timer a new deadline: new list, then new heap position. */
    method Move(id: Key, deadline: nat) returns (r: Result<(), TimerError>)
      requires Valid() && id in tasks.entries && currentTick <= deadline <= U64_MAX
      modifies this`slots, this`lists, tasks, heap
      ensures r.Ok? && Valid() && tasks.nextKey == old(tasks.nextKey)
      ensures View() == old(View())[id := Timer(old(tasks.entries)[id].item, deadline)]
    {
      ghost var before := tasks.entries;
      hide ViewOf, Placed, Partition, Ordered, Layout, Shaped;
      hide KeysIssued, KeepsOthers, Reindexed, PlacedAt, Aligned, ClockOk;
      r := Relist(id, deadline);
      if r.Err? { return; }
      ghost var linked, nodes := tasks.entries, heap.nodes;
      r := heap.Update(id, tasks.entries[id].heapIndex, deadline, tasks);
      Mended(before, linked, nodes, id, {}, {id});
    }

    /** Move `id` to the list of its new deadline, leaving the heap as it is. */
    method Relist(id: Key, deadline: nat) returns (r: Result<(), TimerError>)
      requires Layout(levels) && Core({}, {}, {}) && id in tasks.entries && currentTick <= deadline <= U64_MAX
      modifies this`slots, this`lists, tasks
      ensures r.Ok? && Core({}, {}, {id}) && tasks.nextKey == old(tasks.nextKey)
      ensures KeepsOthers(old(tasks.entries), tasks.entries, id) && id in tasks.entries
      ensures tasks.entries[id].item == old(tasks.entries)[id].item && tasks.entries[id].deadline == deadline
      ensures PlacedAt(tasks.entries[id], levels, currentTick, 1)
    {
      hide CoreAt, Layout, KeepsOthers, PlacedAt;
      r := UnlinkFor(id, deadline);
      if r.Err? { return; }
      r := PlaceAnew(id, old(tasks.entries), {}, {id});
    }

    /** Unlink `id` and record its new deadline in the entry only. */
    method UnlinkFor(id: Key, deadline: nat) returns (r: Result<(), TimerError>)
      requires Core({}, {}, {}) && id in tasks.entries
      modifies this`slots, this`lists, tasks
      ensures r.Ok? && Core({id}, {}, {id}) && tasks.nextKey == old(tasks.nextKey)
      ensures KeepsOthers(old(tasks.entries), tasks.entries, id) && id in tasks.entries
      ensures tasks.entries[id].item == old(tasks.entries)[id].item && tasks.entries[id].deadline == deadline
    {
      hide CoreAt, KeepsOthers;
      r := Unlink(id);
      if r.Err? { return; }
      if id !in tasks.entries { return Err(StaleTimerId); }
      StaleFacts(levels, slots, lists, tasks.entries, tasks.nextKey, heap.nodes, id, deadline);
      OthersChanged(old(tasks.entries), tasks.entries, id, tasks.entries[id].(deadline := deadline));
      tasks.entries := tasks.entries[id := tasks.entries[id].(deadline := deadline)];
    }

    /** `cancel`. */
    method Cancel(id: Key) returns (r: Option<T>)
      requires Valid()
      modifies this`slots, this`lists, tasks, heap
      ensures Valid() && tasks.nextKey == old(tasks.nextKey)
      ensures r == if id in old(View()) then Some(old(View())[id].item) else None
      ensures View() == old(View()) - {id}
    {
      hide Valid;
      assert id in View() <==> id in tasks.entries;
      if id !in tasks.entries {
        assert View() == View() - {id};
        return None;
      }
      hide ViewOf;
      var expelled := Discard(id);
      if expelled.Err? { return None; }
      r := Some(expelled.value.item);
    }

    /** Take a live timer out of its list, the heap and the table. */
    method Discard(id: Key) returns (r: Result<Expired<T>, TimerError>)
      requires Valid() && id in tasks.entries
      modifies this`slots, this`lists, tasks, heap
      ensures Valid() && tasks.nextKey == old(tasks.nextKey)
      ensures View() == old(View()) - {id}
      ensures r.Ok? && r.value.item == old(tasks.entries)[id].item
    {
      ghost var before := tasks.entries;
      hide ViewOf, Placed, CoreAt, Layout, KeepsOthers, Expelled, PlacedAt;
      var done := Unlink(id);
      if done.Err? { return Err(InvariantViolation); }
      ghost var unlinked := tasks.entries;
      r := Expel(id, {id});
      assert {id} - {id} == {};
      OthersExpelled(before, unlinked, tasks.entries, id);
      PlacedKeeps(before, tasks.entries, id, levels, currentTick);
      KeepsView(before, tasks.entries, id);
    }

    /** `next_deadline`: the time to the earliest deadline, if any timer is live. */
    method NextDeadline() returns (r: Result<Option<nat>, TimerError>)
      requires Valid()
      ensures View() == map[] ==> r == Ok(None)
      ensures View() != map[] ==>
        exists k :: Earliest(View(), k)
            && r == (match WaitFor(Now(), View()[k].deadline) case Ok(w) => Ok(Some(w)) case Err(e) => Err(e))
    {
      hide Placed, Partition, Layout, Ordered, Aligned, WaitFor;
      if |heap.nodes| == 0 { EmptyHeap(tasks.entries, heap.nodes); } else { RootIsEarliest(tasks.entries, heap.nodes); }
      var top := heap.Peek();
      if top.None? {
        if tasks.entries != map[] { return Err(InvariantViolation); }
        return Ok(None);
      }
      var node := top.value;
      if node.key !in tasks.entries || tasks.entries[node.key].deadline != node.deadline {
        return Err(InvariantViolation);
      }
      assert node.key in View();
      var wait := WaitFor(Clock(currentTick, remainderNanos, baseTickNanos), node.deadline);
      r := if wait.Ok? then Ok(Some(wait.value)) else Err(wait.error);
    }

    /** `clear`: drop every timer and return the payloads, each live timer's once. */
    method Clear() returns (out: seq<T>, ghost order: seq<Key>)
      requires Valid()
      modifies this`slots, this`lists, tasks, heap
      ensures Valid() && View() == map[] && tasks.nextKey == old(tasks.nextKey)
      ensures |out| == |order| && Distinct(order) && KeySet(order) == old(View()).Keys
      ensures forall i :: 0 <= i < |order| ==> order[i] in old(View()) && out[i] == old(View())[order[i]].item
    {
      ClearedCore<T>(levels, slots, tasks.nextKey);
      hide CoreAt, Blank, BlankLists, Layout, Distinct, KeySet;
      lists := BlankLists(slots);
      slots := Blank(slots);
      heap.nodes := [];
      out, order := Drain();
    }

    /** `SlotMap::drain`: the keys come in the slot map's own order. */
    method Drain() returns (out: seq<T>, ghost order: seq<Key>)
      modifies tasks
      ensures tasks.entries == map[] && tasks.nextKey == old(tasks.nextKey)
      ensures |out| == |order| && Distinct(order) && KeySet(order) == old(tasks.entries).Keys
      ensures forall i :: 0 <= i < |order| ==>
        && order[i] in old(tasks.entries) && out[i] == old(tasks.entries)[order[i]].item
    {
      out, order := [], [];
      var keys := tasks.entries.Keys;
      while keys != {}
        invariant keys <= tasks.entries.Keys
        invariant tasks.entries == old(tasks.entries) && tasks.nextKey == old(tasks.nextKey)
        invariant |out| == |order| && Distinct(order) && KeySet(order) == tasks.entries.Keys - keys
        invariant forall i :: 0 <= i < |order| ==> order[i] in tasks.entries && out[i] == tasks.entries[order[i]].item
        decreases keys
      {
        var key :| key in keys;
        KeySetPush(order, key);
        out := out + [tasks.entries[key].item];
        order := order + [key];
        keys := keys - {key};
      }
      tasks.entries := map[];
    }
  }

  lemma StillLive<T>(a: map<Key, Entry<T>>, c: map<Key, Entry<T>>, key: Key, keys: set<Key>)
    requires KeepsChain(a, c, key, keys) && keys <= a.Keys
    ensures keys - {key} <= c.Keys
  {
  }
}
