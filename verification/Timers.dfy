/** A connection's timers on the wheel: one slot for each kind that exists once, and any number
    of retransmission timers. */
module Timers {
  import opened Wrappers
  import opened Bytes
  import opened SlotTable
  import opened WheelConfig
  import opened TimerModel
  import opened TimeWheel
  import WheelCore

  datatype TimerEvent =
    | HandshakeTimeout
    | Retransmit(packetNumber: nat, generation: u32)
    | AckDelay
    | Keepalive
    | IdleTimeout
    | CloseTimeout

  type Live = map<Key, TimerEvent>

  function EventsOf(view: map<Key, Timer<TimerEvent>>): Live
  {
    map k | k in view :: view[k].item
  }

  function RetransmitsOf(live: Live): Live
  {
    map k | k in live && live[k].Retransmit? :: live[k]
  }

  /** A slot's id was issued, and if it is still live it stands for the slot's event. */
  predicate SlotOk(slot: Option<Key>, event: TimerEvent, live: Live, issued: nat)
  {
    slot.Some? ==> slot.value < issued && (slot.value in live ==> live[slot.value] == event)
  }

  datatype Slots = Slots(handshake: Option<Key>, ack: Option<Key>, keepalive: Option<Key>, idle: Option<Key>,
          close: Option<Key>)

  predicate SlotsOk(s: Slots, live: Live, issued: nat)
  {
    && SlotOk(s.handshake, HandshakeTimeout, live, issued) && SlotOk(s.ack, AckDelay, live, issued)
    && SlotOk(s.keepalive, Keepalive, live, issued) && SlotOk(s.idle, IdleTimeout, live, issued)
    && SlotOk(s.close, CloseTimeout, live, issued)
    && forall k :: k in live ==> k < issued
  }

  /** The slots once the timer of this event is no longer remembered. */
  function Cleared(s: Slots, event: TimerEvent): Slots
  {
    match event
    case HandshakeTimeout => s.(handshake := None)
    case AckDelay => s.(ack := None)
    case Keepalive => s.(keepalive := None)
    case IdleTimeout => s.(idle := None)
    case CloseTimeout => s.(close := None)
    case Retransmit(_, _) => s
  }

  /** The live timers without the one of this slot. */
  function Less(live: Live, slot: Option<Key>): Live
  {
    if slot.Some? then live - {slot.value} else live
  }

  lemma SlotsAdd(s: Slots, live: Live, issued: nat, event: TimerEvent)
    requires SlotsOk(s, live, issued)
    ensures SlotsOk(s, live[issued := event], issued + 1)
    ensures !event.Retransmit? ==> RetransmitsOf(live[issued := event]) == RetransmitsOf(live)
    ensures event.Retransmit? ==> RetransmitsOf(live[issued := event]) == RetransmitsOf(live)[issued := event]
  {
  }

  lemma SlotsLess(s: Slots, live: Live, issued: nat, gone: set<Key>)
    requires SlotsOk(s, live, issued)
    ensures SlotsOk(s, live - gone, issued)
    ensures RetransmitsOf(live - gone) == RetransmitsOf(live) - gone
  {
  }

  lemma SlotCancelled(live: Live, issued: nat, slot: Key, event: TimerEvent)
    requires SlotOk(Some(slot), event, live, issued) && !event.Retransmit?
    ensures RetransmitsOf(live - {slot}) == RetransmitsOf(live)
  {
  }

  /** `keys` are the timers taken out of `before`, once each, with `events` as their payloads. */
  ghost predicate TakenOut(before: Live, after: Live, keys: seq<Key>, events: seq<TimerEvent>)
  {
    && |keys| == |events|
    && (forall i :: 0 <= i < |keys| ==> keys[i] in before && before[keys[i]] == events[i])
    && (forall i, j :: 0 <= i < j < |keys| ==> keys[i] != keys[j])
    && after == before - (set i | 0 <= i < |keys| :: keys[i])
  }

  function KeysOf(out: seq<Expired<TimerEvent>>): seq<Key>
  {
    seq(|out|, i requires 0 <= i < |out| => out[i].id)
  }

  function ItemsOf(out: seq<Expired<TimerEvent>>): seq<TimerEvent>
  {
    seq(|out|, i requires 0 <= i < |out| => out[i].item)
  }

  lemma EmittedOut(before: map<Key, Timer<TimerEvent>>, after: map<Key, Timer<TimerEvent>>,
          out: seq<Expired<TimerEvent>>)
    requires Emits(before, after, out)
    ensures TakenOut(EventsOf(before), EventsOf(after), KeysOf(out), ItemsOf(out))
  {
    var keys := set i | 0 <= i < |out| :: KeysOf(out)[i];
    forall k ensures k in keys <==> k in Ids(out) {
      if k in Ids(out) {
        var i :| 0 <= i < |out| && out[i].id == k;
        assert KeysOf(out)[i] == k;
      }
    }
    assert EventsOf(after).Keys == EventsOf(before).Keys - keys;
    assert EventsOf(after) == EventsOf(before) - keys;
  }

  lemma Ticks(wheel: Wheel<TimerEvent>)
    requires wheel.Valid()
    ensures wheel.Now().base > 0
  {
  }

  lemma NoEvents(view: map<Key, Timer<TimerEvent>>)
    ensures EventsOf(view) == map[] <==> view == map[]
  {
    assert EventsOf(view).Keys == view.Keys;
  }

  /** The deadline of a delay from now is a number the clock can hold. */
  predicate CanSet(c: Clock, delay: nat)
  {
    c.base > 0 && DeadlineAfter(c, delay).Ok?
  }

  /** The timer `key` was set to bring `event` after `delay`. */
  ghost predicate Armed(was: map<Key, Timer<TimerEvent>>, view: map<Key, Timer<TimerEvent>>, c: Clock, key: Key,
          event: TimerEvent, delay: nat)
  {
    && CanSet(c, delay)
    && view == was[key := Timer(event, DeadlineAfter(c, delay).value)]
  }

  /** The timer `key` is live and brings `event` once `delay` has passed from now on. */
  ghost predicate Fires(view: map<Key, Timer<TimerEvent>>, c: Clock, key: Key, event: TimerEvent, delay: nat)
  {
    && CanSet(c, delay)
    && key in view && view[key] == Timer(event, DeadlineAfter(c, delay).value)
  }

  class TimerState {
    const wheel: Wheel<TimerEvent>
    var slots: Slots

    ghost function Live(): Live
      reads this, wheel, wheel.tasks
    {
      EventsOf(wheel.View())
    }

    /** The retransmission timers. */
    ghost function Retransmits(): Live
      reads this, wheel, wheel.tasks
    {
      RetransmitsOf(Live())
    }

    /** How many timer ids were handed out; ids are never used again. */
    ghost function Issued(): nat
      reads wheel.tasks
    {
      wheel.tasks.nextKey
    }

    ghost predicate Valid()
      reads this, wheel, wheel.tasks, wheel.heap
    {
      wheel.Valid() && SlotsOk(slots, Live(), wheel.tasks.nextKey)
    }

    constructor (config: Config)
      requires Layout(config.levels) && 0 < config.baseTickNanos <= U64_MAX
      ensures Valid() && Live() == map[] && fresh(wheel) && fresh(wheel.tasks) && fresh(wheel.heap)
      ensures slots == Slots(None, None, None, None, None) && wheel.Now() == Clock(0, 0, config.baseTickNanos)
    {
      wheel := new Wheel(config);
      slots := Slots(None, None, None, None, None);
    }

    /** `advance`: the events of the expired timers; their slots are not cleared here. */
    method Advance(elapsed: nat) returns (r: Result<seq<TimerEvent>, TimerError>, ghost keys: seq<Key>)
      requires Valid()
      modifies wheel, wheel.tasks, wheel.heap
      ensures Valid() && slots == old(slots)
      ensures r.Err? ==> Live() == old(Live())
      ensures r.Ok? ==> TakenOut(old(Live()), Live(), keys, r.value)
      ensures r.Ok? ==>
        && AdvanceClock(old(wheel.Now()), elapsed) == Ok(wheel.Now())
        && wheel.View() == Remaining(old(wheel.View()), wheel.Now().tick)
      ensures Issued() == old(Issued())
    {
      hide SlotsOk, Emits, WheelCore.DueBy, WheelCore.ViewOf, Remaining;
      hide SortedByDeadline, AdvanceClock, EventsOf, Wheel.Valid;
      ghost var before := wheel.View();
      var report, out := wheel.AdvanceBy(elapsed);
      keys := KeysOf(out);
      if report.Err? { return Err(report.error), keys; }
      EmittedOut(before, wheel.View(), out);
      SlotsLess(slots, EventsOf(before), wheel.tasks.nextKey, set i | 0 <= i < |keys| :: keys[i]);
      hide KeysOf, ItemsOf;
      var events := Events(out);
      r := Ok(events);
    }

    method NextDeadline() returns (r: Result<Option<nat>, TimerError>)
      requires Valid()
      ensures Live() == map[] ==> r == Ok(None)
      ensures Live() != map[] ==> exists k ::
        && WheelCore.Earliest(wheel.View(), k)
        && r == (match WaitFor(wheel.Now(), wheel.View()[k].deadline) case Ok(w) => Ok(Some(w)) case Err(e) => Err(e))
    {
      hide SlotsOk, WheelCore.ViewOf, Wheel.Valid, WheelCore.Earliest, WaitFor, EventsOf;
      NoEvents(wheel.View());
      r := wheel.NextDeadline();
    }

    method Schedule(event: TimerEvent, delay: nat) returns (r: Result<Key, TimerError>)
      requires Valid()
      modifies wheel, wheel.tasks, wheel.heap
      ensures Valid() && slots == old(slots)
      ensures r.Err? ==> Live() == old(Live())
      ensures r.Ok? ==>
        && r.value !in old(Live()) && Live() == old(Live())[r.value := event]
        && SlotOk(Some(r.value), event, Live(), wheel.tasks.nextKey)
        && Armed(old(wheel.View()), wheel.View(), wheel.Now(), r.value, event, delay)
      ensures wheel.Now() == old(wheel.Now()) && (r.Ok? <==> CanSet(wheel.Now(), delay))
      ensures r.Ok? ==> r.value == old(Issued()) && Issued() == old(Issued()) + 1
      ensures r.Err? ==> Issued() == old(Issued())
      ensures r.Ok? && event.Retransmit? ==> Retransmits() == old(Retransmits())[r.value := event]
      ensures !event.Retransmit? ==> Retransmits() == old(Retransmits())
    {
      hide SlotsOk, WheelCore.ViewOf, RetransmitsOf, Wheel.Valid;
      ghost var live := Live();
      SlotsAdd(slots, live, wheel.tasks.nextKey, event);
      assert wheel.Now().base > 0 by { Ticks(wheel); }
      r := wheel.Insert(event, delay);
      if r.Ok? {
        assert Live() == live[r.value := event];
        RetransmitsWithin(live);
      }
    }

    method Cancel(timer: Key)
      requires Valid()
      modifies wheel, wheel.tasks, wheel.heap
      ensures Valid() && slots == old(slots) && Live() == old(Live()) - {timer}
      ensures Retransmits() == old(Retransmits()) - {timer}
      ensures Issued() == old(Issued())
      ensures wheel.Now() == old(wheel.Now())
    {
      hide SlotsOk, WheelCore.ViewOf, RetransmitsOf, Wheel.Valid;
      ghost var live := Live();
      SlotsLess(slots, live, wheel.tasks.nextKey, {timer});
      var _ := wheel.Cancel(timer);
      assert Live() == live - {timer};
    }

    /** `cancel_slot`. */
    method CancelSlot(slot: Option<Key>, event: TimerEvent)
      requires Valid() && !event.Retransmit? && SlotOk(slot, event, Live(), wheel.tasks.nextKey)
      modifies wheel, wheel.tasks, wheel.heap
      ensures Valid() && slots == old(slots) && Retransmits() == old(Retransmits())
      ensures Live() == Less(old(Live()), slot)
      ensures Issued() == old(Issued())
      ensures wheel.Now() == old(wheel.Now())
    {
      hide SlotsOk, WheelCore.ViewOf, RetransmitsOf, Wheel.Valid, EventsOf, SlotOk;
      if slot.Some? {
        SlotCancelled(Live(), wheel.tasks.nextKey, slot.value, event);
        Cancel(slot.value);
      }
    }

    method ScheduleAck(delay: nat) returns (r: Result<(), TimerError>)
      requires Valid()
      modifies this, wheel, wheel.tasks, wheel.heap
      ensures Valid() && Retransmits() == old(Retransmits())
      ensures r.Ok? ==> slots.ack.Some?
      ensures Issued() >= old(Issued())
      ensures old(slots.ack).Some? ==> r.Ok? && slots == old(slots) && Live() == old(Live())
      ensures old(slots.ack).None? && r.Ok? ==>
        && slots == old(slots).(ack := Some(old(Issued()))) && Live() == old(Live())[old(Issued()) := AckDelay]
        && Fires(wheel.View(), wheel.Now(), old(Issued()), AckDelay, delay)
      ensures r.Err? ==> slots == old(slots) && Live() == old(Live())
      ensures wheel.Now() == old(wheel.Now())
      ensures r.Ok? <==> old(slots.ack).Some? || CanSet(wheel.Now(), delay)
    {
      hide Wheel.Valid, EventsOf, RetransmitsOf;
      if slots.ack.None? {
        var timer := Schedule(AckDelay, delay);
        if timer.Err? { return Err(timer.error); }
        slots := slots.(ack := Some(timer.value));
      }
      r := Ok(());
    }

    method ScheduleKeepalive(delay: nat) returns (r: Result<(), TimerError>)
      requires Valid()
      modifies this, wheel, wheel.tasks, wheel.heap
      ensures Valid() && Retransmits() == old(Retransmits())
      ensures Issued() >= old(Issued())
      ensures r.Ok? ==>
        && slots == old(slots).(keepalive := Some(old(Issued()))) && Live() == old(Live())[old(Issued()) := Keepalive]
        && Armed(old(wheel.View()), wheel.View(), wheel.Now(), old(Issued()), Keepalive, delay)
      ensures r.Err? ==> slots == old(slots) && Live() == old(Live())
      ensures wheel.Now() == old(wheel.Now()) && (r.Ok? <==> CanSet(wheel.Now(), delay))
    {
      hide Wheel.Valid, EventsOf, RetransmitsOf;
      var timer := Schedule(Keepalive, delay);
      if timer.Err? { return Err(timer.error); }
      slots := slots.(keepalive := Some(timer.value));
      r := Ok(());
    }

    method ScheduleIdle(delay: nat) returns (r: Result<(), TimerError>)
      requires Valid()
      modifies this, wheel, wheel.tasks, wheel.heap
      ensures Valid() && Retransmits() == old(Retransmits())
      ensures Issued() >= old(Issued())
      ensures var rest := Less(old(Live()), old(slots.idle));
        if r.Ok? then slots == old(slots).(idle := Some(old(Issued()))) && Live() == rest[old(Issued()) := IdleTimeout]
        else slots == old(slots).(idle := None) && Live() == rest
      ensures r.Ok? ==>
        && Fires(wheel.View(), wheel.Now(), old(Issued()), IdleTimeout, delay) && Issued() == old(Issued()) + 1
      ensures wheel.Now() == old(wheel.Now()) && (r.Ok? <==> CanSet(wheel.Now(), delay))
    {
      hide Wheel.Valid, EventsOf, RetransmitsOf;
      CancelSlot(slots.idle, IdleTimeout);
      slots := slots.(idle := None);
      var timer := Schedule(IdleTimeout, delay);
      if timer.Err? { return Err(timer.error); }
      slots := slots.(idle := Some(timer.value));
      r := Ok(());
    }

    method ScheduleClose(delay: nat) returns (r: Result<(), TimerError>)
      requires Valid()
      modifies this, wheel, wheel.tasks, wheel.heap
      ensures Valid() && Retransmits() == old(Retransmits())
      ensures Issued() >= old(Issued())
      ensures r.Ok? ==>
        && slots == old(slots).(close := Some(old(Issued()))) && Live() == old(Live())[old(Issued()) := CloseTimeout]
        && Fires(wheel.View(), wheel.Now(), old(Issued()), CloseTimeout, delay)
      ensures r.Err? ==> slots == old(slots) && Live() == old(Live())
      ensures wheel.Now() == old(wheel.Now()) && (r.Ok? <==> CanSet(wheel.Now(), delay))
    {
      hide Wheel.Valid, EventsOf, RetransmitsOf;
      var timer := Schedule(CloseTimeout, delay);
      if timer.Err? { return Err(timer.error); }
      slots := slots.(close := Some(timer.value));
      r := Ok(());
    }

    method ClearSlot(event: TimerEvent)
      requires Valid()
      modifies this`slots
      ensures Valid() && Live() == old(Live()) && slots == Cleared(old(slots), event)
      ensures Issued() == old(Issued())
    {
      hide Wheel.Valid, EventsOf;
      slots := match event
        case HandshakeTimeout => slots.(handshake := None)
        case AckDelay => slots.(ack := None)
        case Keepalive => slots.(keepalive := None)
        case IdleTimeout => slots.(idle := None)
        case CloseTimeout => slots.(close := None)
        case Retransmit(_, _) => slots;
    }

    method CancelAck()
      requires Valid()
      modifies this, wheel, wheel.tasks, wheel.heap
      ensures Valid() && Retransmits() == old(Retransmits()) && slots == old(slots).(ack := None)
      ensures Issued() == old(Issued())
      ensures Live() == Less(old(Live()), old(slots.ack))
      ensures wheel.Now() == old(wheel.Now())
    {
      hide Wheel.Valid, EventsOf, RetransmitsOf;
      CancelSlot(slots.ack, AckDelay);
      slots := slots.(ack := None);
    }

    method CancelAll()
      requires Valid()
      modifies this, wheel, wheel.tasks, wheel.heap
      ensures Valid() && Live() == map[]
      ensures Issued() == old(Issued())
      ensures slots == Slots(None, None, None, None, None)
      ensures wheel.Now() == old(wheel.Now())
    {
      hide Wheel.Valid;
      slots := Slots(None, None, None, None, None);
      var discarded, order := wheel.Clear();
    }
  }

  method Events(out: seq<Expired<TimerEvent>>) returns (events: seq<TimerEvent>)
    ensures events == ItemsOf(out)
  {
    events := [];
    for i := 0 to |out|
      invariant |events| == i && forall j :: 0 <= j < i ==> events[j] == out[j].item
    {
      events := events + [out[i].item];
    }
  }

  lemma RetransmitsWithin(live: Live)
    ensures RetransmitsOf(live).Keys <= live.Keys
  {
  }
}
