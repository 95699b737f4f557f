/** The slot map that owns the wheel's entries. A key is handed out once and never again,
    which is what generation-tagged slot map keys guarantee. */
module SlotTable {
  import opened Wrappers

  type Key = nat

  datatype Entry<T> = Entry(
    item: T, deadline: nat, level: nat, slot: nat,
    prev: Option<Key>, next: Option<Key>, heapIndex: nat)

  datatype TimerError =
    | DelayOverflow
    | ElapsedOverflow
    | ClockOverflow
    | DeadlineOverflow
    | StaleTimerId
    | InvariantViolation

  class Table<T> {
    var entries: map<Key, Entry<T>>
    var nextKey: Key

    ghost predicate Valid()
      reads this
    {
      forall k :: k in entries ==> k < nextKey
    }

    constructor ()
      ensures Valid() && entries == map[] && nextKey == 0
    {
      entries := map[];
      nextKey := 0;
    }

    method Insert(entry: Entry<T>) returns (key: Key)
      requires Valid()
      modifies this
      ensures Valid()
      ensures key == old(nextKey) && nextKey == key + 1 && key !in old(entries)
      ensures entries == old(entries)[key := entry]
    {
      key := nextKey;
      nextKey := nextKey + 1;
      entries := entries[key := entry];
    }

    /** `SlotMap::remove`: takes the entry out if the key is live. */
    method Remove(key: Key) returns (r: Option<Entry<T>>)
      modifies this
      ensures nextKey == old(nextKey)
      ensures r == if key in old(entries) then Some(old(entries)[key]) else None
      ensures entries == old(entries) - {key}
    {
      if key in entries {
        r := Some(entries[key]);
        entries := entries - {key};
      } else {
        r := None;
        assert entries == entries - {key};
      }
    }

    /** The heap's write-back callback. */
    method SetHeapIndex(key: Key, index: nat) returns (r: Result<(), TimerError>)
      modifies this
      ensures nextKey == old(nextKey)
      ensures r == if key in old(entries) then Ok(()) else Err(InvariantViolation)
      ensures r.Ok? ==> entries == old(entries)[key := old(entries)[key].(heapIndex := index)]
      ensures r.Err? ==> entries == old(entries)
    {
      if key !in entries { return Err(InvariantViolation); }
      entries := entries[key := entries[key].(heapIndex := index)];
      r := Ok(());
    }
  }
}
