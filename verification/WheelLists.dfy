/** The slot lists of the wheel: doubly linked lists threaded through the entries, one per
    (level, slot). `lists` is the ghost reading of every list as a sequence of keys. */
module WheelLists {
  import opened Wrappers
  import opened SlotTable
  import opened DeadlineHeap

  datatype Slot = Slot(head: Option<Key>, tail: Option<Key>)

  const EMPTY_SLOT := Slot(None, None)

  predicate InGrid<X>(g: seq<seq<X>>, l: nat, s: nat)
  {
    l < |g| && s < |g[l]|
  }

  function At<X>(g: seq<seq<X>>, l: nat, s: nat): X
    requires InGrid(g, l, s)
  {
    g[l][s]
  }

  function Put<X>(g: seq<seq<X>>, l: nat, s: nat, x: X): (g': seq<seq<X>>)
    requires InGrid(g, l, s)
    ensures SameShape(g, g')
    ensures forall l2: nat, s2: nat :: InGrid(g, l2, s2) ==>
      At(g', l2, s2) == if l2 == l && s2 == s then x else At(g, l2, s2)
  {
    g[l := g[l][s := x]]
  }

  lemma PutSame<X>(g: seq<seq<X>>, l: nat, s: nat)
    requires InGrid(g, l, s)
    ensures Put(g, l, s, At(g, l, s)) == g
  {
    assert g[l][s := g[l][s]] == g[l];
  }

  lemma PutTwice<X>(g: seq<seq<X>>, l: nat, s: nat, x: X, y: X)
    requires InGrid(g, l, s)
    ensures Put(Put(g, l, s, x), l, s, y) == Put(g, l, s, y)
  {
    assert g[l][s := x][s := y] == g[l][s := y];
  }

  ghost predicate SameShape<X, Y>(g: seq<seq<X>>, h: seq<seq<Y>>)
  {
    |g| == |h| && forall l :: 0 <= l < |g| ==> |g[l]| == |h[l]|
  }

  ghost predicate Distinct(keys: seq<Key>)
  {
    forall i, j :: 0 <= i < j < |keys| ==> keys[i] != keys[j]
  }

  function Nth(keys: seq<Key>, i: int): Option<Key>
  {
    if 0 <= i < |keys| then Some(keys[i]) else None
  }

  /** One slot list: head, tail, and every link and location of its members agree with `keys`. */
  ghost predicate Chain<T>(entries: map<Key, Entry<T>>, keys: seq<Key>, l: nat, s: nat, slot: Slot)
  {
    && slot == Slot(Nth(keys, 0), Nth(keys, |keys| - 1))
    && Distinct(keys)
    && forall i :: 0 <= i < |keys| ==>
         && keys[i] in entries
         && entries[keys[i]].level == l
         && entries[keys[i]].slot == s
         && entries[keys[i]].prev == Nth(keys, i - 1)
         && entries[keys[i]].next == Nth(keys, i + 1)
  }

  ghost predicate AllChains<T>(entries: map<Key, Entry<T>>, slots: seq<seq<Slot>>, lists: seq<seq<seq<Key>>>)
  {
    && SameShape(slots, lists)
    && forall l: nat, s: nat :: InGrid(slots, l, s) ==> Chain(entries, At(lists, l, s), l, s, At(slots, l, s))
  }

  /** Every entry outside `loose` is in the list of its own location, and none of `loose` is listed. */
  ghost predicate Listed<T>(entries: map<Key, Entry<T>>, lists: seq<seq<seq<Key>>>, loose: set<Key>)
  {
    && (forall k :: k in entries && k !in loose ==>
          InGrid(lists, entries[k].level, entries[k].slot) && k in At(lists, entries[k].level, entries[k].slot))
    && (forall l: nat, s: nat, k :: InGrid(lists, l, s) && k in At(lists, l, s) ==> k !in loose)
  }

  /** The slot lists partition the entries outside `loose`. */
  ghost predicate Partition<T>(entries: map<Key, Entry<T>>, slots: seq<seq<Slot>>, lists: seq<seq<seq<Key>>>,
          loose: set<Key>)
  {
    AllChains(entries, slots, lists) && Listed(entries, lists, loose)
  }

  /** The entries agree in everything but links and locations. */
  ghost predicate Relinked<T>(a: map<Key, Entry<T>>, b: map<Key, Entry<T>>)
  {
    && a.Keys == b.Keys
    && forall k :: k in a ==>
          b[k] == a[k].(level := b[k].level, slot := b[k].slot, prev := b[k].prev, next := b[k].next)
  }

  /** `b` keeps the location of every key but `key`. */
  ghost predicate StaysPut<T>(a: map<Key, Entry<T>>, b: map<Key, Entry<T>>, key: Key)
  {
    forall k :: k in a && k in b && k != key ==> b[k].level == a[k].level && b[k].slot == a[k].slot
  }

  lemma ReindexKeepsChains<T>(a: map<Key, Entry<T>>, b: map<Key, Entry<T>>, slots: seq<seq<Slot>>,
          lists: seq<seq<seq<Key>>>, loose: set<Key>)
    requires Partition(a, slots, lists, loose) && Reindexed(a, b)
    ensures Partition(b, slots, lists, loose)
  {
    hide Put;
    forall l: nat, s: nat | InGrid(slots, l, s) ensures Chain(b, At(lists, l, s), l, s, At(slots, l, s)) {
      assert Chain(a, At(lists, l, s), l, s, At(slots, l, s));
    }
  }

  lemma RelinkKeepsHeap<T>(a: map<Key, Entry<T>>, b: map<Key, Entry<T>>, nodes: seq<Node>, absent: set<Key>,
          stale: set<Key>)
    requires Aligned(nodes, a, absent, stale) && Relinked(a, b)
    ensures Aligned(nodes, b, absent, stale)
  {
  }

  // ---- Append to a list ----

  function LinkedEntries<T>(entries: map<Key, Entry<T>>, key: Key, l: nat, s: nat,
          tail: Option<Key>): map<Key, Entry<T>>
    requires key in entries && (tail.Some? ==> tail.value in entries)
  {
    var fixed := if tail.Some? then entries[tail.value := entries[tail.value].(next := Some(key))] else entries;
    fixed[key := fixed[key].(level := l, slot := s, prev := tail, next := None)]
  }

  lemma AppendChain<T>(entries: map<Key, Entry<T>>, keys: seq<Key>, l: nat, s: nat, slot: Slot, key: Key)
    requires Chain(entries, keys, l, s, slot) && key in entries && key !in keys
    ensures slot.tail.Some? ==> slot.tail.value in entries
    ensures Chain(LinkedEntries(entries, key, l, s, slot.tail), keys + [key], l, s,
                  Slot(if slot.head.None? then Some(key) else slot.head, Some(key)))
  {
    var keys' := keys + [key];
    assert Distinct(keys');
    assert slot.tail.Some? ==> slot.tail.value == keys[|keys| - 1];
    var e' := LinkedEntries(entries, key, l, s, slot.tail);
    forall i | 0 <= i < |keys'|
      ensures keys'[i] in e' && e'[keys'[i]].level == l && e'[keys'[i]].slot == s
      ensures e'[keys'[i]].prev == Nth(keys', i - 1) && e'[keys'[i]].next == Nth(keys', i + 1)
    {
    }
  }

  /** A list none of whose members changed is still a list. */
  lemma ChainFrame<T>(a: map<Key, Entry<T>>, b: map<Key, Entry<T>>, keys: seq<Key>, l: nat, s: nat, slot: Slot)
    requires Chain(a, keys, l, s, slot)
    requires forall k :: k in keys ==> k in b && b[k] == a[k]
    ensures Chain(b, keys, l, s, slot)
  {
  }

  lemma AppendPartition<T>(entries: map<Key, Entry<T>>, slots: seq<seq<Slot>>, lists: seq<seq<seq<Key>>>,
          loose: set<Key>,
                           key: Key, l: nat, s: nat)
    requires Partition(entries, slots, lists, loose) && InGrid(slots, l, s)
    requires key in entries && key in loose
    ensures var tail := At(slots, l, s).tail; tail.Some? ==> tail.value in entries
    ensures var tail, head := At(slots, l, s).tail, At(slots, l, s).head;
      Partition(LinkedEntries(entries, key, l, s, tail),
                Put(slots, l, s, Slot(if head.None? then Some(key) else head, Some(key))),
                Put(lists, l, s, At(lists, l, s) + [key]), loose - {key})
  {
    var slot, keys := At(slots, l, s), At(lists, l, s);
    assert Chain(entries, keys, l, s, slot);
    assert slot.tail.Some? ==> slot.tail.value == keys[|keys| - 1];
    AppendChain(entries, keys, l, s, slot, key);
    var e' := LinkedEntries(entries, key, l, s, slot.tail);
    var slots' := Put(slots, l, s, Slot(if slot.head.None? then Some(key) else slot.head, Some(key)));
    var lists' := Put(lists, l, s, keys + [key]);
    forall l2: nat, s2: nat | InGrid(slots', l2, s2) ensures Chain(e', At(lists', l2, s2), l2, s2, At(slots', l2, s2)) {
      if l2 != l || s2 != s {
        assert Chain(entries, At(lists, l2, s2), l2, s2, At(slots, l2, s2));
        AppendOther(entries, At(lists, l2, s2), l2, s2, At(slots, l2, s2), key, l, s, slot.tail);
      }
    }
    AppendListed(entries, lists, loose, key, l, s, slot.tail);
  }

  lemma AppendOther<T>(entries: map<Key, Entry<T>>, keys: seq<Key>, l2: nat, s2: nat, slot: Slot,
                       key: Key, l: nat, s: nat, tail: Option<Key>)
    requires Chain(entries, keys, l2, s2, slot) && (l2 != l || s2 != s)
    requires key in entries && key !in keys
    requires tail.Some? ==> tail.value in entries && entries[tail.value].level == l && entries[tail.value].slot == s
    ensures Chain(LinkedEntries(entries, key, l, s, tail), keys, l2, s2, slot)
  {
    ChainFrame(entries, LinkedEntries(entries, key, l, s, tail), keys, l2, s2, slot);
  }

  lemma AppendListed<T>(entries: map<Key, Entry<T>>, lists: seq<seq<seq<Key>>>, loose: set<Key>,
                        key: Key, l: nat, s: nat, tail: Option<Key>)
    requires Listed(entries, lists, loose) && InGrid(lists, l, s) && key in entries && key in loose
    requires tail.Some? ==> tail.value in entries
    ensures Listed(LinkedEntries(entries, key, l, s, tail), Put(lists, l, s, At(lists, l, s) + [key]), loose - {key})
  {
    var e' := LinkedEntries(entries, key, l, s, tail);
    var lists' := Put(lists, l, s, At(lists, l, s) + [key]);
    forall k | k in e' && k !in loose - {key}
      ensures InGrid(lists', e'[k].level, e'[k].slot) && k in At(lists', e'[k].level, e'[k].slot)
    {
      if k != key { assert k in At(lists, entries[k].level, entries[k].slot); }
    }
  }

  // ---- Remove from a list ----

  function UnlinkedEntries<T>(entries: map<Key, Entry<T>>, key: Key): map<Key, Entry<T>>
    requires key in entries
    requires entries[key].prev.Some? ==> entries[key].prev.value in entries
    requires entries[key].next.Some? ==> entries[key].next.value in entries
  {
    var prev, next := entries[key].prev, entries[key].next;
    var e1 := if prev.Some? then entries[prev.value := entries[prev.value].(next := next)] else entries;
    var e2 := if next.Some? then e1[next.value := e1[next.value].(prev := prev)] else e1;
    e2[key := e2[key].(prev := None, next := None)]
  }

  function UnlinkedSlot<T>(slot: Slot, e: Entry<T>): Slot
  {
    Slot(if e.prev.None? then e.next else slot.head, if e.next.None? then e.prev else slot.tail)
  }

  function Without(keys: seq<Key>, p: nat): seq<Key>
    requires p < |keys|
  {
    keys[..p] + keys[p + 1..]
  }

  lemma RemoveChain<T>(entries: map<Key, Entry<T>>, keys: seq<Key>, l: nat, s: nat, slot: Slot, p: nat)
    requires Chain(entries, keys, l, s, slot) && p < |keys|
    ensures entries[keys[p]].prev.Some? ==> entries[keys[p]].prev.value in entries
    ensures entries[keys[p]].next.Some? ==> entries[keys[p]].next.value in entries
    ensures Chain(UnlinkedEntries(entries, keys[p]), Without(keys, p), l, s, UnlinkedSlot(slot, entries[keys[p]]))
  {
    assert entries[keys[p]].prev == Nth(keys, p - 1) && entries[keys[p]].next == Nth(keys, p + 1);
    WithoutEnds(keys, p);
    RemoveNodes(entries, keys, l, s, slot, p);
    hide UnlinkedEntries, Without, Distinct;
  }

  lemma RemoveNodes<T>(entries: map<Key, Entry<T>>, keys: seq<Key>, l: nat, s: nat, slot: Slot, p: nat)
    requires Chain(entries, keys, l, s, slot) && p < |keys|
    requires entries[keys[p]].prev == Nth(keys, p - 1) && entries[keys[p]].next == Nth(keys, p + 1)
    ensures var e', keys' := UnlinkedEntries(entries, keys[p]), Without(keys, p);
      forall i :: 0 <= i < |keys'| ==>
        && keys'[i] in e' && e'[keys'[i]].level == l && e'[keys'[i]].slot == s
        && e'[keys'[i]].prev == Nth(keys', i - 1) && e'[keys'[i]].next == Nth(keys', i + 1)
  {
    hide UnlinkedEntries, Distinct;
    forall i | 0 <= i < |Without(keys, p)|
      ensures var e', keys' := UnlinkedEntries(entries, keys[p]), Without(keys, p);
        && keys'[i] in e' && e'[keys'[i]].level == l && e'[keys'[i]].slot == s
        && e'[keys'[i]].prev == Nth(keys', i - 1) && e'[keys'[i]].next == Nth(keys', i + 1)
    {
      RemoveNode(entries, keys, l, s, slot, p, i);
    }
  }

  lemma WithoutEnds(keys: seq<Key>, p: nat)
    requires p < |keys| && Distinct(keys)
    ensures var keys' := Without(keys, p);
      && |keys'| == |keys| - 1
      && Distinct(keys')
      && Nth(keys', 0) == (if p == 0 then Nth(keys, 1) else Nth(keys, 0))
      && Nth(keys', |keys'| - 1) == (if p + 1 == |keys| then Nth(keys, p - 1) else Nth(keys, |keys| - 1))
  {
  }

  /** The links of the members that remain after member `p` left skip over the gap. */
  lemma RemoveNode<T>(entries: map<Key, Entry<T>>, keys: seq<Key>, l: nat, s: nat, slot: Slot, p: nat, i: nat)
    requires Chain(entries, keys, l, s, slot) && p < |keys| && i + 1 < |keys|
    requires entries[keys[p]].prev == Nth(keys, p - 1) && entries[keys[p]].next == Nth(keys, p + 1)
    ensures |Without(keys, p)| == |keys| - 1
    ensures var e', keys' := UnlinkedEntries(entries, keys[p]), Without(keys, p);
      && keys'[i] in e' && e'[keys'[i]].level == l && e'[keys'[i]].slot == s
      && e'[keys'[i]].prev == Nth(keys', i - 1) && e'[keys'[i]].next == Nth(keys', i + 1)
  {
    var j := if i < p then i else i + 1;
    assert Without(keys, p)[i] == keys[j];
    assert keys[j] != keys[p];
    if p > 0 && j != p - 1 { assert keys[j] != keys[p - 1]; }
    if p + 1 < |keys| && j != p + 1 { assert keys[j] != keys[p + 1]; }
    UnlinkedAt(entries, keys[p], keys[j]);
  }

  lemma UnlinkedAt<T>(entries: map<Key, Entry<T>>, key: Key, k: Key)
    requires key in entries && k in entries && k != key
    requires entries[key].prev.Some? ==> entries[key].prev.value in entries
    requires entries[key].next.Some? ==> entries[key].next.value in entries
    ensures UnlinkedEntries(entries, key)[k] ==
      entries[k].(prev := if entries[key].next == Some(k) then entries[key].prev else entries[k].prev,
                  next := if entries[key].prev == Some(k) then entries[key].next else entries[k].next)
  {
  }

  lemma RemovePartition<T>(entries: map<Key, Entry<T>>, slots: seq<seq<Slot>>, lists: seq<seq<seq<Key>>>,
          loose: set<Key>, key: Key)
    returns (lists': seq<seq<seq<Key>>>)
    requires Partition(entries, slots, lists, loose) && key in entries && key !in loose
    ensures var e := entries[key];
      && InGrid(slots, e.level, e.slot)
      && (e.prev.Some? ==> e.prev.value in entries)
      && (e.next.Some? ==> e.next.value in entries)
      && Partition(UnlinkedEntries(entries, key), Put(slots, e.level, e.slot,
            UnlinkedSlot(At(slots, e.level, e.slot), e)),
                   lists', loose + {key})
  {
    var l, s := entries[key].level, entries[key].slot;
    var keys, slot := At(lists, l, s), At(slots, l, s);
    assert Chain(entries, keys, l, s, slot);
    var p: nat :| p < |keys| && keys[p] == key;
    RemoveChain(entries, keys, l, s, slot, p);
    lists' := Put(lists, l, s, Without(keys, p));
    var slots' := Put(slots, l, s, UnlinkedSlot(slot, entries[key]));
    var e' := UnlinkedEntries(entries, key);
    forall l2: nat, s2: nat | InGrid(slots', l2, s2) ensures Chain(e', At(lists', l2, s2), l2, s2, At(slots', l2, s2)) {
      if l2 != l || s2 != s {
        assert Chain(entries, At(lists, l2, s2), l2, s2, At(slots, l2, s2));
        RemoveOther(entries, keys, l, s, slot, p, At(lists, l2, s2), l2, s2, At(slots, l2, s2));
      }
    }
    RemoveListed(entries, slots, lists, loose, l, s, p);
  }

  lemma RemoveOther<T>(entries: map<Key, Entry<T>>, keys: seq<Key>, l: nat, s: nat, slot: Slot, p: nat,
                       keys2: seq<Key>, l2: nat, s2: nat, slot2: Slot)
    requires Chain(entries, keys, l, s, slot) && p < |keys|
    requires entries[keys[p]].prev.Some? ==> entries[keys[p]].prev.value in entries
    requires entries[keys[p]].next.Some? ==> entries[keys[p]].next.value in entries
    requires Chain(entries, keys2, l2, s2, slot2) && (l2 != l || s2 != s)
    ensures Chain(UnlinkedEntries(entries, keys[p]), keys2, l2, s2, slot2)
  {
    assert p > 0 ==> entries[keys[p]].prev == Some(keys[p - 1]);
    assert p + 1 < |keys| ==> entries[keys[p]].next == Some(keys[p + 1]);
    ChainFrame(entries, UnlinkedEntries(entries, keys[p]), keys2, l2, s2, slot2);
  }

  lemma RemoveListed<T>(entries: map<Key, Entry<T>>, slots: seq<seq<Slot>>, lists: seq<seq<seq<Key>>>,
          loose: set<Key>, l: nat, s: nat, p: nat)
    requires Partition(entries, slots, lists, loose) && InGrid(lists, l, s) && p < |At(lists, l, s)|
    requires At(lists, l, s)[p] in entries
    requires var e := entries[At(lists, l, s)[p]];
      e.level == l && e.slot == s && (e.prev.Some? ==> e.prev.value in entries)
          && (e.next.Some? ==> e.next.value in entries)
    ensures Listed(UnlinkedEntries(entries, At(lists, l, s)[p]), Put(lists, l, s, Without(At(lists, l, s), p)),
                   loose + {At(lists, l, s)[p]})
  {
    var keys := At(lists, l, s);
    var key := keys[p];
    var lists' := Put(lists, l, s, Without(keys, p));
    var e' := UnlinkedEntries(entries, key);
    assert Chain(entries, keys, l, s, At(slots, l, s));
    assert e'.Keys == entries.Keys;
    hide UnlinkedEntries;
    forall k | k in e' && k !in loose + {key}
      ensures InGrid(lists', e'[k].level, e'[k].slot) && k in At(lists', e'[k].level, e'[k].slot)
    {
      assert k in At(lists, entries[k].level, entries[k].slot);
      UnlinkedAt(entries, key, k);
      StillIn(keys, p, k);
    }
    forall l2: nat, s2: nat, k | InGrid(lists', l2, s2) && k in At(lists', l2, s2) ensures k !in loose + {key} {
      RemovedElsewhere(entries, slots, lists, loose, l, s, p, l2, s2, k);
    }
  }

  lemma RemovedElsewhere<T>(entries: map<Key, Entry<T>>, slots: seq<seq<Slot>>, lists: seq<seq<seq<Key>>>,
          loose: set<Key>,
                            l: nat, s: nat, p: nat, l2: nat, s2: nat, k: Key)
    requires Partition(entries, slots, lists, loose) && InGrid(lists, l, s) && p < |At(lists, l, s)|
    requires InGrid(lists, l2, s2) && k in At(Put(lists, l, s, Without(At(lists, l, s), p)), l2, s2)
    ensures k !in loose && k != At(lists, l, s)[p]
  {
    assert Chain(entries, At(lists, l, s), l, s, At(slots, l, s));
    assert Chain(entries, At(lists, l2, s2), l2, s2, At(slots, l2, s2));
    StillIn(At(lists, l, s), p, k);
    assert k in At(lists, l2, s2);
  }

  lemma StillIn(keys: seq<Key>, p: nat, k: Key)
    requires p < |keys| && Distinct(keys)
    ensures k in Without(keys, p) <==> k in keys && k != keys[p]
  {
    if k in keys && k != keys[p] {
      var i :| 0 <= i < |keys| && keys[i] == k;
      assert Without(keys, p)[if i < p then i else i - 1] == k;
    }
  }

  // ---- Take a whole list out ----

  /** Emptying slot (l, s) makes exactly its members loose. */
  lemma TakePartition<T>(entries: map<Key, Entry<T>>, slots: seq<seq<Slot>>, lists: seq<seq<seq<Key>>>, l: nat, s: nat)
    requires Partition(entries, slots, lists, {}) && InGrid(slots, l, s)
    ensures Partition(entries, Put(slots, l, s, EMPTY_SLOT), Put(lists, l, s, []), KeySet(At(lists, l, s)))
  {
    var keys := At(lists, l, s);
    var slots', lists' := Put(slots, l, s, EMPTY_SLOT), Put(lists, l, s, []);
    forall l2: nat, s2: nat | InGrid(slots', l2, s2)
      ensures Chain(entries, At(lists', l2, s2), l2, s2, At(slots', l2, s2))
    {
      assert Chain(entries, At(lists, l2, s2), l2, s2, At(slots, l2, s2));
    }
    assert Chain(entries, keys, l, s, At(slots, l, s));
    forall l2: nat, s2: nat, k | InGrid(lists', l2, s2) && k in At(lists', l2, s2) ensures k !in KeySet(keys) {
      assert Chain(entries, At(lists, l2, s2), l2, s2, At(slots, l2, s2));
    }
  }

  ghost function KeySet(keys: seq<Key>): set<Key>
  {
    set i | 0 <= i < |keys| :: keys[i]
  }

  lemma KeySetPush(keys: seq<Key>, k: Key)
    requires Distinct(keys) && k !in KeySet(keys)
    ensures KeySet(keys + [k]) == KeySet(keys) + {k} && Distinct(keys + [k])
  {
    assert (keys + [k])[|keys|] == k;
    forall x | x in KeySet(keys) ensures x in KeySet(keys + [k]) {
      var i :| 0 <= i < |keys| && keys[i] == x;
      assert (keys + [k])[i] == x;
    }
  }

  function Blank(slots: seq<seq<Slot>>): seq<seq<Slot>>
  {
    seq(|slots|, l requires 0 <= l < |slots| => seq(|slots[l]|, _ => EMPTY_SLOT))
  }

  ghost function BlankLists(slots: seq<seq<Slot>>): seq<seq<seq<Key>>>
  {
    seq(|slots|, l requires 0 <= l < |slots| => seq(|slots[l]|, _ => []))
  }

  /** With every slot cleared, every entry is loose. */
  lemma BlankPartition<T>(entries: map<Key, Entry<T>>, slots: seq<seq<Slot>>)
    ensures Partition(entries, Blank(slots), BlankLists(slots), entries.Keys)
    ensures SameShape(slots, Blank(slots))
  {
    var slots', lists' := Blank(slots), BlankLists(slots);
    forall l: nat, s: nat | InGrid(slots', l, s) ensures Chain(entries, At(lists', l, s), l, s, At(slots', l, s)) {
      assert At(slots', l, s) == EMPTY_SLOT && At(lists', l, s) == [];
    }
  }

  // ---- Insert into and remove from the table ----

  lemma AddLoose<T>(entries: map<Key, Entry<T>>, slots: seq<seq<Slot>>, lists: seq<seq<seq<Key>>>, key: Key,
          e: Entry<T>)
    requires Partition(entries, slots, lists, {}) && key !in entries
    ensures Partition(entries[key := e], slots, lists, {key})
  {
    var e' := entries[key := e];
    forall l: nat, s: nat | InGrid(slots, l, s)
      ensures Chain(e', At(lists, l, s), l, s, At(slots, l, s)) && key !in At(lists, l, s)
    {
      assert Chain(entries, At(lists, l, s), l, s, At(slots, l, s));
      ChainFrame(entries, e', At(lists, l, s), l, s, At(slots, l, s));
    }
  }

  lemma DropLoose<T>(entries: map<Key, Entry<T>>, slots: seq<seq<Slot>>, lists: seq<seq<seq<Key>>>, loose: set<Key>,
          key: Key)
    requires Partition(entries, slots, lists, loose) && key in loose
    ensures Partition(entries - {key}, slots, lists, loose - {key})
  {
    var e' := entries - {key};
    forall l: nat, s: nat | InGrid(slots, l, s)
      ensures Chain(e', At(lists, l, s), l, s, At(slots, l, s)) && key !in At(lists, l, s)
    {
      assert Chain(entries, At(lists, l, s), l, s, At(slots, l, s));
      ChainFrame(entries, e', At(lists, l, s), l, s, At(slots, l, s));
    }
  }

  /** Changing a loose entry's links or payload leaves the lists alone. */
  lemma TouchLoose<T>(a: map<Key, Entry<T>>, b: map<Key, Entry<T>>, slots: seq<seq<Slot>>, lists: seq<seq<seq<Key>>>,
          loose: set<Key>)
    requires Partition(a, slots, lists, loose) && a.Keys == b.Keys
    requires forall k :: k in a && k !in loose ==> b[k] == a[k]
    ensures Partition(b, slots, lists, loose)
  {
    forall l: nat, s: nat | InGrid(slots, l, s) ensures Chain(b, At(lists, l, s), l, s, At(slots, l, s)) {
      assert Chain(a, At(lists, l, s), l, s, At(slots, l, s));
      ChainFrame(a, b, At(lists, l, s), l, s, At(slots, l, s));
    }
  }
}
