/** The indexed binary min-heap over deadlines. Every swap writes the new positions back
    into the entries, so that an entry always knows its own heap position. */
module DeadlineHeap {
  import opened Wrappers
  import opened SlotTable

  datatype Node = Node(key: Key, deadline: nat)

  /** Deadline first, key as tie breaker: a strict total order on nodes with distinct keys. */
  predicate Less(a: Node, b: Node)
  {
    a.deadline < b.deadline || (a.deadline == b.deadline && a.key < b.key)
  }

  function Parent(i: nat): nat
    requires i > 0
    ensures Parent(i) < i
  {
    (i - 1) / 2
  }

  ghost predicate Ordered(nodes: seq<Node>)
  {
    forall j :: 0 < j < |nodes| ==> !Less(nodes[j], nodes[Parent(j)])
  }

  /** Heap order everywhere except on the edges at position `i`, which may be bridged. */
  ghost predicate OrderedExcept(nodes: seq<Node>, i: nat)
  {
    && (forall j :: 0 < j < |nodes| && j != i && Parent(j) != i ==> !Less(nodes[j], nodes[Parent(j)]))
    && (0 < i < |nodes| ==>
          forall j :: 0 < j < |nodes| && Parent(j) == i ==> !Less(nodes[j], nodes[Parent(i)]))
  }

  ghost predicate AboveChildren(nodes: seq<Node>, i: nat)
  {
    i < |nodes| ==> forall j :: 0 < j < |nodes| && Parent(j) == i ==> !Less(nodes[j], nodes[i])
  }

  ghost predicate BelowParent(nodes: seq<Node>, i: nat)
  {
    0 < i < |nodes| ==> !Less(nodes[i], nodes[Parent(i)])
  }

  /** Each node mirrors a live entry that points back at it. */
  ghost predicate NodesMirror<T>(nodes: seq<Node>, entries: map<Key, Entry<T>>)
  {
    forall i :: 0 <= i < |nodes| ==>
      && nodes[i].key in entries
      && entries[nodes[i].key].heapIndex == i
  }

  /** Each live entry outside `except` points at its own node. */
  ghost predicate EntriesMirror<T>(nodes: seq<Node>, entries: map<Key, Entry<T>>, except: set<Key>)
  {
    forall k :: k in entries && k !in except ==>
      entries[k].heapIndex < |nodes| && nodes[entries[k].heapIndex].key == k
  }

  ghost predicate DeadlinesMirror<T>(nodes: seq<Node>, entries: map<Key, Entry<T>>, except: set<Key>)
  {
    forall i :: 0 <= i < |nodes| && nodes[i].key in entries && nodes[i].key !in except ==>
      nodes[i].deadline == entries[nodes[i].key].deadline
  }

  /** `heapIndex` is a bijection between the live entries outside `absent` and the nodes,
      and the deadlines agree except for the entries in `stale`. */
  ghost predicate Aligned<T>(nodes: seq<Node>, entries: map<Key, Entry<T>>, absent: set<Key>, stale: set<Key>)
  {
    && NodesMirror(nodes, entries)
    && EntriesMirror(nodes, entries, absent)
    && DeadlinesMirror(nodes, entries, stale)
    && forall i :: 0 <= i < |nodes| ==> nodes[i].key !in absent
  }

  /** The entries differ at most in their heap positions. */
  ghost predicate Reindexed<T>(a: map<Key, Entry<T>>, b: map<Key, Entry<T>>)
  {
    && a.Keys == b.Keys
    && forall k :: k in a ==> b[k] == a[k].(heapIndex := b[k].heapIndex)
  }

  /** The root of an ordered heap is a least node. */
  lemma {:induction false} RootIsLeast(nodes: seq<Node>, i: nat)
    requires Ordered(nodes) && i < |nodes|
    ensures !Less(nodes[i], nodes[0])
  {
    if i > 0 { RootIsLeast(nodes, Parent(i)); }
  }

  function Swap(nodes: seq<Node>, a: nat, b: nat): seq<Node>
    requires a < |nodes| && b < |nodes|
  {
    nodes[a := nodes[b]][b := nodes[a]]
  }

  class Heap<T> {
    var nodes: seq<Node>

    constructor ()
      ensures nodes == []
    {
      nodes := [];
    }

    method Peek() returns (r: Option<Node>)
      ensures r == if nodes == [] then None else Some(nodes[0])
    {
      r := if |nodes| == 0 then None else Some(nodes[0]);
    }

    /** `insert`: push at the end, write the index back, sift up. */
    method Insert(key: Key, deadline: nat, tasks: Table<T>) returns (r: Result<(), TimerError>)
      requires Ordered(nodes) && Aligned(nodes, tasks.entries, {key}, {})
      requires key in tasks.entries ==> tasks.entries[key].deadline == deadline
      modifies this, tasks
      ensures if key in old(tasks.entries) then r.Ok? else r == Err(InvariantViolation)
      ensures r.Ok? ==> Ordered(nodes) && Aligned(nodes, tasks.entries, {}, {})
      ensures r.Err? ==> nodes == old(nodes)
      ensures Reindexed(old(tasks.entries), tasks.entries) && tasks.nextKey == old(tasks.nextKey)
    {
      var index := |nodes|;
      nodes := nodes + [Node(key, deadline)];
      var written := tasks.SetHeapIndex(key, index);
      if written.Err? {
        nodes := nodes[..|nodes| - 1];
        return written;
      }
      r := SiftUp(index, tasks);
    }

    /** `update`: change the deadline in place and restore the order in one direction. */
    method Update(key: Key, index: nat, deadline: nat, tasks: Table<T>) returns (r: Result<(), TimerError>)
      requires Ordered(nodes) && Aligned(nodes, tasks.entries, {}, {key})
      requires key in tasks.entries && tasks.entries[key].heapIndex == index
      requires tasks.entries[key].deadline == deadline
      modifies this, tasks
      ensures r.Ok? && Ordered(nodes) && Aligned(nodes, tasks.entries, {}, {})
      ensures Reindexed(old(tasks.entries), tasks.entries) && tasks.nextKey == old(tasks.nextKey)
    {
      if index >= |nodes| { return Err(InvariantViolation); }
      if nodes[index].key != key { return Err(InvariantViolation); }
      ReplaceOrder(nodes, index, Node(key, deadline));
      nodes := nodes[index := nodes[index].(deadline := deadline)];
      if index != 0 && Less(nodes[index], nodes[Parent(index)]) {
        LighterAbove(nodes, index);
        r := SiftUp(index, tasks);
      } else {
        r := SiftDown(index, tasks);
      }
    }

    /** `remove`: the last node replaces the removed one. The entry itself stays in the
        table until its owner takes it out. */
    method Remove(key: Key, index: nat, tasks: Table<T>) returns (r: Result<(), TimerError>)
      requires Ordered(nodes) && Aligned(nodes, tasks.entries, {}, {})
      requires key in tasks.entries && tasks.entries[key].heapIndex == index
      modifies this, tasks
      ensures r.Ok? && Ordered(nodes) && Aligned(nodes, tasks.entries, {key}, {})
      ensures Reindexed(old(tasks.entries), tasks.entries) && tasks.nextKey == old(tasks.nextKey)
    {
      hide Ordered, OrderedExcept, AboveChildren, Parent, Less;
      if index >= |nodes| || nodes[index].key != key { return Err(InvariantViolation); }
      PrefixOrdered(nodes);
      var last := nodes[|nodes| - 1];
      PopAligned(nodes, tasks.entries, index);
      nodes := nodes[..|nodes| - 1];
      if index == |nodes| { return Ok(()); }
      ReplaceOrder(nodes, index, last);
      nodes := nodes[index := last];
      var written := tasks.SetHeapIndex(last.key, index);
      if written.Err? { return written; }
      if index != 0 && Less(nodes[index], nodes[Parent(index)]) {
        LighterAbove(nodes, index);
        r := SiftUp(index, tasks, {key});
      } else {
        r := SiftDown(index, tasks, {key});
      }
    }

    method SiftUp(start: nat, tasks: Table<T>, ghost absent: set<Key> := {}) returns (r: Result<(), TimerError>)
      requires start < |nodes|
      requires OrderedExcept(nodes, start) && AboveChildren(nodes, start)
      requires Aligned(nodes, tasks.entries, absent, {})
      modifies this, tasks
      ensures r.Ok? && Ordered(nodes) && Aligned(nodes, tasks.entries, absent, {})
      ensures Reindexed(old(tasks.entries), tasks.entries) && tasks.nextKey == old(tasks.nextKey)
    {
      var index: nat := start;
      while index != 0
        invariant index < |nodes|
        invariant OrderedExcept(nodes, index) && AboveChildren(nodes, index)
        invariant Aligned(nodes, tasks.entries, absent, {})
        invariant Reindexed(old(tasks.entries), tasks.entries) && tasks.nextKey == old(tasks.nextKey)
      {
        var parent := Parent(index);
        if !Less(nodes[index], nodes[parent]) { break; }
        SwapUpOrder(nodes, index);
        r := SwapNodes(index, parent, tasks, absent);
        if r.Err? { return; }
        index := parent;
      }
      Settled(nodes, index);
      r := Ok(());
    }

    method SiftDown(start: nat, tasks: Table<T>, ghost absent: set<Key> := {}) returns (r: Result<(), TimerError>)
      requires start < |nodes|
      requires OrderedExcept(nodes, start) && BelowParent(nodes, start)
      requires Aligned(nodes, tasks.entries, absent, {})
      modifies this, tasks
      ensures r.Ok? && Ordered(nodes) && Aligned(nodes, tasks.entries, absent, {})
      ensures Reindexed(old(tasks.entries), tasks.entries) && tasks.nextKey == old(tasks.nextKey)
    {
      hide Ordered, OrderedExcept, Aligned, AboveChildren, BelowParent, Parent, Less;
      var index: nat := start;
      while true
        invariant index < |nodes|
        invariant OrderedExcept(nodes, index) && BelowParent(nodes, index)
        invariant Aligned(nodes, tasks.entries, absent, {})
        invariant Reindexed(old(tasks.entries), tasks.entries) && tasks.nextKey == old(tasks.nextKey)
        decreases |nodes| - index
      {
        var left := index * 2 + 1;
        if left >= |nodes| {
          NoChildren(nodes, index);
          break;
        }
        var right := left + 1;
        var child: nat := if right < |nodes| && Less(nodes[right], nodes[left]) then right else left;
        ChildrenOf(nodes, index, child);
        if !Less(nodes[child], nodes[index]) {
          LeastChildSettles(nodes, index, child);
          break;
        }
        SwapDownOrder(nodes, index, child);
        r := SwapNodes(index, child, tasks, absent);
        if r.Err? { return; }
        index := child;
      }
      Settled(nodes, index);
      r := Ok(());
    }

    method SwapNodes(left: nat, right: nat, tasks: Table<T>, ghost absent: set<Key>) returns (r: Result<(), TimerError>)
      requires left < |nodes| && right < |nodes| && left != right
      requires Aligned(nodes, tasks.entries, absent, {})
      modifies this, tasks
      ensures r.Ok? && nodes == Swap(old(nodes), left, right)
      ensures Aligned(nodes, tasks.entries, absent, {})
      ensures Reindexed(old(tasks.entries), tasks.entries) && tasks.nextKey == old(tasks.nextKey)
    {
      nodes := Swap(nodes, left, right);
      r := tasks.SetHeapIndex(nodes[left].key, left);
      if r.Err? { return; }
      r := tasks.SetHeapIndex(nodes[right].key, right);
    }
  }

  /** Swap-remove keeps the mirror for everyone but the removed key. */
  lemma PopAligned<T>(nodes: seq<Node>, entries: map<Key, Entry<T>>, index: nat)
    requires Aligned(nodes, entries, {}, {}) && index < |nodes|
    ensures var rest, last := nodes[..|nodes| - 1], nodes[|nodes| - 1];
      if index == |rest| then Aligned(rest, entries, {nodes[index].key}, {})
      else
        && last.key in entries
        && Aligned(rest[index := last], entries[last.key := entries[last.key].(heapIndex := index)],
              {nodes[index].key}, {})
  {
    assert forall i, j :: 0 <= i < j < |nodes| ==> nodes[i].key != nodes[j].key;
  }

  // ---- Order lemmas ----

  /** Overwriting one position of an ordered heap (or of its prefix) breaks only that position. */
  lemma ReplaceOrder(nodes: seq<Node>, i: nat, x: Node)
    requires Ordered(nodes) && i < |nodes|
    ensures OrderedExcept(nodes[i := x], i)
    ensures 0 < i && Less(x, nodes[Parent(i)]) ==> AboveChildren(nodes[i := x], i)
  {
  }

  lemma PrefixOrdered(nodes: seq<Node>)
    requires Ordered(nodes) && |nodes| > 0
    ensures Ordered(nodes[..|nodes| - 1])
  {
  }

  lemma LighterAbove(nodes: seq<Node>, i: nat)
    requires 0 < i < |nodes| && OrderedExcept(nodes, i) && Less(nodes[i], nodes[Parent(i)])
    ensures AboveChildren(nodes, i)
  {
  }

  lemma SwapUpOrder(nodes: seq<Node>, i: nat)
    requires 0 < i < |nodes| && OrderedExcept(nodes, i) && AboveChildren(nodes, i)
    requires Less(nodes[i], nodes[Parent(i)])
    ensures OrderedExcept(Swap(nodes, i, Parent(i)), Parent(i))
    ensures AboveChildren(Swap(nodes, i, Parent(i)), Parent(i))
  {
  }

  lemma Settled(nodes: seq<Node>, i: nat)
    requires OrderedExcept(nodes, i) && AboveChildren(nodes, i) && BelowParent(nodes, i)
    ensures Ordered(nodes)
  {
    forall j | 0 < j < |nodes| ensures !Less(nodes[j], nodes[Parent(j)]) {
      if j != i && Parent(j) != i { }
    }
  }

  lemma NoChildren(nodes: seq<Node>, i: nat)
    requires 2 * i + 1 >= |nodes|
    ensures AboveChildren(nodes, i)
  {
  }

  lemma LeastChildSettles(nodes: seq<Node>, i: nat, child: nat)
    requires i < |nodes| && child < |nodes| && !Less(nodes[child], nodes[i])
    requires forall j :: 0 < j < |nodes| && Parent(j) == i ==> !Less(nodes[j], nodes[child])
    ensures AboveChildren(nodes, i)
  {
  }

  lemma ChildrenOf(nodes: seq<Node>, i: nat, child: nat)
    requires 2 * i + 1 < |nodes|
    requires child == if 2 * i + 2 < |nodes| && Less(nodes[2 * i + 2], nodes[2 * i + 1]) then 2 * i + 2 else 2 * i + 1
    ensures Parent(child) == i
    ensures forall j :: 0 < j < |nodes| && Parent(j) == i ==> !Less(nodes[j], nodes[child])
  {
    forall j | 0 < j < |nodes| && Parent(j) == i ensures !Less(nodes[j], nodes[child]) {
      assert j == 2 * i + 1 || j == 2 * i + 2;
    }
  }

  lemma SwapDownOrder(nodes: seq<Node>, i: nat, child: nat)
    requires child < |nodes| && 0 < child && Parent(child) == i
    requires OrderedExcept(nodes, i) && BelowParent(nodes, i)
    requires forall j :: 0 < j < |nodes| && Parent(j) == i ==> !Less(nodes[j], nodes[child])
    requires Less(nodes[child], nodes[i])
    ensures OrderedExcept(Swap(nodes, i, child), child)
    ensures BelowParent(Swap(nodes, i, child), child)
  {
  }
}
