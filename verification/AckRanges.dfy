/** Acknowledged packet ranges: validation, wire form, and the receiver's record of them. */
module AckRanges {
  import opened Wrappers
  import opened Bytes
  import opened Varint

  const MAX_ACK_RANGES: nat := 32

  /** Packet numbers `start` to `end`, both included. */
  datatype AckRange = AckRange(start: u64, end: u64)

  predicate Contains(r: AckRange, n: nat)
  {
    r.start <= n <= r.end
  }

  ghost predicate Covers(ranges: seq<AckRange>, n: nat)
  {
    exists i :: 0 <= i < |ranges| && Contains(ranges[i], n)
  }

  /** Well-formed ranges in descending order; consecutive ones are at least `gap` apart. */
  predicate Descending(ranges: seq<AckRange>, gap: nat)
  {
    && (forall i :: 0 <= i < |ranges| ==> ranges[i].start <= ranges[i].end)
    && (forall i :: 0 < i < |ranges| ==> ranges[i].end + gap <= ranges[i - 1].start)
  }

  /** Neither overlapping nor adjacent: at least one number is missing between neighbours. */
  predicate Canonical(ranges: seq<AckRange>)
  {
    Descending(ranges, 2)
  }

  function CheckDescending(ranges: seq<AckRange>): Result<seq<AckRange>, ProtocolError>
  {
    if |ranges| == 0 then Err(InvalidAckRanges)
    else if |ranges| > MAX_ACK_RANGES then Err(AckRangeCountExceeded)
    else if Canonical(ranges) then Ok(ranges)
    else Err(InvalidAckRanges)
  }

  /** `from_descending`. */
  method FromDescending(ranges: seq<AckRange>) returns (r: Result<seq<AckRange>, ProtocolError>)
    ensures r == CheckDescending(ranges)
  {
    if |ranges| == 0 || |ranges| > MAX_ACK_RANGES {
      return Err(if |ranges| == 0 then InvalidAckRanges else AckRangeCountExceeded);
    }
    for i := 0 to |ranges|
      invariant Canonical(ranges[..i])
    {
      var range := ranges[i];
      if range.start > range.end { return Err(InvalidAckRanges); }
      if i > 0 {
        var previous := ranges[i - 1];
        var overlaps := range.end >= previous.start;
        var adjacent := previous.start != 0 && SatAdd(range.end, 1) >= previous.start;
        if overlaps || adjacent { return Err(InvalidAckRanges); }
      }
      assert ranges[..i + 1] == ranges[..i] + [range];
    }
    assert ranges[..|ranges|] == ranges;
    r := Ok(ranges);
  }

  // ---- Sorting ----

  /** Descending by end, then by start: the order `sort_by` is asked for. */
  predicate Before(a: AckRange, b: AckRange)
  {
    a.end > b.end || (a.end == b.end && a.start >= b.start)
  }

  function InsertSorted(sorted: seq<AckRange>, x: AckRange): seq<AckRange>
  {
    if |sorted| == 0 then [x]
    else if Before(sorted[0], x) then [sorted[0]] + InsertSorted(sorted[1..], x)
    else [x] + sorted
  }

  function Sorted(ranges: seq<AckRange>): seq<AckRange>
  {
    if |ranges| == 0 then [] else InsertSorted(Sorted(ranges[..|ranges| - 1]), ranges[|ranges| - 1])
  }

  /** Every later range lies below every earlier one. */
  lemma {:induction false} DescendingFar(ranges: seq<AckRange>, gap: nat, i: nat, j: nat)
    requires Descending(ranges, gap) && i < j < |ranges|
    ensures ranges[j].end + gap <= ranges[i].start
    decreases j
  {
    if i + 1 < j { DescendingFar(ranges, gap, i, j - 1); }
  }

  lemma {:induction false} InsertLast(sorted: seq<AckRange>, x: AckRange)
    requires forall i :: 0 <= i < |sorted| ==> Before(sorted[i], x)
    ensures InsertSorted(sorted, x) == sorted + [x]
  {
    if |sorted| > 0 { InsertLast(sorted[1..], x); }
  }

  /** Ranges already descending and apart are sorted. */
  lemma {:induction false} SortedFixed(ranges: seq<AckRange>, gap: nat)
    requires Descending(ranges, gap) && gap >= 1
    ensures Sorted(ranges) == ranges
  {
    if |ranges| > 0 {
      var n := |ranges| - 1;
      SortedFixed(ranges[..n], gap);
      forall i | 0 <= i < n ensures Before(ranges[..n][i], ranges[n]) { DescendingFar(ranges, gap, i, n); }
      InsertLast(ranges[..n], ranges[n]);
    }
  }

  /** Sorting a number that is in none of the ranges into them keeps them disjoint. */
  lemma {:induction false} InsertDisjoint(ranges: seq<AckRange>, x: AckRange)
    requires Descending(ranges, 1) && x.start == x.end && !Covers(ranges, x.start)
    ensures Descending(InsertSorted(ranges, x), 1) && |InsertSorted(ranges, x)| == |ranges| + 1
    ensures |ranges| > 0 ==> InsertSorted(ranges, x)[0] in [ranges[0], x]
    ensures forall n: nat :: Covers(InsertSorted(ranges, x), n) <==> Covers(ranges, n) || n == x.start
  {
    if |ranges| == 0 {
      assert Contains([x][0], x.start);
    } else if Before(ranges[0], x) {
      var rest := ranges[1..];
      assert !Contains(ranges[0], x.start);
      forall n: nat
        ensures Covers(ranges, n) <==> Contains(ranges[0], n) || Covers(rest, n)
      {
        CoversCons(ranges[0], rest, ranges, n);
      }
      InsertDisjoint(rest, x);
      var inner := InsertSorted(rest, x);
      forall n: nat ensures Covers(InsertSorted(ranges, x), n) <==> Contains(ranges[0], n) || Covers(inner, n) {
        CoversCons(ranges[0], inner, InsertSorted(ranges, x), n);
      }
    } else {
      assert !Contains(ranges[0], x.start);
      forall n: nat ensures Covers(InsertSorted(ranges, x), n) <==> Contains(x, n) || Covers(ranges, n) {
        CoversCons(x, ranges, InsertSorted(ranges, x), n);
      }
    }
  }

  lemma CoversCons(x: AckRange, rest: seq<AckRange>, all: seq<AckRange>, n: nat)
    requires all == [x] + rest
    ensures Covers(all, n) <==> Contains(x, n) || Covers(rest, n)
  {
    if Contains(x, n) { assert Contains(all[0], n); }
    if Covers(rest, n) {
      var i :| 0 <= i < |rest| && Contains(rest[i], n);
      assert Contains(all[i + 1], n);
    }
    if Covers(all, n) {
      var i :| 0 <= i < |all| && Contains(all[i], n);
      assert i > 0 ==> Contains(rest[i - 1], n);
    }
  }

  lemma CoversSnoc(rest: seq<AckRange>, x: AckRange, n: nat)
    ensures Covers(rest + [x], n) <==> Covers(rest, n) || Contains(x, n)
  {
    if Contains(x, n) { assert Contains((rest + [x])[|rest|], n); }
    if Covers(rest, n) {
      var i :| 0 <= i < |rest| && Contains(rest[i], n);
      assert Contains((rest + [x])[i], n);
    }
    if Covers(rest + [x], n) {
      var i :| 0 <= i < |rest + [x]| && Contains((rest + [x])[i], n);
      assert i < |rest| ==> Contains(rest[i], n);
    }
  }

  // ---- The ACK frame ----

  /** What `AckRanges` can hold: its constructors admit nothing else. */
  type RangeSet = s: seq<AckRange> | Canonical(s) && 1 <= |s| <= MAX_ACK_RANGES witness [AckRange(0, 0)]

  datatype AckFrame = AckFrame(largest: u64, ackDelay: nat, ranges: RangeSet)

  const NANOS_PER_MICRO: nat := 1000

  /** `AckFrame::validate`. */
  predicate FrameOk(f: AckFrame)
  {
    f.ranges[0].end == f.largest && f.ackDelay / NANOS_PER_MICRO <= U64_MAX
  }

  /** The frame that acknowledges these ranges, if there are any and the delay can be encoded. */
  function AckOf(ranges: seq<AckRange>, largestReceivedAt: Option<nat>, now: nat, ackDelay: nat): seq<AckFrame>
  {
    var delay := if largestReceivedAt.Some? then Min(SatSub(now, largestReceivedAt.value), ackDelay) else 0;
    if 0 < |ranges| <= MAX_ACK_RANGES && Canonical(ranges) && delay / NANOS_PER_MICRO <= U64_MAX
    then [AckFrame(ranges[0].end, delay, ranges)] else []
  }

  /** Canonical ranges holding only received numbers, and every received one from `floor` on. */
  ghost predicate Remembers(ranges: seq<AckRange>, received: set<nat>, floor: nat)
  {
    && Canonical(ranges)
    && (forall n: nat :: Covers(ranges, n) ==> n in received)
    && (forall n: nat :: n in received && floor <= n ==> Covers(ranges, n))
    && (received != {} ==> |ranges| > 0)
    && (|ranges| > 0 ==> forall n :: n in received ==> n <= ranges[0].end)
  }

  lemma RemembersFacts(ranges: seq<AckRange>, received: set<nat>, floor: nat, n: nat)
    requires Remembers(ranges, received, floor)
    ensures Covers(ranges, n) ==> n in received
    ensures n in received && floor <= n ==> Covers(ranges, n)
    ensures |ranges| > 0 ==> ranges[0].end in received
  {
    if |ranges| > 0 { assert Contains(ranges[0], ranges[0].end); }
  }

  lemma RemembersRoom(ranges: seq<AckRange>, received: set<nat>, floor: nat)
    requires Remembers(ranges, received, floor)
    ensures Canonical(ranges)
  {
  }

  lemma RemembersAdd(was: seq<AckRange>, ranges: seq<AckRange>, received: set<nat>, floor: nat, added: nat)
    requires Remembers(was, received, floor) && Added(was, ranges, added)
    ensures Remembers(ranges, received + {added}, floor)
  {
  }

  /** `ranges` is canonical and covers one number more than `was`. */
  ghost predicate Added(was: seq<AckRange>, ranges: seq<AckRange>, added: nat)
  {
    && Canonical(ranges) && 0 < |ranges| <= |was| + 1
    && (forall n: nat :: Covers(ranges, n) <==> Covers(was, n) || n == added)
    && ranges[0].end == if |was| == 0 then added else Max(added, was[0].end)
  }

  /** Canonical ranges are determined by the numbers they cover. */
  lemma {:induction false} CanonicalUnique(a: seq<AckRange>, b: seq<AckRange>)
    requires Canonical(a) && Canonical(b) && forall n: nat :: Covers(a, n) <==> Covers(b, n)
    ensures a == b
  {
    if |a| > 0 && |b| > 0 {
      FirstSame(a, b);
      FirstSame(b, a);
      forall n: nat ensures Covers(a[1..], n) <==> Covers(b[1..], n) {
        CoversRest(a, n);
        CoversRest(b, n);
      }
      CanonicalUnique(a[1..], b[1..]);
      assert a == [a[0]] + a[1..] && b == [b[0]] + b[1..];
    } else {
      if |a| > 0 { FirstCovered(a); }
      if |b| > 0 { FirstCovered(b); }
    }
  }

  lemma CoversRest(ranges: seq<AckRange>, n: nat)
    requires Canonical(ranges) && |ranges| > 0
    ensures Covers(ranges[1..], n) <==> Covers(ranges, n) && n < ranges[0].start
  {
    CoversCons(ranges[0], ranges[1..], ranges, n);
    forall i | 0 < i < |ranges| ensures ranges[i].end + 2 <= ranges[0].start { DescendingFar(ranges, 2, 0, i); }
  }

  lemma FirstCovered(ranges: seq<AckRange>)
    requires Canonical(ranges) && |ranges| > 0
    ensures Covers(ranges, ranges[0].end)
  {
    assert Contains(ranges[0], ranges[0].end);
  }

  /** The first range of `a` reaches as far up and down as that of `b`. */
  lemma FirstSame(a: seq<AckRange>, b: seq<AckRange>)
    requires Canonical(a) && Canonical(b) && |a| > 0 && |b| > 0
    requires forall n: nat :: Covers(a, n) <==> Covers(b, n)
    ensures b[0].end <= a[0].end && (b[0].end == a[0].end ==> a[0].start <= b[0].start)
  {
    assert Contains(b[0], b[0].end);
    CoversRest(a, b[0].end);
    CoversCons(a[0], a[1..], a, b[0].end);
    if b[0].end == a[0].end && b[0].start < a[0].start {
      assert Contains(b[0], a[0].start - 1);
      assert Covers(b, a[0].start - 1);
      CoversRest(a, a[0].start - 1);
      CoversCons(a[0], a[1..], a, a[0].start - 1);
      forall i | 0 < i < |a| ensures a[i].end + 2 <= a[0].start { DescendingFar(a, 2, 0, i); }
    }
  }

  /** All ranges are kept, or all but the lowest if there is one too many; every number from the
      floor on is still known. */
  predicate Cropped(merged: seq<AckRange>, floor: nat, now: seq<AckRange>, floor': nat)
  {
    if |merged| <= MAX_ACK_RANGES then now == merged && floor' == floor
    else
      && |merged| == MAX_ACK_RANGES + 1 && now == merged[..MAX_ACK_RANGES]
      && floor' == Max(floor, merged[MAX_ACK_RANGES].end + 1)
  }

  /** What a new number leaves of the ranges it is merged into. */
  ghost predicate Keeps(was: seq<AckRange>, floor: nat, now: seq<AckRange>, floor': nat, added: nat)
  {
    exists merged: seq<AckRange> :: Added(was, merged, added) && Cropped(merged, floor, now, floor')
  }

  /** `ReceivedPackets`. */
  class ReceivedPackets {
    var ranges: seq<AckRange>
    var largestReceivedAt: Option<nat>
    /** Every number recorded so far. */
    ghost var received: set<nat>
    /** Numbers below this may have been forgotten. */
    ghost var floor: nat

    ghost predicate Valid()
      reads this
    {
      && Remembers(ranges, received, floor) && |ranges| <= MAX_ACK_RANGES
      && (|ranges| > 0 ==> largestReceivedAt.Some?)
    }

    constructor ()
      ensures Valid() && received == {} && floor == 0 && ranges == []
    {
      ranges := [];
      largestReceivedAt := None;
      received := {};
      floor := 0;
    }

    /** The membership search over the ranges. */
    method Holds(packetNumber: u64) returns (held: bool)
      ensures held == Covers(ranges, packetNumber)
    {
      for i := 0 to |ranges|
        invariant forall j :: 0 <= j < i ==> !Contains(ranges[j], packetNumber)
      {
        if Contains(ranges[i], packetNumber) { return true; }
      }
      held := false;
    }

    /** `record`: false if the number is held already. A number that was never recorded is
        always new, and from `floor` on a recorded one never is. */
    method Record(packetNumber: u64, now: nat) returns (accepted: bool)
      requires Valid()
      modifies this
      ensures Valid() && received == old(received) + {packetNumber}
      ensures accepted == !old(Covers(ranges, packetNumber))
      ensures packetNumber !in old(received) ==> accepted
      ensures packetNumber in old(received) && packetNumber >= old(floor) ==> !accepted
      ensures !accepted ==> ranges == old(ranges) && floor == old(floor) && largestReceivedAt == old(largestReceivedAt)
      ensures accepted ==> Keeps(old(ranges), old(floor), ranges, floor, packetNumber)
      ensures accepted && (forall n :: n in old(received) ==> n < packetNumber) ==> largestReceivedAt == Some(now)
    {
      ghost var was := ranges;
      RemembersFacts(was, received, floor, packetNumber);
      hide Remembers, Covers, Canonical;
      var held := Holds(packetNumber);
      if held {
        assert received == received + {packetNumber};
        return false;
      }
      RemembersRoom(was, received, floor);
      AddNumber(packetNumber);
      RemembersAdd(was, ranges, received, floor, packetNumber);
      received := received + {packetNumber};
      if ranges[0].end == packetNumber { largestReceivedAt := Some(now); }
      if |ranges| > MAX_ACK_RANGES { Truncate(); }
      accepted := true;
    }

    /** The lowest range is forgotten, and with it only numbers up to its end. */
    method Truncate()
      requires Remembers(ranges, received, floor) && |ranges| == MAX_ACK_RANGES + 1
      modifies this`ranges, this`floor
      ensures Remembers(ranges, received, floor) && |ranges| == MAX_ACK_RANGES
      ensures floor == Max(old(floor), old(ranges)[MAX_ACK_RANGES].end + 1) && ranges == old(ranges)[..MAX_ACK_RANGES]
    {
      TruncateKeeps(ranges);
      floor := Max(floor, ranges[MAX_ACK_RANGES].end + 1);
      ranges := ranges[..MAX_ACK_RANGES];
    }

    /** Push, sort and merge one new number. */
    method AddNumber(packetNumber: u64)
      requires Canonical(ranges) && |ranges| <= MAX_ACK_RANGES && !Covers(ranges, packetNumber)
      modifies this`ranges
      ensures Added(old(ranges), ranges, packetNumber)
    {
      var single := AckRange(packetNumber, packetNumber);
      ghost var before := ranges;
      ranges := ranges + [single];
      SortedFixed(before, 2);
      assert ranges[..|ranges| - 1] == before;
      InsertDisjoint(before, single);
      ranges := Sorted(ranges);
      FirstAfterInsert(before, single);
      MergeAdjacent();
    }

    /** `merge_adjacent`: neighbouring ranges without a gap between them become one. */
    method MergeAdjacent()
      requires Descending(ranges, 1)
      modifies this`ranges
      ensures Canonical(ranges) && |ranges| <= |old(ranges)|
      ensures forall n: nat :: Covers(ranges, n) <==> old(Covers(ranges, n))
      ensures |old(ranges)| > 0 ==> |ranges| > 0 && ranges[0].end == old(ranges)[0].end
    {
      var merged: seq<AckRange> := [];
      for i := 0 to |ranges|
        invariant ranges == old(ranges)
        invariant Merging(ranges, i, merged)
      {
        var range := ranges[i];
        MergeStep(ranges, i, merged);
        if |merged| > 0 && SatAdd(range.end, 1) >= merged[|merged| - 1].start {
          var previous := merged[|merged| - 1];
          merged := merged[|merged| - 1 := AckRange(Min(previous.start, range.start), Max(previous.end, range.end))];
        } else {
          merged := merged + [range];
        }
      }
      assert ranges[..|ranges|] == ranges;
      ranges := merged;
    }

    /** `frame`: an ACK of everything held. It fails validation exactly when the delay in
        microseconds does not fit 64 bits. */
    method Frame(now: nat, ackDelay: nat) returns (r: Result<Option<AckFrame>, ProtocolError>)
      requires Valid()
      ensures |ranges| == 0 ==> r == Ok(None)
      ensures |ranges| > 0 ==>
        var delay := Min(SatSub(now, largestReceivedAt.value), ackDelay);
        r == if delay / NANOS_PER_MICRO <= U64_MAX then Ok(Some(AckFrame(ranges[0].end, delay, ranges)))
            else Err(InvalidValue)
    {
      if |ranges| == 0 { return Ok(None); }
      var delay := if largestReceivedAt.Some? then Min(SatSub(now, largestReceivedAt.value), ackDelay) else 0;
      SortedFixed(ranges, 2);
      var checked := FromDescending(Sorted(ranges));
      if checked.Err? { return Err(InvalidAckRanges); }
      var frame := AckFrame(checked.value[0].end, delay, checked.value);
      if !FrameOk(frame) { return Err(InvalidValue); }
      r := Ok(Some(frame));
    }
  }

  // ---- A number that is forgotten ----

  /** The even numbers below `2 * count`, each by itself. */
  function Isolated(count: nat): (ranges: seq<AckRange>)
    requires count <= MAX_ACK_RANGES + 1
    ensures |ranges| == count
    ensures forall i :: 0 <= i < count ==> ranges[i] == AckRange(2 * (count - 1 - i), 2 * (count - 1 - i))
  {
    seq(count, i requires 0 <= i < count => AckRange(2 * (count - 1 - i), 2 * (count - 1 - i)))
  }

  lemma IsolatedCovers(count: nat, n: nat)
    requires count <= MAX_ACK_RANGES + 1
    ensures Canonical(Isolated(count)) && (Covers(Isolated(count), n) <==> n % 2 == 0 && n < 2 * count)
  {
    if n % 2 == 0 && n < 2 * count { assert Contains(Isolated(count)[count - 1 - n / 2], n); }
  }

  lemma NextIsolated(count: nat, floor: nat, now: seq<AckRange>, floor': nat)
    requires count <= MAX_ACK_RANGES && Keeps(Isolated(count), floor, now, floor', 2 * count)
    ensures now == if count < MAX_ACK_RANGES then Isolated(count + 1) else Isolated(count + 1)[..MAX_ACK_RANGES]
  {
    hide Covers;
    var merged: seq<AckRange> :| Added(Isolated(count), merged, 2 * count) && Cropped(merged, floor, now, floor');
    forall n: nat ensures Covers(merged, n) <==> Covers(Isolated(count + 1), n) {
      IsolatedCovers(count, n);
      IsolatedCovers(count + 1, n);
    }
    IsolatedCovers(count + 1, 0);
    CanonicalUnique(merged, Isolated(count + 1));
  }

  /** After 33 numbers, none next to another, the lowest is forgotten and taken as new again. */
  method Forgotten() returns (packets: ReceivedPackets, ghost held: set<nat>, again: bool)
    ensures packets.Valid() && held == set i | 0 <= i <= MAX_ACK_RANGES :: 2 * i
    ensures 0 in held && packets.received == held && again
  {
    hide Covers, Keeps, Isolated, Remembers;
    packets := new ReceivedPackets();
    assert packets.ranges == Isolated(0);
    for i := 0 to MAX_ACK_RANGES + 1
      invariant fresh(packets) && packets.Valid()
      invariant packets.ranges == if i <= MAX_ACK_RANGES then Isolated(i) else Isolated(i)[..MAX_ACK_RANGES]
      invariant packets.received == set k | 0 <= k < i :: 2 * k
    {
      ghost var floor := packets.floor;
      IsolatedCovers(i, 2 * i);
      var accepted := packets.Record(2 * i, 0);
      NextIsolated(i, floor, packets.ranges, packets.floor);
    }
    held := packets.received;
    LowestGone();
    assert 2 * 0 in held;
    again := packets.Record(0, 0);
    assert held + {0} == held;
  }

  lemma LowestGone()
    ensures !Covers(Isolated(MAX_ACK_RANGES + 1)[..MAX_ACK_RANGES], 0)
  {
  }

  /** Dropping the ranges past the limit forgets only numbers at or below the first dropped one. */
  lemma TruncateKeeps(ranges: seq<AckRange>)
    requires Canonical(ranges) && |ranges| == MAX_ACK_RANGES + 1
    ensures forall n: nat :: Covers(ranges[..MAX_ACK_RANGES], n) ==> Covers(ranges, n)
    ensures forall n: nat :: Covers(ranges, n) && n > ranges[MAX_ACK_RANGES].end ==> Covers(ranges[..MAX_ACK_RANGES], n)
  {
    var kept, last := ranges[..MAX_ACK_RANGES], ranges[MAX_ACK_RANGES];
    assert ranges == kept + [last];
    forall n: nat ensures Covers(ranges, n) <==> Covers(kept, n) || Contains(last, n) { CoversSnoc(kept, last, n); }
  }

  lemma FirstAfterInsert(ranges: seq<AckRange>, x: AckRange)
    requires Descending(ranges, 1) && x.start == x.end
    ensures |InsertSorted(ranges, x)| > 0
    ensures InsertSorted(ranges, x)[0].end == if |ranges| == 0 then x.end else Max(x.end, ranges[0].end)
  {
  }

  /** The first `i` ranges, merged. */
  ghost predicate Merging(ranges: seq<AckRange>, i: nat, merged: seq<AckRange>)
  {
    && i <= |ranges| && |merged| <= i && Canonical(merged)
    && (forall n: nat :: Covers(merged, n) <==> Covers(ranges[..i], n))
    && (i > 0 ==> |merged| > 0 && merged[|merged| - 1].start == ranges[i - 1].start && merged[0].end == ranges[0].end)
  }

  lemma MergeStep(ranges: seq<AckRange>, i: nat, merged: seq<AckRange>)
    requires Descending(ranges, 1) && i < |ranges| && Merging(ranges, i, merged)
    ensures var range := ranges[i];
      Merging(ranges, i + 1,
        if |merged| > 0 && SatAdd(range.end, 1) >= merged[|merged| - 1].start
        then merged[|merged| - 1 := AckRange(Min(merged[|merged| - 1].start, range.start),
            Max(merged[|merged| - 1].end, range.end))]
        else merged + [range])
  {
    hide Covers;
    var range := ranges[i];
    assert ranges[..i + 1] == ranges[..i] + [range];
    forall n: nat
      ensures Covers(ranges[..i + 1], n) <==> Covers(ranges[..i], n) || Contains(range, n)
    {
      CoversSnoc(ranges[..i], range, n);
    }
    if |merged| > 0 && SatAdd(range.end, 1) >= merged[|merged| - 1].start {
      assert range.end + 1 == merged[|merged| - 1].start;
      JoinLast(merged, range);
    } else {
      forall n: nat
        ensures Covers(merged + [range], n) <==> Covers(merged, n) || Contains(range, n)
      {
        CoversSnoc(merged, range, n);
      }
    }
  }

  /** Extending the last range down to the numbers right below it. */
  lemma JoinLast(merged: seq<AckRange>, range: AckRange)
    requires |merged| > 0 && Canonical(merged) && range.start <= range.end
    requires range.end + 1 == merged[|merged| - 1].start
    ensures var last := merged[|merged| - 1]; var joined := merged[|merged| - 1 := AckRange(range.start, last.end)];
      && last.start <= last.end && Canonical(joined)
      && forall n: nat :: Covers(joined, n) <==> Covers(merged, n) || Contains(range, n)
  {
    hide Covers;
    var m := |merged| - 1;
    var last := merged[m];
    var joined := AckRange(range.start, last.end);
    assert merged == merged[..m] + [last] && merged[m := joined] == merged[..m] + [joined];
    forall n: nat ensures Covers(merged[m := joined], n) <==> Covers(merged, n) || Contains(range, n) {
      CoversSnoc(merged[..m], last, n);
      CoversSnoc(merged[..m], joined, n);
    }
  }
}
