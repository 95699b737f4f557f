/** The receiving half of a stream: out-of-order segments, contiguous delivery and reads. */
module ReceiveStream {
  import opened Wrappers
  import opened Bytes
  import opened Segments

  datatype StreamError =
    | InvalidOffset
    | FlowControlViolation
    | SendBufferFull
    | WriteAfterFin

  /** Why a frame covering [offset, end) is refused, if it is. */
  function Refusal(maxOffset: nat, finalOffset: Option<nat>, end: nat, fin: bool): Option<StreamError>
  {
    if end > U64_MAX then Some(InvalidOffset)
    else if end > maxOffset then Some(FlowControlViolation)
    else if finalOffset.Some? && (if fin then end != finalOffset.value else end > finalOffset.value)
        then Some(InvalidOffset)
    else None
  }

  /** The byte held at `p`: delivered in order, or waiting in a segment. */
  ghost function Held(passed: seq<byte>, segs: seq<Segment>, p: nat): Option<byte>
  {
    if p < |passed| then Some(passed[p]) else ByteAt(segs, p)
  }

  class ReceiveStream {
    const streamId: nat
    var nextOffset: nat
    var finalOffset: Option<nat>
    var maxOffset: nat
    var segments: seq<Segment>
    var ready: seq<byte>
    /** Every byte delivered so far, read or not. */
    ghost var passed: seq<byte>

    /** Segments are non-empty, disjoint and strictly above `nextOffset`, within the window;
        `ready` is the unread end of what was delivered. */
    ghost predicate Valid()
      reads this
    {
      && Delivering()
      && SegmentsOk(segments, nextOffset + 1)
    }

    ghost predicate Delivering()
      reads this
    {
      && |passed| == nextOffset <= maxOffset <= U64_MAX
      && |ready| <= |passed| && ready == passed[|passed| - |ready|..]
      && SegmentsOk(segments, nextOffset)
      && forall i :: 0 <= i < |segments| ==> End(segments[i]) <= maxOffset
    }

    /** How many distinct bytes were accepted so far. */
    ghost function Accepted(): nat
      reads this
    {
      nextOffset + TotalLength(segments)
    }

    /** How many bytes of [offset, end) are not held yet. */
    ghost function Fresh(offset: nat, end: nat): nat
      reads this
    {
      FreeCount(segments, Max(offset, nextOffset), end)
    }

    constructor (streamId: nat, maxOffset: nat)
      requires maxOffset <= U64_MAX
      ensures Valid() && this.streamId == streamId && this.maxOffset == maxOffset
      ensures passed == [] && ready == [] && segments == [] && finalOffset == None
      ensures Accepted() == 0
    {
      this.streamId := streamId;
      nextOffset := 0;
      finalOffset := None;
      this.maxOffset := maxOffset;
      segments := [];
      ready := [];
      passed := [];
    }

    /** `set_max_offset`; the window only ever grows. */
    method SetMaxOffset(maxOffset: nat)
      requires Valid() && this.maxOffset <= maxOffset <= U64_MAX
      modifies this`maxOffset
      ensures Valid() && this.maxOffset == maxOffset
    {
      this.maxOffset := maxOffset;
    }

    /** `uncovered_ranges`: exactly the free positions of [offset, end), in order. */
    method UncoveredRanges(offset: nat, end: nat) returns (ranges: seq<Range>)
      requires Valid() && offset <= end
      ensures FreeRanges(segments, ranges, Max(offset, nextOffset), end)
    {
      if offset == end {
        FreeNone(segments, Max(offset, nextOffset), end);
        return [];
      }
      FirstAbove(segments, nextOffset);
      hide FreeRanges, SegmentsOk, Passed;
      var segs := segments;
      var cursor := Max(offset, nextOffset);
      ghost var lo := cursor;
      ranges := [];
      FreeNone(segs, lo, lo);
      NonePassed(segs, lo);
      var i := 0;
      while i < |segs| && segs[i].start < end
        invariant i <= |segs| && lo <= cursor && (cursor == lo || cursor < end)
        invariant FreeRanges(segs, ranges, lo, cursor) && Passed(segs, i, cursor)
      {
        assert cursor < end;
        VisitSegment(segs, nextOffset, ranges, i, lo, cursor, end);
        var existing := segs[i];
        if End(existing) > cursor {
          if existing.start > cursor {
            ranges := ranges + [Range(cursor, Min(existing.start, end))];
          }
          cursor := Max(cursor, End(existing));
          if cursor >= end { return; }
        }
        i := i + 1;
      }
      if cursor < end {
        LastGap(segs, nextOffset, ranges, i, lo, cursor, end);
        ranges := ranges + [Range(cursor, end)];
      } else {
        StillNone(segs, ranges, lo, end);
      }
    }

    /** `new_bytes`: the number of bytes that inserting this frame would add. */
    method NewBytes(offset: nat, data: seq<byte>) returns (r: Result<nat, StreamError>)
      requires Valid()
      ensures r == (if offset + |data| > U64_MAX then Err(InvalidOffset)
                    else if offset + |data| > maxOffset then Err(FlowControlViolation)
                    else Ok(Fresh(offset, offset + |data|)))
    {
      var end := offset + |data|;
      if end > U64_MAX { return Err(InvalidOffset); }
      if end > maxOffset { return Err(FlowControlViolation); }
      var ranges := UncoveredRanges(offset, end);
      var total := 0;
      for i := 0 to |ranges|
        invariant total == RangesLength(ranges[..i])
      {
        assert ranges[..i + 1][..i] == ranges[..i];
        total := total + (ranges[i].end - ranges[i].start);
      }
      assert ranges[..|ranges|] == ranges;
      r := Ok(total);
    }

    /** `insert`. An accepted frame adds exactly the bytes not held yet and overwrites none;
        whatever became contiguous is delivered. A refused frame changes nothing. */
    method Insert(offset: nat, data: seq<byte>, fin: bool) returns (r: Result<nat, StreamError>)
      requires Valid()
      modifies this
      ensures Valid() && maxOffset == old(maxOffset)
      ensures var refusal := Refusal(maxOffset, old(finalOffset), offset + |data|, fin);
        r == if refusal.Some? then Err(refusal.value) else Ok(old(Fresh(offset, offset + |data|)))
      ensures r.Err? ==>
        && segments == old(segments) && passed == old(passed) && ready == old(ready)
        && finalOffset == old(finalOffset)
      ensures r.Ok? ==>
        && finalOffset == (if fin then Some(offset + |data|) else old(finalOffset))
        && Accepted() == old(Accepted()) + r.value
        && Merged(old(passed), old(segments), passed, segments, offset, data)
        && old(passed) <= passed
        && ready == old(ready) + passed[old(nextOffset)..]
    {
      hide Merged, Kept, FreeRanges, SegmentsOk, TotalLength, FreeCount;
      var end := offset + |data|;
      if end > U64_MAX { return Err(InvalidOffset); }
      if end > maxOffset { return Err(FlowControlViolation); }
      if fin {
        if finalOffset.Some? && finalOffset.value != end { return Err(InvalidOffset); }
        finalOffset := Some(end);
      } else if finalOffset.Some? && end > finalOffset.value {
        return Err(InvalidOffset);
      }
      var ranges := UncoveredRanges(offset, end);
      var added := StoreRanges(ranges, offset, data);
      ghost var stored := segments;
      DeliverContiguous();
      MergedKept(old(passed), old(segments), stored, passed, segments, offset, data);
      r := Ok(added);
    }

    /** The loop of `insert` over the uncovered ranges. */
    method StoreRanges(ranges: seq<Range>, offset: nat, data: seq<byte>) returns (added: nat)
      requires Valid() && offset + |data| <= maxOffset
      requires FreeRanges(segments, ranges, Max(offset, nextOffset), offset + |data|)
      modifies this`segments
      ensures Delivering()
      ensures added == old(Fresh(offset, offset + |data|))
      ensures Accepted() == old(Accepted()) + added
      ensures Merged(passed, old(segments), passed, segments, offset, data)
    {
      hide Merged, Storing, FreeRanges, SegmentsOk, RangesLength, TotalLength, InsertSegment, FreeCount;
      added := 0;
      ghost var segs := segments;
      RangesOrdered(segs, ranges, Max(offset, nextOffset), offset + |data|);
      StoringStart(segs, nextOffset, maxOffset, offset, data);
      assert ranges[..0] == [];
      for i := 0 to |ranges|
        invariant forall j :: 0 <= j < |ranges| ==> ranges[j].start <= ranges[j].end
        invariant added == RangesLength(ranges[..i])
        invariant TotalLength(segments) == TotalLength(segs) + added
        invariant Storing(segs, segments, nextOffset, maxOffset, ranges[..i], offset, data)
      {
        RangeInside(segs, ranges, Max(offset, nextOffset), offset + |data|, i);
        var chunk := Segment(ranges[i].start, data[ranges[i].start - offset..ranges[i].end - offset]);
        StoreStep(segs, segments, nextOffset, maxOffset, ranges, i, offset, data);
        added := added + |chunk.data|;
        segments := InsertSegment(segments, chunk);
      }
      assert ranges[..|ranges|] == ranges;
      StoringDone(passed, segs, segments, maxOffset, ranges, offset, data);
    }

    /** `deliver_contiguous`: hand over everything that now continues the delivered bytes. */
    method DeliverContiguous()
      requires Delivering()
      modifies this`segments, this`nextOffset, this`ready, this`passed
      ensures Valid() && Accepted() == old(Accepted())
      ensures old(passed) <= passed && ready == old(ready) + passed[old(nextOffset)..]
      ensures Kept(old(passed), old(segments), passed, segments)
    {
      hide Kept;
      KeptSame(passed, segments);
      while true
        invariant Delivering() && Accepted() == old(Accepted())
        invariant old(passed) <= passed && ready == old(ready) + passed[old(nextOffset)..]
        invariant Kept(old(passed), old(segments), passed, segments)
        decreases |segments|
      {
        var i := IndexOf(segments, nextOffset);
        if i == |segments| { break; }
        FirstOnly(segments, nextOffset, i);
        var data := segments[i].data;
        DeliveredSame(old(passed), old(segments), passed, segments, data);
        segments := segments[..i] + segments[i + 1..];
        nextOffset := nextOffset + |data|;
        ready := ready + data;
        passed := passed + data;
      }
      NoneAtStart(segments, nextOffset);
    }

    /** `read`: take up to `maxLen` bytes off the front of what is ready. */
    method Read(maxLen: nat) returns (data: seq<byte>)
      requires Valid()
      modifies this`ready
      ensures Valid()
      ensures |data| == Min(maxLen, |old(ready)|) && old(ready) == data + ready
    {
      var amount := Min(maxLen, |ready|);
      data := ready[..amount];
      ready := ready[amount..];
    }

    predicate Readable()
      reads this
    {
      |ready| > 0
    }

    predicate IsFinished()
      reads this
    {
      finalOffset.Some? && nextOffset == finalOffset.value && |ready| == 0
    }

    /** `buffered_len`, and the window bounds it. */
    method BufferedLen() returns (n: nat)
      requires Valid()
      ensures n == |ready| + TotalLength(segments)
      ensures n <= maxOffset - (nextOffset - |ready|)
    {
      TotalFits(segments, nextOffset, maxOffset);
      n := |ready| + TotalLength(segments);
    }
  }

  /** Every position keeps the byte it held; the frame fills in the free ones it covers. */
  ghost predicate Merged(passed: seq<byte>, segs: seq<Segment>, passed': seq<byte>, segs': seq<Segment>, offset: nat,
          data: seq<byte>)
  {
    forall p: nat ::
      Held(passed', segs', p) == if Held(passed, segs, p).Some? then Held(passed, segs, p) else FrameAt(offset, data, p)
  }

  ghost predicate Kept(passed: seq<byte>, segs: seq<Segment>, passed': seq<byte>, segs': seq<Segment>)
  {
    forall p: nat :: Held(passed', segs', p) == Held(passed, segs, p)
  }

  lemma MergedKept(passed: seq<byte>, segs: seq<Segment>, stored: seq<Segment>, passed': seq<byte>,
          segs': seq<Segment>, offset: nat, data: seq<byte>)
    requires Merged(passed, segs, passed, stored, offset, data) && Kept(passed, stored, passed', segs')
    ensures Merged(passed, segs, passed', segs', offset, data)
  {
    hide Held;
  }

  /** What the frame itself holds at `p`. */
  ghost function FrameAt(offset: nat, data: seq<byte>, p: nat): Option<byte>
  {
    if offset <= p < offset + |data| then Some(data[p - offset]) else None
  }

  /** The frame's bytes lie over `segs` on exactly the positions of `ranges`. */
  ghost predicate Storing(segs: seq<Segment>, now: seq<Segment>, low: nat, high: nat, ranges: seq<Range>, offset: nat,
          data: seq<byte>)
  {
    && SegmentsOk(now, low)
    && (forall i :: 0 <= i < |now| ==> End(now[i]) <= high)
    && forall p: nat :: ByteAt(now, p) == if Covers(ranges, p) then FrameAt(offset, data, p) else ByteAt(segs, p)
  }

  // ---- Lemmas ----

  lemma StoringStart(segs: seq<Segment>, low: nat, high: nat, offset: nat, data: seq<byte>)
    requires SegmentsOk(segs, low) && forall i :: 0 <= i < |segs| ==> End(segs[i]) <= high
    ensures Storing(segs, segs, low, high, [], offset, data) && RangesLength([]) == 0
  {
  }

  lemma RangeInside(segs: seq<Segment>, ranges: seq<Range>, lo: nat, hi: nat, i: nat)
    requires FreeRanges(segs, ranges, lo, hi) && i < |ranges|
    ensures lo <= ranges[i].start < ranges[i].end <= hi
  {
  }

  lemma RangesOrdered(segs: seq<Segment>, ranges: seq<Range>, lo: nat, hi: nat)
    requires FreeRanges(segs, ranges, lo, hi)
    ensures forall j :: 0 <= j < |ranges| ==> ranges[j].start <= ranges[j].end
  {
  }

  lemma StoringDone(passed: seq<byte>, segs: seq<Segment>, now: seq<Segment>, high: nat, ranges: seq<Range>,
          offset: nat, data: seq<byte>)
    requires FreeRanges(segs, ranges, Max(offset, |passed|), offset + |data|)
    requires Storing(segs, now, |passed|, high, ranges, offset, data) && SegmentsOk(segs, |passed|)
    ensures SegmentsOk(now, |passed|) && (forall i :: 0 <= i < |now| ==> End(now[i]) <= high)
    ensures Merged(passed, segs, passed, now, offset, data)
    ensures RangesLength(ranges) == FreeCount(segs, Max(offset, |passed|), offset + |data|)
  {
    hide ByteAt, RangesLength, FreeCount, SegmentsOk;
    forall p: nat | Covers(ranges, p) ensures Max(offset, |passed|) <= p < offset + |data| {
      var i :| 0 <= i < |ranges| && ranges[i].start <= p < ranges[i].end;
    }
    hide Covers;
  }

  lemma StoreStep(segs: seq<Segment>, now: seq<Segment>, low: nat, high: nat, ranges: seq<Range>, i: nat, offset: nat,
          data: seq<byte>)
    requires i < |ranges| && Storing(segs, now, low, high, ranges[..i], offset, data)
    requires FreeRanges(segs, ranges, Max(offset, low), offset + |data|) && offset + |data| <= high
    ensures var chunk := Segment(ranges[i].start, data[ranges[i].start - offset..ranges[i].end - offset]);
      && Storing(segs, InsertSegment(now, chunk), low, high, ranges[..i + 1], offset, data)
      && TotalLength(InsertSegment(now, chunk)) == TotalLength(now) + |chunk.data|
    ensures RangesLength(ranges[..i + 1]) == RangesLength(ranges[..i]) + (ranges[i].end - ranges[i].start)
  {
    var chunk := Segment(ranges[i].start, data[ranges[i].start - offset..ranges[i].end - offset]);
    StillFree(ranges, i);
    CoversNext(ranges, i);
    InsertFree(now, low, chunk);
    StoredBytes(segs, now, ranges, i, offset, data, chunk);
    hide SegmentsOk, Covers, ByteAt, FrameAt, RangesLength, TotalLength, Overlay;
    forall j | 0 <= j < |InsertSegment(now, chunk)| ensures End(InsertSegment(now, chunk)[j]) <= high {
      assert InsertSegment(now, chunk)[j] in InsertSegment(now, chunk);
    }
  }

  lemma StoredBytes(segs: seq<Segment>, now: seq<Segment>, ranges: seq<Range>, i: nat, offset: nat, data: seq<byte>,
          chunk: Segment)
    requires i < |ranges| && offset <= ranges[i].start <= ranges[i].end <= offset + |data|
    requires chunk == Segment(ranges[i].start, data[ranges[i].start - offset..ranges[i].end - offset])
    requires forall p: nat ::
      ByteAt(now, p) == if Covers(ranges[..i], p) then FrameAt(offset, data, p) else ByteAt(segs, p)
    requires forall p: nat :: Covers(ranges[..i + 1], p) <==>
        Covers(ranges[..i], p) || ranges[i].start <= p < ranges[i].end
    ensures forall p: nat ::
      Overlay(now, chunk, p) == if Covers(ranges[..i + 1], p) then FrameAt(offset, data, p) else ByteAt(segs, p)
  {
    hide Covers, ByteAt;
  }

  lemma GapBefore(segs: seq<Segment>, low: nat, i: nat, cursor: nat)
    requires SegmentsOk(segs, low) && i < |segs|
    requires forall j :: 0 <= j < i ==> End(segs[j]) <= cursor
    ensures forall p: nat :: cursor <= p < segs[i].start ==> ByteAt(segs, p).None?
  {
    hide ByteAt;
    forall p: nat | cursor <= p < segs[i].start ensures ByteAt(segs, p).None? {
      forall j | 0 <= j < |segs| ensures p < segs[j].start || End(segs[j]) <= p {
        if j > i { assert End(segs[i]) <= segs[j].start; }
      }
      ByteOutside(segs, p);
    }
  }

  lemma LastGap(segs: seq<Segment>, low: nat, ranges: seq<Range>, i: nat, lo: nat, cursor: nat, end: nat)
    requires SegmentsOk(segs, low) && i <= |segs| && (i < |segs| ==> segs[i].start >= end)
    requires lo <= cursor < end && FreeRanges(segs, ranges, lo, cursor) && Passed(segs, i, cursor)
    ensures FreeRanges(segs, ranges + [Range(cursor, end)], lo, end)
  {
    GapAfter(segs, low, i, cursor, end);
    FreeGap(segs, ranges, lo, cursor, end);
  }

  lemma FirstAbove(segs: seq<Segment>, low: nat)
    requires SegmentsOk(segs, low + 1)
    ensures SegmentsOk(segs, low) && (|segs| > 0 ==> low < segs[0].start)
    ensures forall i :: 0 <= i < |segs| ==> low < segs[i].start
  {
  }

  lemma StillNone(segs: seq<Segment>, ranges: seq<Range>, lo: nat, end: nat)
    requires FreeRanges(segs, ranges, lo, lo) && end <= lo
    ensures FreeRanges(segs, ranges, lo, end)
  {
    assert ranges == [];
  }

  /** The first `i` segments end at or before `cursor`. */
  ghost predicate Passed(segs: seq<Segment>, i: nat, cursor: nat)
  {
    i <= |segs| && forall j :: 0 <= j < i ==> End(segs[j]) <= cursor
  }

  lemma NonePassed(segs: seq<Segment>, cursor: nat)
    ensures Passed(segs, 0, cursor)
  {
  }

  /** Passing segment `i` accounts for the gap before it and for the segment itself. */
  lemma VisitSegment(segs: seq<Segment>, low: nat, ranges: seq<Range>, i: nat, lo: nat, cursor: nat, end: nat)
    requires SegmentsOk(segs, low) && i < |segs| && segs[i].start < end && lo <= cursor < end
    requires FreeRanges(segs, ranges, lo, cursor) && Passed(segs, i, cursor)
    ensures Passed(segs, i + 1, Max(cursor, End(segs[i])))
    ensures End(segs[i]) > cursor ==>
      var ranges' := if segs[i].start > cursor then ranges + [Range(cursor, segs[i].start)] else ranges;
      && FreeRanges(segs, ranges', lo, End(segs[i]))
      && (End(segs[i]) >= end ==> FreeRanges(segs, ranges', lo, end))
  {
    hide FreeRanges, ByteAt;
    var s := segs[i];
    if End(s) > cursor {
      HeldStretch(segs, low, i, s.start, End(s));
      if s.start > cursor {
        GapBefore(segs, low, i, cursor);
        FreeGap(segs, ranges, lo, cursor, s.start);
        FreeHeld(segs, ranges + [Range(cursor, s.start)], lo, s.start, Min(End(s), end));
        FreeHeld(segs, ranges + [Range(cursor, s.start)], lo, s.start, End(s));
      } else {
        FreeHeld(segs, ranges, lo, cursor, Min(End(s), end));
        FreeHeld(segs, ranges, lo, cursor, End(s));
      }
    }
  }

  lemma GapAfter(segs: seq<Segment>, low: nat, i: nat, cursor: nat, end: nat)
    requires SegmentsOk(segs, low) && i <= |segs| && (i < |segs| ==> segs[i].start >= end)
    requires forall j :: 0 <= j < i ==> End(segs[j]) <= cursor
    ensures forall p: nat :: cursor <= p < end ==> ByteAt(segs, p).None?
  {
    forall p: nat | cursor <= p < end ensures ByteAt(segs, p).None? {
      forall j | 0 <= j < |segs| ensures p < segs[j].start || End(segs[j]) <= p {
        if j > i { assert End(segs[i]) <= segs[j].start; }
      }
      ByteOutside(segs, p);
    }
  }

  lemma HeldStretch(segs: seq<Segment>, low: nat, i: nat, lo: nat, hi: nat)
    requires SegmentsOk(segs, low) && i < |segs| && segs[i].start <= lo && hi <= End(segs[i])
    ensures forall p: nat :: lo <= p < hi ==> ByteAt(segs, p).Some?
  {
    forall p: nat | lo <= p < hi ensures ByteAt(segs, p).Some? { ByteInside(segs, low, i, p); }
  }

  /** A range is not covered by the ranges before it. */
  lemma StillFree(ranges: seq<Range>, i: nat)
    requires i < |ranges| && forall a, b :: 0 <= a < b < |ranges| ==> ranges[a].end <= ranges[b].start
    ensures forall p: nat :: ranges[i].start <= p < ranges[i].end ==> !Covers(ranges[..i], p) && Covers(ranges, p)
  {
  }

  lemma CoversNext(ranges: seq<Range>, i: nat)
    requires i < |ranges| && forall a :: 0 <= a < |ranges| ==> ranges[a].start <= ranges[a].end
    ensures forall p: nat :: Covers(ranges[..i + 1], p) <==>
        Covers(ranges[..i], p) || ranges[i].start <= p < ranges[i].end
    ensures RangesLength(ranges[..i + 1]) == RangesLength(ranges[..i]) + (ranges[i].end - ranges[i].start)
  {
    var a, b := ranges[..i], ranges[..i + 1];
    assert b[..i] == a && b[i] == ranges[i];
    forall p: nat ensures Covers(b, p) <==> Covers(a, p) || ranges[i].start <= p < ranges[i].end {
      if Covers(a, p) {
        var j :| 0 <= j < |a| && a[j].start <= p < a[j].end;
        assert b[j] == a[j];
      }
      if Covers(b, p) {
        var j :| 0 <= j < |b| && b[j].start <= p < b[j].end;
        assert j < i ==> a[j] == b[j];
      }
    }
  }

  /** Only the first segment can start at the delivery point. */
  lemma FirstOnly(segs: seq<Segment>, next: nat, i: nat)
    requires SegmentsOk(segs, next) && i < |segs| && segs[i].start == next
    ensures i == 0 && segs[..i] + segs[i + 1..] == segs[1..]
  {
    assert |segs[0].data| > 0;
  }

  lemma NoneAtStart(segs: seq<Segment>, next: nat)
    requires SegmentsOk(segs, next) && IndexOf(segs, next) == |segs|
    ensures SegmentsOk(segs, next + 1)
  {
  }

  lemma KeptSame(passed: seq<byte>, segs: seq<Segment>)
    ensures Kept(passed, segs, passed, segs)
  {
  }

  /** Moving the first segment over to the delivered bytes leaves every held byte in place. */
  lemma DeliveredSame(passed0: seq<byte>, segs0: seq<Segment>, passed: seq<byte>, segs: seq<Segment>, data: seq<byte>)
    requires Kept(passed0, segs0, passed, segs)
    requires SegmentsOk(segs, |passed|) && |segs| > 0 && segs[0] == Segment(|passed|, data)
    ensures Kept(passed0, segs0, passed + data, segs[1..])
  {
    forall p: nat ensures Held(passed + data, segs[1..], p) == Held(passed, segs, p) { }
  }
}
