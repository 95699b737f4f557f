/** Out-of-order segments of a stream: the ordered map from start offset to bytes, kept as
    its sorted list of entries. */
module Segments {
  import opened Wrappers
  import opened Bytes

  datatype Segment = Segment(start: nat, data: seq<byte>)

  datatype Range = Range(start: nat, end: nat)

  function End(s: Segment): nat { s.start + |s.data| }

  /** Non-empty, in order, disjoint, and at or above `low`. */
  ghost predicate SegmentsOk(segs: seq<Segment>, low: nat)
  {
    && (forall i :: 0 <= i < |segs| ==> |segs[i].data| > 0 && low <= segs[i].start)
    && (forall i, j :: 0 <= i < j < |segs| ==> End(segs[i]) <= segs[j].start)
  }

  /** The byte held at position `p`, if any. */
  function ByteAt(segs: seq<Segment>, p: nat): Option<byte>
  {
    if |segs| == 0 then None
    else if segs[0].start <= p < End(segs[0]) then Some(segs[0].data[p - segs[0].start])
    else ByteAt(segs[1..], p)
  }

  function TotalLength(segs: seq<Segment>): nat
  {
    if |segs| == 0 then 0 else |segs[0].data| + TotalLength(segs[1..])
  }

  lemma {:induction false} ByteInside(segs: seq<Segment>, low: nat, i: nat, p: nat)
    requires SegmentsOk(segs, low) && i < |segs| && segs[i].start <= p < End(segs[i])
    ensures ByteAt(segs, p) == Some(segs[i].data[p - segs[i].start])
  {
    if i > 0 {
      assert End(segs[0]) <= segs[i].start;
      ByteInside(segs[1..], low, i - 1, p);
    }
  }

  /** A position between two neighbouring segments is free. */
  lemma {:induction false} ByteOutside(segs: seq<Segment>, p: nat)
    requires forall i :: 0 <= i < |segs| ==> p < segs[i].start || End(segs[i]) <= p
    ensures ByteAt(segs, p) == None
  {
    if |segs| > 0 { ByteOutside(segs[1..], p); }
  }

  /** Disjoint segments between `low` and `high` hold at most `high - low` bytes. */
  lemma {:induction false} TotalFits(segs: seq<Segment>, low: nat, high: nat)
    requires SegmentsOk(segs, low) && low <= high
    requires forall i :: 0 <= i < |segs| ==> End(segs[i]) <= high
    ensures low + TotalLength(segs) <= high
  {
    if |segs| > 0 {
      assert SegmentsOk(segs[1..], End(segs[0]));
      TotalFits(segs[1..], End(segs[0]), high);
    }
  }

  // ---- Counting free positions ----

  /** How many positions in [lo, hi) are held by no segment. */
  function FreeCount(segs: seq<Segment>, lo: nat, hi: nat): nat
    decreases hi - lo
  {
    if lo >= hi then 0 else (if ByteAt(segs, lo).None? then 1 else 0) + FreeCount(segs, lo + 1, hi)
  }

  lemma {:induction false} FreeSplit(segs: seq<Segment>, lo: nat, mid: nat, hi: nat)
    requires lo <= mid <= hi
    ensures FreeCount(segs, lo, hi) == FreeCount(segs, lo, mid) + FreeCount(segs, mid, hi)
    decreases mid - lo
  {
    if lo < mid { FreeSplit(segs, lo + 1, mid, hi); }
  }

  lemma {:induction false} AllFree(segs: seq<Segment>, lo: nat, hi: nat)
    requires lo <= hi && forall p :: lo <= p < hi ==> ByteAt(segs, p).None?
    ensures FreeCount(segs, lo, hi) == hi - lo
    decreases hi - lo
  {
    if lo < hi { AllFree(segs, lo + 1, hi); }
  }

  lemma {:induction false} NoneFree(segs: seq<Segment>, lo: nat, hi: nat)
    requires forall p :: lo <= p < hi ==> ByteAt(segs, p).Some?
    ensures FreeCount(segs, lo, hi) == 0
    decreases hi - lo
  {
    if lo < hi { NoneFree(segs, lo + 1, hi); }
  }

  // ---- Ranges ----

  ghost predicate Covers(ranges: seq<Range>, p: nat)
  {
    exists i :: 0 <= i < |ranges| && ranges[i].start <= p < ranges[i].end
  }

  function RangesLength(ranges: seq<Range>): nat
    requires forall i :: 0 <= i < |ranges| ==> ranges[i].start <= ranges[i].end
  {
    if |ranges| == 0 then 0
    else RangesLength(ranges[..|ranges| - 1]) + (ranges[|ranges| - 1].end - ranges[|ranges| - 1].start)
  }

  ghost predicate RangesOk(ranges: seq<Range>, lo: nat, hi: nat)
  {
    && (forall i :: 0 <= i < |ranges| ==> lo <= ranges[i].start < ranges[i].end <= hi)
    && (forall i, j :: 0 <= i < j < |ranges| ==> ranges[i].end <= ranges[j].start)
  }

  /** `ranges` are exactly the free positions of [lo, hi). */
  ghost predicate FreeRanges(segs: seq<Segment>, ranges: seq<Range>, lo: nat, hi: nat)
  {
    && RangesOk(ranges, lo, hi)
    && RangesLength(ranges) == FreeCount(segs, lo, hi)
    && forall p :: lo <= p < hi ==> (Covers(ranges, p) <==> ByteAt(segs, p).None?)
  }

  lemma FreeNone(segs: seq<Segment>, lo: nat, hi: nat)
    requires hi <= lo
    ensures FreeRanges(segs, [], lo, hi)
  {
  }

  /** Extending over a free stretch adds it as one more range. */
  lemma FreeGap(segs: seq<Segment>, ranges: seq<Range>, lo: nat, mid: nat, hi: nat)
    requires lo <= mid < hi && FreeRanges(segs, ranges, lo, mid)
    requires forall p :: mid <= p < hi ==> ByteAt(segs, p).None?
    ensures FreeRanges(segs, ranges + [Range(mid, hi)], lo, hi)
  {
    var more := ranges + [Range(mid, hi)];
    assert more[..|more| - 1] == ranges && more[|ranges|] == Range(mid, hi);
    FreeSplit(segs, lo, mid, hi);
    AllFree(segs, mid, hi);
    forall p | lo <= p < hi ensures Covers(more, p) <==> ByteAt(segs, p).None? {
      if p < mid {
        if Covers(ranges, p) {
          var i :| 0 <= i < |ranges| && ranges[i].start <= p < ranges[i].end;
          assert more[i] == ranges[i];
        }
        if Covers(more, p) {
          var i :| 0 <= i < |more| && more[i].start <= p < more[i].end;
          assert i < |ranges| && ranges[i] == more[i];
        }
      }
    }
  }

  /** Extending over a held stretch adds nothing. */
  lemma FreeHeld(segs: seq<Segment>, ranges: seq<Range>, lo: nat, mid: nat, hi: nat)
    requires lo <= mid <= hi && FreeRanges(segs, ranges, lo, mid)
    requires forall p :: mid <= p < hi ==> ByteAt(segs, p).Some?
    ensures FreeRanges(segs, ranges, lo, hi)
  {
    FreeSplit(segs, lo, mid, hi);
    NoneFree(segs, mid, hi);
  }

  // ---- Insertion ----

  /** `BTreeMap::insert` on the sorted entries. */
  function InsertSegment(segs: seq<Segment>, s: Segment): seq<Segment>
  {
    if |segs| == 0 || s.start < segs[0].start then [s] + segs
    else if s.start == segs[0].start then [s] + segs[1..]
    else [segs[0]] + InsertSegment(segs[1..], s)
  }

  /** What position `p` holds once `s` lies over `segs`. */
  function Overlay(segs: seq<Segment>, s: Segment, p: nat): Option<byte>
  {
    if s.start <= p < End(s) then Some(s.data[p - s.start]) else ByteAt(segs, p)
  }

  /** Inserting into a free stretch adds exactly its bytes and overwrites none. */
  lemma {:induction false} InsertFree(segs: seq<Segment>, low: nat, s: Segment)
    requires SegmentsOk(segs, low) && |s.data| > 0 && low <= s.start
    requires forall p: nat :: s.start <= p < End(s) ==> ByteAt(segs, p).None?
    ensures SegmentsOk(InsertSegment(segs, s), low)
    ensures TotalLength(InsertSegment(segs, s)) == TotalLength(segs) + |s.data|
    ensures forall p: nat :: ByteAt(InsertSegment(segs, s), p) == Overlay(segs, s, p)
    ensures forall t :: t in InsertSegment(segs, s) ==> t == s || t in segs
  {
    hide SegmentsOk, ByteAt, TotalLength, Overlay;
    if |segs| == 0 || s.start < segs[0].start {
      InsertFirst(segs, low, s);
    } else {
      AfterFirst(segs, low, s);
      var rest := segs[1..];
      InsertFree(rest, End(segs[0]), s);
      var more := InsertSegment(rest, s);
      assert segs == [segs[0]] + rest;
      PrependAt(segs[0], more);
      PrependAt(segs[0], rest);
      InsertLater(segs[0], rest, more, s);
      FirstOk(segs, low);
      ConsOk(segs[0], more, low);
    }
  }

  /** What a list holds once a segment is put in front of it. */
  lemma PrependAt(first: Segment, rest: seq<Segment>)
    ensures forall p: nat :: ByteAt([first] + rest, p) == Overlay(rest, first, p)
    ensures TotalLength([first] + rest) == |first.data| + TotalLength(rest)
  {
    assert ([first] + rest)[1..] == rest;
  }

  lemma InsertFirst(segs: seq<Segment>, low: nat, s: Segment)
    requires SegmentsOk(segs, low) && |s.data| > 0 && low <= s.start && (|segs| > 0 ==> s.start < segs[0].start)
    requires forall p: nat :: s.start <= p < End(s) ==> ByteAt(segs, p).None?
    ensures SegmentsOk([s] + segs, low) && TotalLength([s] + segs) == TotalLength(segs) + |s.data|
    ensures forall p: nat :: ByteAt([s] + segs, p) == Overlay(segs, s, p)
  {
    hide ByteAt, TotalLength, SegmentsOk;
    PrependAt(s, segs);
    BeforeFirst(segs, low, s);
    ConsOk(s, segs, low);
  }

  lemma BeforeFirst(segs: seq<Segment>, low: nat, s: Segment)
    requires SegmentsOk(segs, low) && (|segs| > 0 ==> s.start < segs[0].start)
    requires forall p: nat :: s.start <= p < End(s) ==> ByteAt(segs, p).None?
    ensures SegmentsOk(segs, End(s))
  {
    if |segs| > 0 {
      FirstHolds(segs, low);
      hide ByteAt;
      assert End(s) <= segs[0].start;
    }
  }

  lemma FirstHolds(segs: seq<Segment>, low: nat)
    requires SegmentsOk(segs, low) && |segs| > 0
    ensures ByteAt(segs, segs[0].start).Some?
  {
  }

  /** A free stretch that does not come first lies past the first segment. */
  lemma AfterFirst(segs: seq<Segment>, low: nat, s: Segment)
    requires SegmentsOk(segs, low) && |s.data| > 0 && |segs| > 0 && segs[0].start <= s.start
    requires forall p: nat :: s.start <= p < End(s) ==> ByteAt(segs, p).None?
    ensures End(segs[0]) <= s.start && SegmentsOk(segs[1..], End(segs[0]))
    ensures forall p: nat :: s.start <= p < End(s) ==> ByteAt(segs[1..], p).None?
  {
    assert ByteAt(segs, s.start).None?;
    forall p: nat | s.start <= p < End(s) ensures ByteAt(segs[1..], p).None? {
      assert ByteAt(segs, p) == ByteAt(segs[1..], p);
    }
  }

  lemma InsertLater(first: Segment, rest: seq<Segment>, more: seq<Segment>, s: Segment)
    requires End(first) <= s.start
    requires forall p: nat :: ByteAt(more, p) == Overlay(rest, s, p)
    ensures forall p: nat :: ByteAt([first] + more, p) == Overlay([first] + rest, s, p)
  {
    hide ByteAt;
    PrependAt(first, more);
    PrependAt(first, rest);
  }

  lemma FirstOk(segs: seq<Segment>, low: nat)
    requires SegmentsOk(segs, low) && |segs| > 0
    ensures |segs[0].data| > 0 && low <= segs[0].start
  {
  }

  lemma ConsOk(s: Segment, rest: seq<Segment>, low: nat)
    requires |s.data| > 0 && low <= s.start && SegmentsOk(rest, End(s))
    ensures SegmentsOk([s] + rest, low)
  {
  }

  // ---- Removal by start offset ----

  function IndexOf(segs: seq<Segment>, start: nat): (i: nat)
    ensures i <= |segs| && (i < |segs| ==> segs[i].start == start)
    ensures forall j :: 0 <= j < i ==> segs[j].start != start
  {
    if |segs| == 0 || segs[0].start == start then 0 else 1 + IndexOf(segs[1..], start)
  }
}
