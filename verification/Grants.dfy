/** What the peer can take: a sender that stays within the windows it was granted sends nothing
    that the peer has no room for, because no byte is counted twice on either side. */
module Grants {
  import opened Wrappers
  import opened Bytes
  import opened Sums
  import opened Frames
  import opened SendStream
  import opened ReceiveStream
  import opened Segments
  import opened StreamAccounting
  import opened StreamDelivery
  import opened TransportModel
  import opened Ledger
  import opened Transport
  import opened Delivery

  // ---- Counting positions ----

  ghost function Pairs(m: map<StreamId, set<nat>>): set<(nat, nat)>
  {
    set id, p | id in m && p in m[id] :: (id, p)
  }

  ghost function Sizes(m: map<StreamId, set<nat>>): (sizes: map<StreamId, nat>)
    ensures sizes.Keys == m.Keys
  {
    map id | id in m :: |m[id]|
  }

  ghost function Row(id: nat, s: set<nat>): set<(nat, nat)>
  {
    set p | p in s :: (id, p)
  }

  lemma {:induction false} RowSize(id: nat, s: set<nat>)
    ensures |Row(id, s)| == |s|
    decreases |s|
  {
    if s != {} {
      var p :| p in s;
      RowSize(id, s - {p});
      assert Row(id, s) == Row(id, s - {p}) + {(id, p)};
    }
  }

  lemma {:induction false} PairsSize(m: map<StreamId, set<nat>>)
    ensures |Pairs(m)| == Sum<StreamId>(Sizes(m))
    decreases |m|
  {
    if m == map[] {
      assert Pairs(m) == {} && Sizes(m) == map[];
    } else {
      var id :| id in m;
      assert (m - {id}).Keys == m.Keys - {id};
      PairsSize(m - {id});
      PairsSplit(m, id);
      SizesSplit(m, id);
      hide Pairs, Sizes, Row, Sum;
      RowSize(id, m[id]);
      SumSplit<StreamId>(Sizes(m), id);
    }
  }

  lemma PairsSplit(m: map<StreamId, set<nat>>, id: StreamId)
    requires id in m
    ensures Pairs(m) == Pairs(m - {id}) + Row(id, m[id]) && Pairs(m - {id}) !! Row(id, m[id])
  {
  }

  lemma SizesSplit(m: map<StreamId, set<nat>>, id: StreamId)
    requires id in m
    ensures id in Sizes(m) && Sizes(m)[id] == |m[id]| && Sizes(m - {id}) == Sizes(m) - {id}
  {
  }

  lemma SubsetSize<T>(a: set<T>, b: set<T>)
    requires a <= b
    ensures |a| <= |b|
  {
    assert b == a + (b - a);
  }

  /** The chunk `t` of this length has the byte. */
  predicate At(t: Tag, length: nat, place: (nat, nat))
  {
    t.stream == place.0 && t.offset <= place.1 < t.offset + length
  }

  /** Chunks have at least as many bytes as the places they cover. */
  lemma {:induction false} CoverBound(places: set<(nat, nat)>, m: map<Tag, nat>)
    requires forall x :: x in places ==> exists t :: t in m && At(t, m[t], x)
    ensures |places| <= Sum(m)
    decreases |m|
  {
    if m == map[] {
      assert places == {};
    } else {
      var t :| t in m;
      var mine := set x | x in places && At(t, m[t], x);
      OneCovers(mine, t, m[t]);
      assert (m - {t}).Keys == m.Keys - {t};
      forall x | x in places - mine ensures exists u :: u in m - {t} && At(u, (m - {t})[u], x) {
        var u :| u in m && At(u, m[u], x);
        assert u in m - {t};
      }
      CoverBound(places - mine, m - {t});
      hide Sum, At;
      SumSplit(m, t);
      assert places == mine + (places - mine);
    }
  }

  lemma OneCovers(places: set<(nat, nat)>, t: Tag, length: nat)
    requires forall x :: x in places ==> At(t, length, x)
    ensures |places| <= length
  {
    var row := Row(t.stream, Span(t.offset, t.offset + length));
    RowSize(t.stream, Span(t.offset, t.offset + length));
    SpanSize(t.offset, t.offset + length);
    forall x | x in places ensures x in row { assert x == (t.stream, x.1); }
    SubsetSize(places, row);
  }

  ghost function FreeSet(segs: seq<Segment>, lo: nat, hi: nat): set<nat>
  {
    set p: nat | lo <= p < hi && ByteAt(segs, p).None?
  }

  lemma {:induction false} FreeSetSize(segs: seq<Segment>, lo: nat, hi: nat)
    ensures |FreeSet(segs, lo, hi)| == FreeCount(segs, lo, hi)
    decreases hi - lo
  {
    if lo < hi {
      FreeSetSize(segs, lo + 1, hi);
      assert FreeSet(segs, lo, hi) == FreeSet(segs, lo + 1, hi) + if ByteAt(segs, lo).None? then {lo} else {};
    } else {
      assert FreeSet(segs, lo, hi) == {};
    }
  }

  /** What waits and what is free lie side by side in the window. */
  lemma FreeFits(segs: seq<Segment>, low: nat, lo: nat, hi: nat, high: nat)
    requires SegmentsOk(segs, low) && low <= lo && hi <= high && low <= high
    requires forall i :: 0 <= i < |segs| ==> End(segs[i]) <= high
    ensures TotalLength(segs) + FreeCount(segs, lo, hi) <= high - low
  {
    InSegmentsSize(segs, low, high);
    FreeSetSize(segs, lo, hi);
    SpanSize(low, high);
    assert InSegments(segs, low, high) !! FreeSet(segs, lo, hi);
    SubsetSize(InSegments(segs, low, high) + FreeSet(segs, lo, hi), Span(low, high));
  }

  // ---- The connection's window ----

  /** The positions that hold a byte. */
  ghost function HeldIn(box: Inbox): set<nat>
  {
    HeldBelow(box.passed, box.segments, WindowEnd(box))
  }

  /** The positions for which the frame brings a byte that is new. */
  ghost function FreshIn(box: Inbox, f: Frame): set<nat>
    requires f.StreamData?
  {
    if box.state == Open then FreeSet(box.segments, Max(f.offset, |box.passed|), f.offset + |f.data|) else {}
  }

  lemma HeldInSize(box: Inbox)
    requires BoxOk(box)
    ensures |HeldIn(box)| == |box.passed| + TotalLength(box.segments)
  {
    HeldSize(box.passed, box.segments, WindowEnd(box));
  }

  lemma FreshInSize(box: Inbox, f: Frame)
    requires f.StreamData?
    ensures |FreshIn(box, f)| == NewIn(box, f.offset, f.data) && FreshIn(box, f) !! HeldIn(box)
  {
    if box.state == Open { FreeSetSize(box.segments, Max(f.offset, |box.passed|), f.offset + |f.data|); }
  }

  lemma {:induction false} CountPositive(emitted: seq<Emission>, e: Emission, t: Tag)
    requires e in emitted && HandOf(e.frame) == Some(t)
    ensures Count(emitted, t) > 0
  {
    var init := emitted[..|emitted| - 1];
    if emitted[|emitted| - 1] != e { CountPositive(init, e, t); }
  }

  /** What was emitted was sent at least once. */
  lemma EmittedOnce(b: Book, emitted: seq<Emission>, e: Emission)
    requires LogOk(emitted, b) && e in emitted && e.frame.StreamData?
    ensures FrameTag(e.frame) in SentOnce(b) && SentOnce(b)[FrameTag(e.frame)] == |e.frame.data|
  {
    CountPositive(emitted, e, FrameTag(e.frame));
    hide Count, EmissionsFit, FlightsLogged;
  }

  lemma HeldCovered(x: Peer, b: Book, emitted: seq<Emission>, id: StreamId, p: nat)
    requires AllCaused(x, emitted) && LogOk(emitted, b) && id in x.boxes && p in HeldIn(x.boxes[id])
    ensures exists t :: t in SentOnce(b) && At(t, SentOnce(b)[t], (id, p))
  {
    CausedOne(x, emitted, id);
    hide AllCaused, LogOk, SentOnce, Held;
    assert Brought(emitted, x.met, id, p);
    var e :| e in emitted && e.packetNumber in x.met && Spans(e.frame, id, p);
    EmittedOnce(b, emitted, e);
    assert At(FrameTag(e.frame), SentOnce(b)[FrameTag(e.frame)], (id, p));
  }

  lemma FreshCovered(box: Inbox, b: Book, emitted: seq<Emission>, e: Emission, p: nat)
    requires LogOk(emitted, b) && e in emitted && e.frame.StreamData? && p in FreshIn(box, e.frame)
    ensures exists t :: t in SentOnce(b) && At(t, SentOnce(b)[t], (e.frame.streamId, p))
  {
    EmittedOnce(b, emitted, e);
    hide LogOk, SentOnce;
    assert At(FrameTag(e.frame), SentOnce(b)[FrameTag(e.frame)], (e.frame.streamId, p));
  }

  /** The positions held on all streams, and what the frame adds. */
  ghost function Places(boxes: Boxes, f: Frame): (places: map<StreamId, set<nat>>)
    requires f.StreamData?
    ensures places.Keys == boxes.Keys
  {
    map id | id in boxes :: HeldIn(boxes[id]) + if id == f.streamId then FreshIn(boxes[id], f) else {}
  }

  lemma InPlaces(boxes: Boxes, f: Frame, place: (nat, nat))
    requires f.StreamData? && place in Pairs(Places(boxes, f))
    ensures place.0 in boxes
    ensures place.1 in HeldIn(boxes[place.0]) || (place.0 == f.streamId && place.1 in FreshIn(boxes[place.0], f))
  {
    hide HeldIn, FreshIn;
  }

  lemma PlacesSent(x: Peer, b: Book, emitted: seq<Emission>, e: Emission)
    requires AllCaused(x, emitted) && LogOk(emitted, b) && e in emitted && e.frame.StreamData?
    ensures Sum<StreamId>(Sizes(Places(x.boxes, e.frame))) <= Sum(SentOnce(b))
  {
    hide AllCaused, LogOk, SentOnce, HeldIn, FreshIn, Pairs, Places, Sizes, Sum, At;
    var m := Places(x.boxes, e.frame);
    PairsSize(m);
    forall place | place in Pairs(m) ensures exists t :: t in SentOnce(b) && At(t, SentOnce(b)[t], place) {
      InPlaces(x.boxes, e.frame, place);
      if place.1 in HeldIn(x.boxes[place.0]) {
        HeldCovered(x, b, emitted, place.0, place.1);
      } else {
        FreshCovered(x.boxes[place.0], b, emitted, e, place.1);
      }
    }
    CoverBound(Pairs(m), SentOnce(b));
  }

  /** How many bytes were accepted on each stream. */
  ghost predicate CountsIn(boxes: Boxes, counts: map<StreamId, nat>)
  {
    && counts.Keys == boxes.Keys
    && forall id :: id in boxes ==>
          BoxOk(boxes[id]) && counts[id] == |boxes[id].passed| + TotalLength(boxes[id].segments)
  }

  lemma PlaceSize(boxes: Boxes, f: Frame, k: StreamId)
    requires f.StreamData? && k in boxes
    ensures k in Sizes(Places(boxes, f))
    ensures Sizes(Places(boxes, f))[k] ==
      |HeldIn(boxes[k])| + if k == f.streamId then NewIn(boxes[k], f.offset, f.data) else 0
  {
    hide HeldIn, FreshIn, NewIn;
    FreshInSize(boxes[k], f);
  }

  lemma PlacesCounted(boxes: Boxes, counts: map<StreamId, nat>, f: Frame)
    requires CountsIn(boxes, counts) && f.StreamData? && f.streamId in boxes
    ensures Sum<StreamId>(Sizes(Places(boxes, f))) ==
      Sum<StreamId>(counts) + NewIn(boxes[f.streamId], f.offset, f.data)
  {
    hide Sum, NewIn, Sizes, Places, CountsIn;
    var id: StreamId := f.streamId;
    assert id in counts by { CountOf(boxes, counts, f, id); }
    SizesAdded(boxes, counts, f);
    SumReplace<StreamId>(counts, id, counts[id] + NewIn(boxes[id], f.offset, f.data));
  }

  lemma CountsKeys(boxes: Boxes, counts: map<StreamId, nat>)
    requires CountsIn(boxes, counts)
    ensures counts.Keys == boxes.Keys
  {
  }

  lemma CountOf(boxes: Boxes, counts: map<StreamId, nat>, f: Frame, k: StreamId)
    requires CountsIn(boxes, counts) && f.StreamData? && k in boxes
    ensures k in counts && k in Sizes(Places(boxes, f))
    ensures Sizes(Places(boxes, f))[k] ==
      counts[k] + if k == f.streamId then NewIn(boxes[k], f.offset, f.data) else 0
  {
    HeldInSize(boxes[k]);
    hide BoxOk, HeldIn, FreshIn, NewIn;
    PlaceSize(boxes, f, k);
  }

  lemma SizesAdded(boxes: Boxes, counts: map<StreamId, nat>, f: Frame)
    requires CountsIn(boxes, counts) && f.StreamData? && f.streamId in boxes
    ensures f.streamId in counts
    ensures Sizes(Places(boxes, f)) ==
      counts[f.streamId as nat := counts[f.streamId] + NewIn(boxes[f.streamId], f.offset, f.data)]
  {
    hide NewIn, Sizes, Places, CountsIn;
    var sizes := Sizes(Places(boxes, f));
    assert counts.Keys == boxes.Keys by { CountsKeys(boxes, counts); }
    forall k | k in boxes
      ensures sizes[k] == counts[k] + if k == f.streamId then NewIn(boxes[k], f.offset, f.data) else 0
    {
      CountOf(boxes, counts, f, k);
    }
  }

  // ---- Within the grants ----

  /** The sender's windows end where the peer's do or before, and no stream's window is wider than
      the buffer. */
  ghost predicate Within(boxes: Boxes, connection: ReceiveFlow, limit: nat, b: Book)
  {
    && b.granted <= connection.maxOffset == connection.advertisedOffset
    && (forall id :: id in boxes ==> boxes[id].size <= limit)
    && (forall id: u64 :: id in b.windows && id in boxes ==> b.windows[id] <= WindowEnd(boxes[id]))
  }

  /** The frame ends within the text and, if the end is known, agrees with it. */
  lemma FrameFits(box: Inbox, got: seq<byte>, eof: bool, text: seq<byte>, ended: bool, f: Frame, limit: nat)
    requires f.StreamData? && Piece(PendingData(f.offset, f.data, f.fin, 0), text, ended)
    requires Follows(box, got, eof, text, ended) && BoxOk(box)
    requires |text| <= WindowEnd(box) && box.size <= limit
    ensures Room(box, f.offset, f.data, f.fin, limit)
  {
    hide Agrees;
    if box.state == Open {
      FreeFits(box.segments, |box.passed|, Max(f.offset, |box.passed|), f.offset + |f.data|, WindowEnd(box));
    }
  }

  /** Whatever the sender sent on a stream that is open at the peer, the peer can take. */
  lemma GrantedAdmits(x: Peer, limits: Bounds, s: Sender, emitted: seq<Emission>, flow: SendFlow,
          connection: ReceiveFlow, limit: nat, counts: map<StreamId, nat>, e: Emission)
    requires Sound(limits, s, None) && LogOk(emitted, s.book) && FlowOk(s.book, flow) && PeerOk(x, s.book, emitted)
    requires Within(x.boxes, connection, limit, s.book)
    requires CountsIn(x.boxes, counts) && connection.uniqueReceived == Sum<StreamId>(counts)
    requires e in emitted && e.frame.StreamData? && e.frame.streamId in x.boxes
    ensures Admits(x.boxes, connection, limit, e.frame.streamId, e.frame.offset, e.frame.data, e.frame.fin)
  {
    hide AllFollow, AllArrived, AllCaused, LogOk, Sum, SentOnce, Room, BoxOk, Follows, NewIn, Piece;
    var f, id := e.frame, e.frame.streamId;
    FramePiece(limits, s, emitted, e);
    FollowsOne(x, s.book, id);
    KnownWindow(limits, s, emitted, e);
    hide Sound;
    FrameFits(x.boxes[id], x.taken[id], id in x.ended, TextOf(s.book.texts, id), EndedIn(s.book.ended, id), f, limit);
    PlacesSent(x, s.book, emitted, e);
    PlacesCounted(x.boxes, counts, f);
  }

  lemma KnownWindow(limits: Bounds, s: Sender, emitted: seq<Emission>, e: Emission)
    requires Sound(limits, s, None) && LogOk(emitted, s.book) && e in emitted && e.frame.StreamData?
    ensures e.frame.streamId in s.book.windows
    ensures |TextOf(s.book.texts, e.frame.streamId)| <= s.book.windows[e.frame.streamId]
  {
    hide QueuesOk, FlightsOk, BookOk, BytesOk, WindowOk, TimersOk, EmissionsFit, Counted, FlightsLogged;
    assert FrameTag(e.frame) in s.book.chunks;
  }

  // ---- The peer's steps keep to them ----

  lemma TookWithin(boxes: Boxes, connection: ReceiveFlow, limit: nat, b: Book, id: StreamId, now: Inbox, f: Frame,
          after: ReceiveFlow)
    requires Within(boxes, connection, limit, b) && id in boxes && f.StreamData? && BoxOk(boxes[id])
    requires Took(boxes[id], now, f.offset, f.data, f.fin)
    requires after.maxOffset == connection.maxOffset && after.advertisedOffset == connection.advertisedOffset
    ensures Within(boxes[id := now], after, limit, b)
  {
    hide Merged, SegmentsOk;
  }

  lemma ReadWithin(boxes: Boxes, connection: ReceiveFlow, limit: nat, b: Book, id: StreamId, now: Inbox,
          data: seq<byte>, eof: bool)
    requires Within(boxes, connection, limit, b) && id in boxes && BoxOk(boxes[id])
    requires WasRead(boxes[id], now, data, eof)
    ensures Within(boxes[id := now], connection, limit, b)
    ensures Within(boxes[id := now], Consume(connection, |data|).0, limit, b)
  {
    hide SegmentsOk;
    assert WindowEnd(boxes[id]) <= WindowEnd(now);
  }

  lemma ResetWithin(boxes: Boxes, connection: ReceiveFlow, limit: nat, b: Book, id: StreamId, errorCode: nat)
    requires Within(boxes, connection, limit, b) && id in boxes
    ensures Within(boxes[id := boxes[id].(state := Reset(errorCode))], connection, limit, b)
  {
  }

  lemma OpenedWithin(boxes: Boxes, connection: ReceiveFlow, limit: nat, b: Book, id: StreamId, window: nat)
    requires Within(boxes, connection, limit, b) && id !in boxes && window <= Min(limit, U64_MAX)
    requires id <= U64_MAX && id in b.windows ==> b.windows[id] <= window
    ensures Within(boxes[id := EmptyInbox(window)], connection, limit, b)
  {
  }
}
