/** What the reading side of a connection holds, against what was written, what was put on the
    network and what arrived. */
module Delivery {
  import opened Wrappers
  import opened Bytes
  import opened Varint
  import opened Frames
  import opened SendStream
  import opened ReceiveStream
  import opened Segments
  import opened StreamAccounting
  import opened StreamDelivery
  import opened TransportModel
  import opened Ledger
  import opened Transport
  import Packets

  type Boxes = map<StreamId, Inbox>

  /** The streams at the peer, what reads returned from each, the streams whose end a read has
      reported, and the data packets that could be taken when they arrived. */
  datatype Peer = Peer(boxes: Boxes, taken: map<StreamId, seq<byte>>, ended: set<StreamId>, met: set<nat>)

  // ---- What the reader has, against what was written ----

  function TextOf(texts: map<u64, seq<byte>>, id: nat): seq<byte>
  {
    if id <= U64_MAX && id in texts then texts[id] else []
  }

  predicate EndedIn(ended: set<u64>, id: nat)
  {
    id <= U64_MAX && id in ended
  }

  /** A stream's inbox and everything read from it so far agree with the text written to it. */
  ghost predicate Follows(box: Inbox, got: seq<byte>, eof: bool, text: seq<byte>, fin: bool)
  {
    && Agrees(box.passed, box.segments, text)
    && got + box.ready == box.passed
    && (box.finalOffset.Some? ==> fin && box.finalOffset.value == |text|)
    && (eof ==> fin && got == text)
    && (box.state == Finished ==> box.finalOffset == Some(|box.passed|))
  }

  lemma FollowsWrite(box: Inbox, got: seq<byte>, eof: bool, text: seq<byte>, data: seq<byte>, fin: bool)
    requires Follows(box, got, eof, text, false)
    ensures Follows(box, got, eof, text + data, fin)
  {
    StillAgrees(box.passed, box.segments, text, data);
    hide Agrees;
  }

  lemma FollowsTook(box: Inbox, now: Inbox, got: seq<byte>, eof: bool, text: seq<byte>, ended: bool, item: PendingData)
    requires box.state == Open && Follows(box, got, eof, text, ended)
    requires Piece(item, text, ended) && Took(box, now, item.offset, item.data, item.fin)
    ensures Follows(now, got, eof, text, ended)
  {
    InsertAgrees(box.passed, box.segments, now.passed, now.segments, text, item);
    hide Agrees, Merged;
    assert got + now.ready == (got + box.ready) + now.passed[|box.passed|..];
  }

  lemma FollowsRead(box: Inbox, now: Inbox, got: seq<byte>, eof: bool, text: seq<byte>, ended: bool, data: seq<byte>,
          atEnd: bool)
    requires Follows(box, got, eof, text, ended) && box.ready == data + now.ready
    requires now == box.(ready := now.ready, state := if atEnd then Finished else box.state)
    requires atEnd ==> box.finalOffset == Some(|box.passed|) && now.ready == []
    ensures Follows(now, got + data, eof || atEnd, text, ended)
  {
    PassedPrefix(box.passed, box.segments, text);
    hide Agrees;
    assert (got + data) + now.ready == got + box.ready;
    if eof { assert |got + data| <= |text|; }
  }

  /** What was read is a prefix of the text, and all of it if the end was reported. */
  lemma FollowsPrefix(box: Inbox, got: seq<byte>, eof: bool, text: seq<byte>, fin: bool)
    requires Follows(box, got, eof, text, fin)
    ensures got <= text && (eof ==> got == text && fin)
  {
    PassedPrefix(box.passed, box.segments, text);
  }

  ghost predicate AllFollow(x: Peer, b: Book)
  {
    && x.taken.Keys == x.boxes.Keys && x.ended <= x.boxes.Keys
    && forall id :: id in x.boxes ==>
          Follows(x.boxes[id], x.taken[id], id in x.ended, TextOf(b.texts, id), EndedIn(b.ended, id))
  }

  // ---- What arrived, against what the reader holds ----

  /** The inbox holds what the frame brought; a stream that was reset need not. */
  ghost predicate Arrived(box: Inbox, f: Frame)
    requires f.StreamData?
  {
    || box.state.Reset?
    || (&& (forall p: nat :: f.offset <= p < f.offset + |f.data| ==> Held(box.passed, box.segments, p).Some?)
        && (f.fin ==> box.finalOffset.Some?))
  }

  /** Nothing held is given up, except by a reset. */
  ghost predicate Gains(box: Inbox, now: Inbox)
  {
    || now.state.Reset?
    || (&& !box.state.Reset? && (box.finalOffset.Some? ==> now.finalOffset.Some?)
        && forall p: nat :: Held(box.passed, box.segments, p).Some? ==> Held(now.passed, now.segments, p).Some?)
  }

  lemma StillArrived(box: Inbox, now: Inbox, f: Frame)
    requires f.StreamData? && Arrived(box, f) && Gains(box, now)
    ensures Arrived(now, f)
  {
    hide Held;
  }

  lemma TookArrived(box: Inbox, now: Inbox, f: Frame)
    requires f.StreamData? && box.state == Open && Took(box, now, f.offset, f.data, f.fin)
    ensures Arrived(now, f) && Gains(box, now)
  {
    hide Held;
  }

  /** A finished stream holds everything already. */
  lemma ClosedArrived(box: Inbox, got: seq<byte>, eof: bool, text: seq<byte>, ended: bool, f: Frame)
    requires f.StreamData? && box.state != Open && Follows(box, got, eof, text, ended)
    requires Piece(PendingData(f.offset, f.data, f.fin, 0), text, ended)
    ensures Arrived(box, f)
  {
  }

  /** Whatever could be taken is held. */
  ghost predicate AllArrived(x: Peer, emitted: seq<Emission>)
  {
    forall e :: e in emitted && e.frame.StreamData? && e.packetNumber in x.met ==>
      e.frame.streamId in x.boxes && Arrived(x.boxes[e.frame.streamId], e.frame)
  }

  ghost predicate AllGain(boxes: Boxes, now: Boxes)
  {
    forall id :: id in boxes ==> id in now && Gains(boxes[id], now[id])
  }

  lemma OneGains(boxes: Boxes, id: StreamId, now: Inbox)
    requires id in boxes && Gains(boxes[id], now)
    ensures AllGain(boxes, boxes[id := now])
  {
    forall k | k in boxes ensures Gains(boxes[k], boxes[id := now][k]) { GainsSame(boxes[k]); }
  }

  lemma GainsSame(box: Inbox)
    ensures Gains(box, box)
  {
  }

  lemma AllStillArrived(x: Peer, now: Peer, emitted: seq<Emission>)
    requires AllArrived(x, emitted) && AllGain(x.boxes, now.boxes) && now.met == x.met
    ensures AllArrived(now, emitted)
  {
    hide Arrived, Gains;
    forall e | e in emitted && e.frame.StreamData? && e.packetNumber in x.met
      ensures e.frame.streamId in now.boxes && Arrived(now.boxes[e.frame.streamId], e.frame)
    {
      StillArrived(x.boxes[e.frame.streamId], now.boxes[e.frame.streamId], e.frame);
    }
  }

  /** Only one packet has the number of packet `index`. */
  lemma OneWithNumber(emitted: seq<Emission>, next: nat, index: nat, e: Emission)
    requires NumbersUsed(emitted, next) && index < |emitted|
    requires e in emitted && e.packetNumber == emitted[index].packetNumber
    ensures e == emitted[index]
  {
    var i :| 0 <= i < |emitted| && emitted[i] == e;
  }

  lemma PacketArrived(x: Peer, emitted: seq<Emission>, next: nat, index: nat)
    requires NumbersUsed(emitted, next) && index < |emitted| && AllArrived(x, emitted)
    requires var e := emitted[index];
      e.frame.StreamData? && e.frame.streamId in x.boxes && Arrived(x.boxes[e.frame.streamId], e.frame)
    ensures AllArrived(x.(met := x.met + {emitted[index].packetNumber}), emitted)
  {
    hide Arrived, NumbersUsed;
    forall e | e in emitted && e.packetNumber == emitted[index].packetNumber ensures e == emitted[index] {
      OneWithNumber(emitted, next, index, e);
    }
  }

  /** A number below `next` names the same packet later. */
  lemma SameLater(emitted: seq<Emission>, later: seq<Emission>, next: nat, n: nat)
    requires emitted <= later && NumbersUsed(later, next) && exists e :: e in emitted && e.packetNumber == n
    ensures forall e :: e in later && e.packetNumber == n ==> e in emitted
  {
    var i :| 0 <= i < |emitted| && emitted[i].packetNumber == n;
    assert later[i] == emitted[i];
    forall e | e in later && e.packetNumber == n ensures e in emitted { OneWithNumber(later, next, i, e); }
  }

  // ---- What the reader holds, against what arrived ----

  /** The frame has the byte at position `p` of stream `id`. */
  predicate Spans(f: Frame, id: nat, p: nat)
  {
    f.StreamData? && f.streamId == id && f.offset <= p < f.offset + |f.data|
  }

  /** A packet in `met` brought the byte at `p`. */
  ghost predicate Brought(emitted: seq<Emission>, met: set<nat>, id: nat, p: nat)
  {
    exists e :: e in emitted && e.packetNumber in met && Spans(e.frame, id, p)
  }

  ghost predicate BroughtEnd(emitted: seq<Emission>, met: set<nat>, id: nat)
  {
    exists e ::
      e in emitted && e.packetNumber in met && e.frame.StreamData? && e.frame.streamId == id && e.frame.fin
  }

  /** Whatever an inbox holds came in a packet of `met`. */
  ghost predicate Caused(passed: seq<byte>, segs: seq<Segment>, finalOffset: Option<nat>, emitted: seq<Emission>,
          met: set<nat>, id: nat)
  {
    && (forall p: nat :: Held(passed, segs, p).Some? ==> Brought(emitted, met, id, p))
    && (finalOffset.Some? ==> BroughtEnd(emitted, met, id))
  }

  ghost predicate AllCaused(x: Peer, emitted: seq<Emission>)
  {
    forall id :: id in x.boxes ==>
      Caused(x.boxes[id].passed, x.boxes[id].segments, x.boxes[id].finalOffset, emitted, x.met, id)
  }

  lemma CausedMore(box: Inbox, emitted: seq<Emission>, later: seq<Emission>, met: set<nat>, more: set<nat>, id: nat)
    requires Caused(box.passed, box.segments, box.finalOffset, emitted, met, id) && emitted <= later && met <= more
    ensures Caused(box.passed, box.segments, box.finalOffset, later, more, id)
  {
    hide Held, Spans;
    assert forall e :: e in emitted ==> e in later;
    forall p: nat | Held(box.passed, box.segments, p).Some? ensures Brought(later, more, id, p) {
      assert Brought(emitted, met, id, p);
    }
  }

  lemma AllCausedMore(x: Peer, emitted: seq<Emission>, later: seq<Emission>, more: set<nat>)
    requires AllCaused(x, emitted) && emitted <= later && x.met <= more
    ensures AllCaused(x.(met := more), later)
  {
    hide Caused;
    forall id | id in x.boxes
      ensures Caused(x.boxes[id].passed, x.boxes[id].segments, x.boxes[id].finalOffset, later, more, id)
    {
      CausedMore(x.boxes[id], emitted, later, x.met, more, id);
    }
  }

  /** What the frame brought in addition came in its packet. */
  lemma TookCaused(box: Inbox, now: Inbox, emitted: seq<Emission>, met: set<nat>, e: Emission)
    requires e.frame.StreamData? && Took(box, now, e.frame.offset, e.frame.data, e.frame.fin)
    requires e in emitted && e.packetNumber in met
    requires Caused(box.passed, box.segments, box.finalOffset, emitted, met, e.frame.streamId)
    ensures Caused(now.passed, now.segments, now.finalOffset, emitted, met, e.frame.streamId)
  {
    hide Held;
    var f := e.frame;
    forall p: nat | Held(now.passed, now.segments, p).Some? ensures Brought(emitted, met, f.streamId, p) {
      if Held(box.passed, box.segments, p).None? { assert Spans(f, f.streamId, p); }
    }
  }

  // ---- The peer's steps ----

  /** What the peer has agrees with what was written, holds all that could be taken, and nothing
      else. */
  ghost predicate PeerOk(x: Peer, b: Book, emitted: seq<Emission>)
  {
    AllFollow(x, b) && AllArrived(x, emitted) && AllCaused(x, emitted)
  }

  lemma FollowsOne(x: Peer, b: Book, id: StreamId)
    requires AllFollow(x, b) && id in x.boxes
    ensures id in x.taken
    ensures Follows(x.boxes[id], x.taken[id], id in x.ended, TextOf(b.texts, id), EndedIn(b.ended, id))
  {
  }

  /** Stream `id` moved on, `data` was read from it and perhaps its end was reported. */
  function Moved(x: Peer, id: StreamId, now: Inbox, data: seq<byte>, atEnd: bool): Peer
    requires id in x.taken
  {
    Peer(x.boxes[id := now], x.taken[id := x.taken[id] + data], if atEnd then x.ended + {id} else x.ended, x.met)
  }

  lemma OneMoved(x: Peer, b: Book, id: StreamId, now: Inbox, data: seq<byte>, atEnd: bool)
    requires AllFollow(x, b) && id in x.boxes
    requires Follows(now, x.taken[id] + data, id in x.ended || atEnd, TextOf(b.texts, id), EndedIn(b.ended, id))
    ensures AllFollow(Moved(x, id, now, data, atEnd), b)
  {
    hide Follows, TextOf, EndedIn;
  }

  lemma OneCaused(x: Peer, emitted: seq<Emission>, id: StreamId, now: Inbox)
    requires AllCaused(x, emitted) && id in x.boxes
    requires Caused(now.passed, now.segments, now.finalOffset, emitted, x.met, id)
    ensures AllCaused(x.(boxes := x.boxes[id := now]), emitted)
  {
    hide Caused;
  }

  /** The data of a packet that could be taken. */
  lemma PacketTaken(x: Peer, b: Book, emitted: seq<Emission>, next: nat, index: nat, now: Boxes)
    requires NumbersUsed(emitted, next) && index < |emitted| && emitted[index].frame.StreamData?
    requires var f := emitted[index].frame;
      && f.streamId in x.boxes && f.streamId in now
      && Piece(PendingData(f.offset, f.data, f.fin, 0), TextOf(b.texts, f.streamId), EndedIn(b.ended, f.streamId))
      && if x.boxes[f.streamId].state == Open
         then Took(x.boxes[f.streamId], now[f.streamId], f.offset, f.data, f.fin)
             && now == x.boxes[f.streamId as nat := now[f.streamId]]
         else now == x.boxes
    requires PeerOk(x, b, emitted)
    ensures PeerOk(x.(boxes := now, met := x.met + {emitted[index].packetNumber}), b, emitted)
  {
    hide Follows, Took, Piece, Arrived, AllFollow, AllArrived, Gains, AllGain, TextOf, EndedIn, NumbersUsed, AllCaused;
    hide Caused;
    var e, more := emitted[index], x.met + {emitted[index].packetNumber};
    var f := e.frame;
    var id: StreamId := f.streamId;
    FollowsOne(x, b, id);
    AllCausedMore(x, emitted, emitted, more);
    CausedOne(x.(met := more), emitted, id);
    if x.boxes[id].state == Open {
      FollowsTook(x.boxes[id], now[id], x.taken[id], id in x.ended, TextOf(b.texts, id), EndedIn(b.ended, id),
        PendingData(f.offset, f.data, f.fin, 0));
      assert x.taken[id] + [] == x.taken[id];
      assert x.taken[id := x.taken[id]] == x.taken;
      OneMoved(x, b, id, now[id], [], false);
      TookArrived(x.boxes[id], now[id], f);
      OneGains(x.boxes, id, now[id]);
      AllStillArrived(x, x.(boxes := now), emitted);
      TookCaused(x.boxes[id], now[id], emitted, more, e);
      OneCaused(x.(met := more), emitted, id, now[id]);
    } else {
      ClosedArrived(x.boxes[id], x.taken[id], id in x.ended, TextOf(b.texts, id), EndedIn(b.ended, id), f);
      assert x.(boxes := now) == x;
    }
    PacketArrived(x.(boxes := now), emitted, next, index);
    FollowMet(x.(boxes := now), b, more);
  }

  lemma FollowMet(x: Peer, b: Book, met: set<nat>)
    requires AllFollow(x, b)
    ensures AllFollow(x.(met := met), b)
  {
    hide Follows;
  }

  lemma CausedOne(x: Peer, emitted: seq<Emission>, id: StreamId)
    requires AllCaused(x, emitted) && id in x.boxes
    ensures Caused(x.boxes[id].passed, x.boxes[id].segments, x.boxes[id].finalOffset, emitted, x.met, id)
  {
  }

  lemma DataRead(x: Peer, b: Book, emitted: seq<Emission>, id: StreamId, now: Inbox, data: seq<byte>, eof: bool)
    requires id in x.boxes && WasRead(x.boxes[id], now, data, eof) && PeerOk(x, b, emitted)
    ensures id in x.taken && PeerOk(Moved(x, id, now, data, eof), b, emitted)
  {
    hide Follows, Arrived, AllFollow, AllArrived, AllGain, TextOf, EndedIn, AllCaused, Caused;
    FollowsOne(x, b, id);
    FollowsRead(x.boxes[id], now, x.taken[id], id in x.ended, TextOf(b.texts, id), EndedIn(b.ended, id), data, eof);
    OneMoved(x, b, id, now, data, eof);
    OneGains(x.boxes, id, now);
    AllStillArrived(x, Moved(x, id, now, data, eof), emitted);
    CausedOne(x, emitted, id);
    OneCaused(x, emitted, id, now);
    CausedBoxes(x.(boxes := x.boxes[id := now]), Moved(x, id, now, data, eof), emitted);
  }

  lemma CausedBoxes(x: Peer, y: Peer, emitted: seq<Emission>)
    requires AllCaused(x, emitted) && x.boxes == y.boxes && x.met == y.met
    ensures AllCaused(y, emitted)
  {
    hide Caused;
  }

  lemma StreamOpened(x: Peer, b: Book, emitted: seq<Emission>, id: StreamId, size: nat)
    requires id !in x.boxes && PeerOk(x, b, emitted)
    ensures PeerOk(x.(boxes := x.boxes[id := EmptyInbox(size)], taken := x.taken[id := []]), b, emitted)
  {
    hide Arrived, TextOf, EndedIn, Brought;
    assert Follows(EmptyInbox(size), [], false, TextOf(b.texts, id), EndedIn(b.ended, id));
    assert Caused([], [], None, emitted, x.met, id);
    hide Follows, Caused;
  }

  lemma StreamWasReset(x: Peer, b: Book, emitted: seq<Emission>, id: StreamId, errorCode: nat)
    requires id in x.boxes && PeerOk(x, b, emitted)
    ensures PeerOk(x.(boxes := x.boxes[id := x.boxes[id].(state := Reset(errorCode))]), b, emitted)
  {
    hide Arrived, AllFollow, AllArrived, AllGain, TextOf, EndedIn, Agrees, AllCaused, Caused;
    var now := x.boxes[id].(state := Reset(errorCode));
    FollowsOne(x, b, id);
    assert x.taken[id] + [] == x.taken[id];
    assert x.taken[id := x.taken[id]] == x.taken;
    OneMoved(x, b, id, now, [], false);
    OneGains(x.boxes, id, now);
    AllStillArrived(x, x.(boxes := x.boxes[id := now]), emitted);
    CausedOne(x, emitted, id);
    OneCaused(x, emitted, id, now);
  }

  // ---- What was written, against the chunks ----

  predicate InChunk(b: Book, t: Tag, p: nat)
  {
    t in b.chunks && t.offset <= p < t.offset + |b.chunks[t].data|
  }

  ghost predicate InSomeChunk(b: Book, id: u64, p: nat)
  {
    exists t: Tag :: t.stream == id && InChunk(b, t, p)
  }

  ghost predicate EndInSomeChunk(b: Book, id: u64)
  {
    exists t :: t in b.chunks && t.stream == id && b.chunks[t].fin
  }

  /** Every byte written is in some chunk, and so is the end of every text that has ended. */
  ghost predicate Complete(b: Book)
  {
    && (forall id, p: nat :: id in b.texts && p < |b.texts[id]| ==> InSomeChunk(b, id, p))
    && forall id :: id in b.ended ==> EndInSomeChunk(b, id)
  }

  /** No byte is in two chunks, no stream ends twice, and a chunk without bytes marks an end. */
  ghost predicate Tiles(b: Book)
  {
    && (forall t: Tag, u: Tag, p: nat :: t.stream == u.stream && InChunk(b, t, p) && InChunk(b, u, p) ==> t == u)
    && (forall t, u :: t in b.chunks && u in b.chunks && t.stream == u.stream && b.chunks[t].fin && b.chunks[u].fin ==>
          t == u)
    && (forall t :: t in b.chunks ==> |b.chunks[t].data| > 0 || b.chunks[t].fin)
  }

  /** Every chunk stays what it is. */
  ghost predicate KeepsChunks(b: Book, c: Book)
  {
    forall t :: t in b.chunks ==> t in c.chunks && c.chunks[t] == b.chunks[t]
  }

  lemma OldPlace(b: Book, c: Book, id: u64, p: nat)
    requires KeepsChunks(b, c) && InSomeChunk(b, id, p)
    ensures InSomeChunk(c, id, p)
  {
    var t: Tag :| t.stream == id && InChunk(b, t, p);
    assert InChunk(c, t, p);
  }

  lemma OldEnd(b: Book, c: Book, id: u64)
    requires KeepsChunks(b, c) && EndInSomeChunk(b, id)
    ensures EndInSomeChunk(c, id)
  {
    var t :| t in b.chunks && t.stream == id && b.chunks[t].fin;
    assert c.chunks[t] == b.chunks[t];
  }

  /** The book has a chunk for every item. */
  ghost predicate HasItems(c: Book, id: u64, items: seq<PendingData>)
  {
    forall i :: 0 <= i < |items| ==>
      Tag(id, items[i].offset) in c.chunks && c.chunks[Tag(id, items[i].offset)] == Chunk(items[i].data, items[i].fin)
  }

  /** Beside the chunks of `b` there are only the items. */
  ghost predicate OnlyItems(b: Book, c: Book, id: u64, items: seq<PendingData>)
  {
    forall t :: t in c.chunks ==> t in b.chunks || exists i :: 0 <= i < |items| && t == Tag(id, items[i].offset)
  }

  lemma NewPlace(c: Book, id: u64, items: seq<PendingData>, p: nat)
    requires HasItems(c, id, items) && HoldsAt(items, p)
    ensures InSomeChunk(c, id, p)
  {
    var i :| 0 <= i < |items| && items[i].offset <= p < items[i].offset + |items[i].data|;
    assert InChunk(c, Tag(id, items[i].offset), p);
  }

  lemma {:induction false} RegisteredHas(b: Book, id: u64, items: seq<PendingData>)
    requires forall i :: 0 <= i < |items| ==> Tag(id, items[i].offset) !in b.chunks
    requires forall i, j :: 0 <= i < j < |items| ==> items[i].offset < items[j].offset
    ensures var c := Registered(b, id, items);
      && c.texts == b.texts && c.ended == b.ended
      && KeepsChunks(b, c) && HasItems(c, id, items)
  {
    if |items| > 0 {
      var init := items[..|items| - 1];
      RegisteredHas(b, id, init);
      assert forall i :: 0 <= i < |init| ==> init[i] == items[i];
    }
  }

  /** A write keeps every byte in some chunk, and in no two. */
  lemma WrittenComplete(limits: Bounds, s: Sender, id: u64, data: seq<byte>, fin: bool)
    requires Sound(limits, s, None) && Complete(s.book) && Tiles(s.book) && id in s.queues && !s.queues[id].finRequested
    requires s.queues[id].nextOffset + |data| <= MAX_VALUE
    ensures var c := Written(s.book, id, data, fin,
          Cut(s.queues[id].nextOffset, data, fin, Packets.ChunkLimit(limits.maxDatagramSize)));
      Complete(c) && Tiles(c)
  {
    hide QueuesOk, FlightsOk, BookOk, BytesOk, WindowOk, TimersOk, Cut, Tiles, Complete;
    var b, next, size := s.book, s.queues[id].nextOffset, Packets.ChunkLimit(limits.maxDatagramSize);
    var items := Cut(next, data, fin, size);
    CutFresh(s.queues, b, id, data, fin, limits.maxDatagramSize);
    RegisteredHas(b, id, items);
    RegisteredTags(b, id, items);
    WriteComplete(b, id, data, fin, size);
    OldChunks(s.queues, b, id);
    WriteTiles(b, id, data, fin, size);
  }

  lemma WriteComplete(b: Book, id: u64, data: seq<byte>, fin: bool, size: nat)
    requires Complete(b) && id in b.texts && size > 0
    requires var items := Cut(|b.texts[id]|, data, fin, size); var c := Written(b, id, data, fin, items);
      KeepsChunks(b, c) && HasItems(c, id, items)
    ensures Complete(Written(b, id, data, fin, Cut(|b.texts[id]|, data, fin, size)))
  {
    hide InSomeChunk, EndInSomeChunk, Registered, KeepsChunks, HasItems, HoldsAt;
    var text, items := b.texts[id], Cut(|b.texts[id]|, data, fin, size);
    var c := Written(b, id, data, fin, items);
    forall k, p: nat | k in c.texts && p < |c.texts[k]| ensures InSomeChunk(c, k, p) {
      if k != id || p < |text| {
        OldPlace(b, c, k, p);
      } else {
        CutCovers(|text|, data, fin, size, p);
        NewPlace(c, id, items, p);
      }
    }
    forall k | k in c.ended ensures EndInSomeChunk(c, k) {
      if k in b.ended { OldEnd(b, c, k); } else { NewEnd(b, c, id, data, size); }
    }
  }

  lemma NewEnd(b: Book, c: Book, id: u64, data: seq<byte>, size: nat)
    requires id in b.texts && size > 0 && HasItems(c, id, Cut(|b.texts[id]|, data, true, size))
    ensures EndInSomeChunk(c, id)
  {
    hide Cut, Pieces, Joined;
    var items := Cut(|b.texts[id]|, data, true, size);
    CutIsOk(b.texts[id], data, true, size);
    assert c.chunks[Tag(id, items[|items| - 1].offset)].fin;
  }

  /** The chunks of the stream end where it has been written to, and none of them ends it. */
  ghost predicate Before(b: Book, id: u64, length: nat)
  {
    forall t :: t in b.chunks && t.stream == id ==> t.offset + |b.chunks[t].data| <= length && !b.chunks[t].fin
  }

  lemma OldChunks(queues: Queues, b: Book, id: u64)
    requires OffsetsOk(queues, b) && id in queues && !queues[id].finRequested
    ensures id in b.texts && |b.texts[id]| == queues[id].nextOffset && Before(b, id, |b.texts[id]|)
  {
    forall t | t in b.chunks && t.stream == id
      ensures t.offset + |b.chunks[t].data| <= |b.texts[id]| && !b.chunks[t].fin
    {
      assert ChunkOf(t, b.chunks[t], b.texts[id], id in b.ended);
    }
  }

  lemma WriteTiles(b: Book, id: u64, data: seq<byte>, fin: bool, size: nat)
    requires Tiles(b) && id in b.texts && size > 0 && Before(b, id, |b.texts[id]|)
    requires var items := Cut(|b.texts[id]|, data, fin, size); var c := Written(b, id, data, fin, items);
      KeepsChunks(b, c) && HasItems(c, id, items) && OnlyItems(b, c, id, items)
    ensures Tiles(Written(b, id, data, fin, Cut(|b.texts[id]|, data, fin, size)))
  {
    hide Cut, Registered, Pieces, Joined, Tiles, KeepsChunks, HasItems, OnlyItems, Before;
    var text, items := b.texts[id], Cut(|b.texts[id]|, data, fin, size);
    CutIsOk(text, data, fin, size);
    var c := Written(b, id, data, fin, items);
    forall t | t in c.chunks ensures t in b.chunks || FromItem(c, id, items, t, |text|) {
      NewChunk(b, c, id, items, |text|, t);
    }
    CutApart(items, text, data, fin, size);
    hide CutOk;
    TilesWith(b, c, id, items, |text|);
  }

  /** The items follow each other, and only the last may be an end. */
  ghost predicate ItemsApart(items: seq<PendingData>)
  {
    && (forall i, j :: 0 <= i < j < |items| ==>
          items[i].offset + |items[i].data| <= items[j].offset && items[i].offset < items[j].offset && !items[i].fin)
    && (forall i :: 0 <= i < |items| ==> |items[i].data| > 0 || items[i].fin)
  }

  lemma CutApart(items: seq<PendingData>, before: seq<byte>, data: seq<byte>, fin: bool, size: nat)
    requires CutOk(items, before, data, fin, size)
    ensures ItemsApart(items)
  {
    hide Joined;
    forall i | 0 <= i < |items| ensures |items[i].data| > 0 || items[i].fin {
      assert Piece(items[i], before + data, fin) && Piece(items[|items| - 1], before + data, fin);
    }
  }

  lemma TilesWith(b: Book, c: Book, id: u64, items: seq<PendingData>, start: nat)
    requires Tiles(b) && KeepsChunks(b, c) && Before(b, id, start) && ItemsApart(items)
    requires forall t :: t in c.chunks ==> t in b.chunks || FromItem(c, id, items, t, start)
    ensures Tiles(c)
  {
    hide Tiles, KeepsChunks, Before, ItemsApart, FromItem, InChunk;
    forall t: Tag, u: Tag, p: nat | t.stream == u.stream && InChunk(c, t, p) && InChunk(c, u, p) ensures t == u {
      assert t in c.chunks && u in c.chunks by { InSome(c, t, p); InSome(c, u, p); }
      SameByte(b, c, id, items, start, t, u, p);
    }
    forall t, u | t in c.chunks && u in c.chunks && t.stream == u.stream && c.chunks[t].fin && c.chunks[u].fin
      ensures t == u
    {
      SameEnd(b, c, id, items, start, t, u);
    }
    forall t | t in c.chunks ensures |c.chunks[t].data| > 0 || c.chunks[t].fin {
      SomeByteOrEnd(b, c, id, items, start, t);
    }
    TilesIs(c);
  }

  lemma InSome(b: Book, t: Tag, p: nat)
    requires InChunk(b, t, p)
    ensures t in b.chunks
  {
  }

  lemma TilesIs(b: Book)
    requires forall t: Tag, u: Tag, p: nat :: t.stream == u.stream && InChunk(b, t, p) && InChunk(b, u, p) ==> t == u
    requires forall t, u ::
      t in b.chunks && u in b.chunks && t.stream == u.stream && b.chunks[t].fin && b.chunks[u].fin ==> t == u
    requires forall t :: t in b.chunks ==> |b.chunks[t].data| > 0 || b.chunks[t].fin
    ensures Tiles(b)
  {
  }

  lemma SameByte(b: Book, c: Book, id: u64, items: seq<PendingData>, start: nat, t: Tag, u: Tag, p: nat)
    requires Tiles(b) && KeepsChunks(b, c) && Before(b, id, start) && ItemsApart(items)
    requires t.stream == u.stream && InChunk(c, t, p) && InChunk(c, u, p)
    requires t in b.chunks || FromItem(c, id, items, t, start)
    requires u in b.chunks || FromItem(c, id, items, u, start)
    ensures t == u
  {
    if t in b.chunks && u in b.chunks {
      assert InChunk(b, t, p) && InChunk(b, u, p);
    } else {
      hide Tiles;
    }
  }

  lemma SameEnd(b: Book, c: Book, id: u64, items: seq<PendingData>, start: nat, t: Tag, u: Tag)
    requires Tiles(b) && KeepsChunks(b, c) && Before(b, id, start) && ItemsApart(items)
    requires t in c.chunks && u in c.chunks && t.stream == u.stream && c.chunks[t].fin && c.chunks[u].fin
    requires t in b.chunks || FromItem(c, id, items, t, start)
    requires u in b.chunks || FromItem(c, id, items, u, start)
    ensures t == u
  {
  }

  lemma SomeByteOrEnd(b: Book, c: Book, id: u64, items: seq<PendingData>, start: nat, t: Tag)
    requires Tiles(b) && KeepsChunks(b, c) && ItemsApart(items) && t in c.chunks
    requires t in b.chunks || FromItem(c, id, items, t, start)
    ensures |c.chunks[t].data| > 0 || c.chunks[t].fin
  {
  }

  /** The chunk is one of the items. */
  ghost predicate FromItem(c: Book, id: u64, items: seq<PendingData>, t: Tag, start: nat)
    requires t in c.chunks
  {
    exists i :: 0 <= i < |items| && start <= items[i].offset && t == Tag(id, items[i].offset)
        && c.chunks[t] == Chunk(items[i].data, items[i].fin)
  }

  lemma NewChunk(b: Book, c: Book, id: u64, items: seq<PendingData>, start: nat, t: Tag)
    requires HasItems(c, id, items) && OnlyItems(b, c, id, items) && t in c.chunks
    requires forall i :: 0 <= i < |items| ==> start <= items[i].offset
    ensures t in b.chunks || FromItem(c, id, items, t, start)
  {
  }

  // ---- The sender's steps ----

  /** What the sender puts on the network is a piece of what was written. */
  lemma FramePiece(limits: Bounds, s: Sender, emitted: seq<Emission>, e: Emission)
    requires Sound(limits, s, None) && LogOk(emitted, s.book) && e in emitted && e.frame.StreamData?
    ensures Piece(PendingData(e.frame.offset, e.frame.data, e.frame.fin, 0), TextOf(s.book.texts, e.frame.streamId),
        EndedIn(s.book.ended, e.frame.streamId))
  {
    hide QueuesOk, FlightsOk, BookOk, BytesOk, WindowOk, TimersOk, EmissionsFit, Counted, FlightsLogged, Piece;
    assert ChunkOf(FrameTag(e.frame), Chunk(e.frame.data, e.frame.fin), s.book.texts[e.frame.streamId],
        e.frame.streamId in s.book.ended);
  }

  lemma AllFollowSame(x: Peer, b: Book, c: Book)
    requires AllFollow(x, b)
    requires forall id: nat ::
      TextOf(b.texts, id) == TextOf(c.texts, id) && EndedIn(b.ended, id) == EndedIn(c.ended, id)
    ensures AllFollow(x, c)
  {
    hide Follows, TextOf, EndedIn;
  }

  lemma AllFollowWrite(x: Peer, b: Book, c: Book, id: u64, data: seq<byte>, fin: bool)
    requires AllFollow(x, b) && id in b.texts && id !in b.ended
    requires c.texts == b.texts[id := b.texts[id] + data] && c.ended == if fin then b.ended + {id} else b.ended
    ensures AllFollow(x, c)
  {
    hide Follows;
    forall k | k in x.boxes
      ensures Follows(x.boxes[k], x.taken[k], k in x.ended, TextOf(c.texts, k), EndedIn(c.ended, k))
    {
      if k == id { FollowsWrite(x.boxes[k], x.taken[k], k in x.ended, b.texts[id], data, fin); }
    }
  }

  lemma WriteTexts(b: Book, id: u64, data: seq<byte>, fin: bool, items: seq<PendingData>)
    requires id in b.texts
    ensures var c := Written(b, id, data, fin, items);
      c.texts == b.texts[id := b.texts[id] + data] && c.ended == if fin then b.ended + {id} else b.ended
  {
  }

  lemma CompleteSame(b: Book, c: Book)
    requires Complete(b) && Tiles(b) && c.chunks == b.chunks && c.ended == b.ended
    requires forall id :: id in c.texts ==> (id in b.texts && c.texts[id] == b.texts[id]) || c.texts[id] == []
    ensures Complete(c) && Tiles(c)
  {
    forall id, p: nat | id in c.texts && p < |c.texts[id]| ensures InSomeChunk(c, id, p) { OldPlace(b, c, id, p); }
    forall id | id in c.ended ensures EndInSomeChunk(c, id) { OldEnd(b, c, id); }
    assert forall t, p: nat :: InChunk(c, t, p) ==> InChunk(b, t, p);
  }

  // ---- Conclusions ----

  /** What the reader got is a prefix of what was written, and all of it once the end was reported. */
  ghost predicate InOrder(written: map<u64, seq<byte>>, finished: set<u64>, taken: map<StreamId, seq<byte>>,
          ended: set<StreamId>)
  {
    forall id :: id in taken ==>
      && taken[id] <= TextOf(written, id)
      && (id in ended ==> taken[id] == TextOf(written, id) && EndedIn(finished, id))
  }

  lemma FollowInOrder(x: Peer, b: Book)
    requires AllFollow(x, b)
    ensures InOrder(b.texts, b.ended, x.taken, x.ended)
  {
    hide Follows;
    forall id | id in x.taken
      ensures x.taken[id] <= TextOf(b.texts, id)
      ensures (id in x.ended ==> x.taken[id] == TextOf(b.texts, id) && EndedIn(b.ended, id))
    {
      FollowsPrefix(x.boxes[id], x.taken[id], id in x.ended, TextOf(b.texts, id), EndedIn(b.ended, id));
    }
  }

  /** All that was written to stream `id` has been delivered, its end included; a stream that was
      reset is excepted. */
  ghost predicate DeliveredAll(x: Peer, written: map<u64, seq<byte>>, finished: set<u64>, id: u64)
    requires id in written
  {
    && (written[id] != [] || id in finished ==> id in x.boxes)
    && (id in x.boxes && !x.boxes[id].state.Reset? ==>
          && id in x.taken && x.taken[id] + x.boxes[id].ready == written[id]
          && (id in finished ==> x.boxes[id].finalOffset == Some(|written[id]|)))
  }

  /** Each chunk of the stream went out in a packet of `met`. */
  ghost predicate ChunksBrought(b: Book, emitted: seq<Emission>, met: set<nat>, id: u64)
  {
    forall t :: t in b.chunks && t.stream == id ==> ChunkBrought(emitted, met, t)
  }

  ghost predicate ChunkBrought(emitted: seq<Emission>, met: set<nat>, t: Tag)
  {
    exists pn :: pn in met && Carried(emitted, pn, t)
  }

  /** A chunk that was brought has arrived. */
  lemma ChunkArrived(x: Peer, b: Book, emitted: seq<Emission>, t: Tag)
    requires t in b.chunks && Truthful(emitted, b) && ChunkBrought(emitted, x.met, t) && AllArrived(x, emitted)
    ensures t.stream in x.boxes
    ensures Arrived(x.boxes[t.stream], StreamData(t.stream, t.offset, b.chunks[t].fin, b.chunks[t].data))
  {
    hide Arrived;
    var pn :| pn in x.met && Carried(emitted, pn, t);
    var e :| e in emitted && e.packetNumber == pn && HandOf(e.frame) == Some(t);
    assert e.frame == StreamData(t.stream, t.offset, b.chunks[t].fin, b.chunks[t].data);
  }

  /** Delivery stops only at a byte that is missing. */
  lemma AllHeld(box: Inbox, text: seq<byte>)
    requires Agrees(box.passed, box.segments, text) && BoxOk(box)
    requires forall p: nat :: p < |text| ==> Held(box.passed, box.segments, p).Some?
    ensures box.passed == text
  {
    PassedPrefix(box.passed, box.segments, text);
    ByteOutside(box.segments, |box.passed|);
    hide Agrees, BoxOk;
    assert |box.passed| < |text| ==> Held(box.passed, box.segments, |box.passed|).Some?;
  }

  /** The byte at `p` has arrived. */
  lemma ByteArrived(x: Peer, b: Book, emitted: seq<Emission>, id: u64, p: nat)
    requires ChunksBrought(b, emitted, x.met, id) && Truthful(emitted, b) && AllArrived(x, emitted)
    requires InSomeChunk(b, id, p)
    ensures id in x.boxes && (x.boxes[id].state.Reset? || Held(x.boxes[id].passed, x.boxes[id].segments, p).Some?)
  {
    hide Truthful, AllArrived, Held, ChunkBrought;
    var t: Tag :| t.stream == id && InChunk(b, t, p);
    ChunkArrived(x, b, emitted, t);
  }

  lemma StreamDelivered(x: Peer, b: Book, emitted: seq<Emission>, id: u64)
    requires ChunksBrought(b, emitted, x.met, id) && Truthful(emitted, b) && Complete(b) && id in b.texts
    requires PeerOk(x, b, emitted) && (id in x.boxes ==> BoxOk(x.boxes[id]))
    ensures DeliveredAll(x, b.texts, b.ended, id)
  {
    hide Truthful, AllFollow, AllArrived, AllCaused, Held, Agrees, BoxOk, ChunkBrought;
    forall p: nat | p < |b.texts[id]|
      ensures id in x.boxes && (x.boxes[id].state.Reset? || Held(x.boxes[id].passed, x.boxes[id].segments, p).Some?)
    {
      ByteArrived(x, b, emitted, id, p);
    }
    if id in b.ended {
      assert EndInSomeChunk(b, id);
      var t :| t in b.chunks && t.stream == id && b.chunks[t].fin;
      ChunkArrived(x, b, emitted, t);
    }
    if b.texts[id] != [] {
      assert InSomeChunk(b, id, 0);
      ByteArrived(x, b, emitted, id, 0);
    }
    if id in x.boxes && !x.boxes[id].state.Reset? {
      FollowsOne(x, b, id);
      AllHeld(x.boxes[id], b.texts[id]);
    }
  }

  /** Every chunk is a piece of its stream's text. */
  ghost predicate ChunksOfTexts(b: Book)
  {
    forall t :: t in b.chunks ==>
      t.stream in b.texts && ChunkOf(t, b.chunks[t], b.texts[t.stream], t.stream in b.ended)
  }

  lemma BroughtByte(b: Book, emitted: seq<Emission>, met: set<nat>, t: Tag, p: nat)
    requires Truthful(emitted, b) && Tiles(b) && InChunk(b, t, p) && Brought(emitted, met, t.stream, p)
    ensures ChunkBrought(emitted, met, t)
  {
    var e :| e in emitted && e.packetNumber in met && Spans(e.frame, t.stream, p);
    assert InChunk(b, FrameTag(e.frame), p);
    assert Carried(emitted, e.packetNumber, t);
  }

  lemma BroughtLast(b: Book, emitted: seq<Emission>, met: set<nat>, t: Tag)
    requires Truthful(emitted, b) && Tiles(b) && t in b.chunks && b.chunks[t].fin && BroughtEnd(emitted, met, t.stream)
    ensures ChunkBrought(emitted, met, t)
  {
    var e :|
      e in emitted && e.packetNumber in met && e.frame.StreamData? && e.frame.streamId == t.stream && e.frame.fin;
    assert FrameTag(e.frame) == t;
    assert Carried(emitted, e.packetNumber, t);
  }

  /** The chunk's bytes are held, and the end is known if it has no bytes. */
  lemma DeliveredChunk(x: Peer, b: Book, emitted: seq<Emission>, t: Tag)
    requires DeliveredHere(x, b, t.stream) && t in b.chunks && ChunksOfTexts(b) && Tiles(b)
    requires PeerOk(x, b, emitted) && Truthful(emitted, b)
    ensures ChunkBrought(emitted, x.met, t)
  {
    hide Truthful, AllFollow, AllArrived, ChunkBrought;
    var box, chunk, text := x.boxes[t.stream], b.chunks[t], b.texts[t.stream];
    FollowsOne(x, b, t.stream);
    CausedOne(x, emitted, t.stream);
    hide AllCaused, Follows;
    assert ChunkOf(t, chunk, text, t.stream in b.ended);
    if |chunk.data| > 0 {
      assert t.offset < |box.passed|;
      assert Held(box.passed, box.segments, t.offset).Some?;
      hide Tiles;
      BroughtByte(b, emitted, x.met, t, t.offset);
    } else {
      assert chunk.fin;
      hide Tiles;
      BroughtLast(b, emitted, x.met, t);
    }
  }

  /** The stream is open at the peer, and all of its text passed, its end included. */
  ghost predicate DeliveredHere(x: Peer, b: Book, id: u64)
  {
    && id in b.texts && id in x.boxes && id in x.taken
    && x.boxes[id].passed == b.texts[id] && (id in b.ended ==> x.boxes[id].finalOffset.Some?)
  }

  /** A stream that was not reset is delivered if and only if each of its chunks went out in some
      packet that could be taken when it arrived. */
  lemma DeliveredIff(x: Peer, b: Book, emitted: seq<Emission>, id: u64)
    requires PeerOk(x, b, emitted) && Truthful(emitted, b) && Complete(b) && Tiles(b) && ChunksOfTexts(b)
    requires id in b.texts && (id in x.boxes ==> BoxOk(x.boxes[id]) && !x.boxes[id].state.Reset?)
    ensures DeliveredAll(x, b.texts, b.ended, id) <==> ChunksBrought(b, emitted, x.met, id)
  {
    hide Truthful, AllFollow, AllArrived, AllCaused, Complete, Tiles, BoxOk, ChunkBrought;
    if ChunksBrought(b, emitted, x.met, id) { StreamDelivered(x, b, emitted, id); }
    if DeliveredAll(x, b.texts, b.ended, id) {
      forall t | t in b.chunks && t.stream == id ensures ChunkBrought(emitted, x.met, t) {
        ChunkCounts(b, t);
        FollowsOne(x, b, id);
        DeliveredChunk(x, b, emitted, t);
      }
    }
  }

  /** A stream with a chunk was written to. */
  lemma ChunkCounts(b: Book, t: Tag)
    requires ChunksOfTexts(b) && Tiles(b) && t in b.chunks
    ensures t.stream in b.texts && (b.texts[t.stream] != [] || t.stream in b.ended)
  {
    assert ChunkOf(t, b.chunks[t], b.texts[t.stream], t.stream in b.ended);
  }
}
