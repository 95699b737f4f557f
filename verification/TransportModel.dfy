/** The reliable sender as values: congestion window, send queues, the table of sent packets,
    and the book that follows every chunk from write to acknowledgement. */
module TransportModel {
  import opened Wrappers
  import opened Bytes
  import opened Sums
  import opened Varint
  import opened Frames
  import opened SendStream
  import opened SlotTable
  import opened Timers
  import Packets

  const U32_MAX: nat := 0xFFFF_FFFF

  // ---- Congestion control ----

  /** `CongestionController`, a plain copied record. */
  datatype Congestion = Congestion(cwnd: nat, ssthresh: nat, bytesInFlight: nat, minCwnd: nat, maxCwnd: nat, mss: nat)

  predicate CanSend(c: Congestion, bytes: nat)
  {
    SatAdd(c.bytesInFlight, bytes) <= c.cwnd
  }

  function OnSent(c: Congestion, bytes: nat): Congestion
  {
    c.(bytesInFlight := SatAdd(c.bytesInFlight, bytes))
  }

  /** Congestion avoidance: about one segment more for each window acknowledged. */
  function Increment(c: Congestion, bytes: nat): nat
  {
    Max(Min(c.mss * bytes, U64_MAX) / Max(c.cwnd, 1), 1)
  }

  function OnAcked(c: Congestion, bytes: nat): Congestion
  {
    var grown := if c.cwnd < c.ssthresh then SatAdd(c.cwnd, bytes) else SatAdd(c.cwnd, Increment(c, bytes));
    c.(bytesInFlight := SatSub(c.bytesInFlight, bytes), cwnd := Min(grown, c.maxCwnd))
  }

  function OnLoss(c: Congestion, bytes: nat): Congestion
  {
    var half := Max(c.cwnd / 2, c.minCwnd);
    c.(bytesInFlight := SatSub(c.bytesInFlight, bytes), ssthresh := half, cwnd := half)
  }

  /** The window stays between its configured bounds. */
  predicate WindowOk(c: Congestion)
  {
    c.minCwnd <= c.cwnd <= c.maxCwnd <= U64_MAX
  }

  lemma WindowKept(c: Congestion, bytes: nat)
    requires WindowOk(c)
    ensures WindowOk(OnSent(c, bytes)) && WindowOk(OnAcked(c, bytes)) && WindowOk(OnLoss(c, bytes))
    ensures OnLoss(c, bytes).cwnd <= Max(c.cwnd, c.minCwnd) && OnAcked(c, bytes).cwnd >= c.cwnd
  {
  }

  // ---- Connection flow control, sending side ----

  datatype SendFlow = SendFlow(maxOffset: nat, sentOffset: nat)

  /** A retransmission was accounted when it was sent first. */
  predicate FlowAllows(f: SendFlow, length: nat, retransmission: bool)
  {
    retransmission || f.sentOffset + length <= Min(f.maxOffset, U64_MAX)
  }

  function Account(f: SendFlow, length: nat): SendFlow
  {
    f.(sentOffset := SatAdd(f.sentOffset, length))
  }

  // ---- Send queues ----

  /** The send halves, as values: `View` of the class SendStream, whose methods take these steps. */
  type Queues = map<u64, SendQueue>

  // ---- Frames on their way ----

  /** A frame with its saturating count of losses. Control frames are numbered as they are
      queued, to tell them apart; the program needs no such number. */
  datatype QueuedFrame = QueuedFrame(frame: Frame, retransmitCount: nat, serial: nat)

  /** The frame of a lost packet, its saturating count raised. */
  function Again(f: QueuedFrame): QueuedFrame
  {
    f.(retransmitCount := Min(f.retransmitCount + 1, U32_MAX))
  }

  /** A record of the sent table; it always holds exactly one frame. */
  datatype SentPacket = SentPacket(sentAt: nat, encodedLen: nat, queued: QueuedFrame, timerId: Key, generation: u32)

  type SentTable = map<u64, SentPacket>

  /** A chunk is known by its stream and offset. */
  datatype Tag = Tag(stream: u64, offset: nat)

  datatype Chunk = Chunk(data: seq<byte>, fin: bool)

  datatype Place = Queued | InFlight(packetNumber: u64) | Acknowledged

  /** For every chunk ever written: its bytes, where it is, and how often it was transmitted.
      For every stream: all bytes written to it, whether FIN was requested, and its window; and
      the window of the connection. */
  datatype Book = Book(
    chunks: map<Tag, Chunk>, place: map<Tag, Place>, sends: map<Tag, nat>,
    texts: map<u64, seq<byte>>, ended: set<u64>, windows: map<u64, nat>, granted: nat)

  /** Nothing was written yet. */
  function EmptyBook(granted: nat): Book
  {
    Book(map[], map[], map[], map[], {}, map[], granted)
  }

  function FrameTag(f: Frame): Tag
    requires f.StreamData?
  {
    Tag(f.streamId, f.offset)
  }

  predicate InQueue(queues: Queues, t: Tag)
  {
    t.stream in queues && exists i :: 0 <= i < |queues[t.stream].queue| && queues[t.stream].queue[i].offset == t.offset
  }

  predicate InBook(b: Book, t: Tag)
  {
    t in b.chunks && t in b.place && t in b.sends
  }

  /** A waiting chunk: unchanged since it was written, with its number of transmissions. */
  predicate WaitingOk(b: Book, t: Tag, item: PendingData, max: nat)
  {
    && InBook(b, t) && b.place[t] == Queued && b.chunks[t] == Chunk(item.data, item.fin)
    && Min(b.sends[t], U32_MAX) == item.retransmitCount <= max
  }

  predicate FlightOk(b: Book, pn: u64, f: QueuedFrame, max: nat)
  {
    f.frame.StreamData? ==>
      var t := FrameTag(f.frame);
      && InBook(b, t) && b.place[t] == InFlight(pn) && b.chunks[t] == Chunk(f.frame.data, f.frame.fin)
      && b.sends[t] > 0 && Min(b.sends[t] - 1, U32_MAX) == f.retransmitCount <= max
  }

  ghost predicate Apart(queue: seq<PendingData>)
  {
    forall i, j :: 0 <= i < j < |queue| ==> queue[i].offset != queue[j].offset
  }

  ghost predicate QueueOk(b: Book, id: u64, q: SendQueue, max: nat)
  {
    Apart(q.queue) && forall i :: 0 <= i < |q.queue| ==> WaitingOk(b, Tag(id, q.queue[i].offset), q.queue[i], max)
  }

  /** Queues and book agree; the chunk in `hand`, if any, has been popped but not yet sent. */
  ghost predicate QueuesOk(queues: Queues, b: Book, hand: Option<Tag>, max: nat)
  {
    && (forall id :: id in queues ==> QueueOk(b, id, queues[id], max))
    && (forall t :: t in b.place && b.place[t] == Queued ==> hand == Some(t) || InQueue(queues, t))
    && (hand.Some? ==> !InQueue(queues, hand.value))
  }

  ghost predicate FlightsOk(sent: SentTable, b: Book, max: nat)
  {
    && (forall pn :: pn in sent ==> FlightOk(b, pn, sent[pn].queued, max))
    && (forall t :: t in b.place && b.place[t].InFlight? ==>
          var pn := b.place[t].packetNumber;
          pn in sent && sent[pn].queued.frame.StreamData? && FrameTag(sent[pn].queued.frame) == t)
  }

  /** Every chunk is of a size that datagrams are cut for, and its transmissions stay within the
      limit, if that is one the saturating counter can exceed. */
  ghost predicate BookOk(b: Book, limit: nat, max: nat)
  {
    && b.chunks.Keys == b.place.Keys == b.sends.Keys
    && (forall t :: t in b.chunks ==>
          t.stream <= MAX_VALUE && t.offset <= MAX_VALUE && |b.chunks[t].data| <= Packets.ChunkLimit(limit))
    && (max < U32_MAX ==> forall t :: t in b.sends ==> b.sends[t] <= max + 1)
  }

  /** A chunk is a piece of its stream's text, and an empty one marks the text's end. */
  ghost predicate ChunkOf(t: Tag, c: Chunk, text: seq<byte>, fin: bool)
  {
    Piece(PendingData(t.offset, c.data, c.fin, 0), text, fin) && (t.offset == |text| ==> fin)
  }

  /** The book's texts are as long as was written, and every chunk is a piece of its own. */
  ghost predicate OffsetsOk(queues: Queues, b: Book)
  {
    && b.texts.Keys == queues.Keys == b.windows.Keys && b.ended <= queues.Keys
    && (forall id :: id in queues ==> queues[id].nextOffset <= queues[id].maxOffset == b.windows[id])
    && (forall id :: id in queues ==>
          |b.texts[id]| == queues[id].nextOffset && (id in b.ended <==> queues[id].finRequested))
    && (forall t :: t in b.chunks ==>
          t.stream in queues && ChunkOf(t, b.chunks[t], b.texts[t.stream], t.stream in b.ended))
  }

  /** The same chunks, texts and windows, wherever the chunks are now. */
  predicate Still(b: Book, c: Book)
  {
    && c.chunks == b.chunks && c.texts == b.texts && c.ended == b.ended
    && c.windows == b.windows && c.granted == b.granted
  }

  /** No chunk became acknowledged. */
  ghost predicate NoneAcked(b: Book, c: Book)
  {
    forall t :: t in c.place && c.place[t].Acknowledged? ==> t in b.place && b.place[t].Acknowledged?
  }

  // ---- What each step does to the book ----

  lemma PopPlaces(queues: Queues, b: Book, id: u64, max: nat)
    requires QueuesOk(queues, b, None, max) && id in queues && |queues[id].queue| > 0
    ensures var item := queues[id].queue[0]; var t := Tag(id, item.offset);
      QueuesOk(queues[id := Popped(queues[id])], b, Some(t), max) && WaitingOk(b, t, item, max)
  {
    var q := queues[id];
    var t := Tag(id, q.queue[0].offset);
    var now := queues[id := Popped(q)];
    assert QueueOk(b, id, q, max);
    forall u | u in b.place && b.place[u] == Queued && u != t ensures InQueue(now, u) {
      assert InQueue(queues, u);
      if u.stream == id {
        var i :| 0 <= i < |q.queue| && q.queue[i].offset == u.offset;
        assert now[id].queue[i - 1] == q.queue[i];
      }
    }
    assert !InQueue(now, t);
  }

  lemma PushPlaces(queues: Queues, b: Book, id: u64, item: PendingData, max: nat)
    requires id in queues && QueuesOk(queues, b, Some(Tag(id, item.offset)), max)
    requires WaitingOk(b, Tag(id, item.offset), item, max)
    ensures QueuesOk(queues[id := Requeued(queues[id], item)], b, None, max)
  {
    var q := queues[id];
    var t := Tag(id, item.offset);
    var now := queues[id := Requeued(q, item)];
    assert QueueOk(b, id, q, max);
    assert forall i :: 0 <= i < |q.queue| ==> q.queue[i].offset != item.offset;
    forall u | u in b.place && b.place[u] == Queued ensures InQueue(now, u) {
      if u == t {
        assert now[id].queue[0].offset == u.offset;
      } else if u.stream == id {
        var i :| 0 <= i < |q.queue| && q.queue[i].offset == u.offset;
        assert now[id].queue[i + 1] == q.queue[i];
      } else {
        assert InQueue(queues, u);
      }
    }
  }

  /** The book after the chunk in hand goes out as packet `pn`. */
  function Transmitted(b: Book, t: Tag, pn: u64): Book
    requires InBook(b, t)
  {
    b.(place := b.place[t := InFlight(pn)], sends := b.sends[t := b.sends[t] + 1])
  }

  function Lost(b: Book, t: Tag): Book
  {
    b.(place := b.place[t := Queued])
  }

  function Delivered(b: Book, t: Tag): Book
  {
    b.(place := b.place[t := Acknowledged])
  }

  lemma SendQueues(queues: Queues, b: Book, t: Tag, pn: u64, max: nat)
    requires QueuesOk(queues, b, Some(t), max) && InBook(b, t)
    ensures QueuesOk(queues, Transmitted(b, t, pn), None, max)
  {
    forall id | id in queues ensures QueueOk(Transmitted(b, t, pn), id, queues[id], max) {
      assert QueueOk(b, id, queues[id], max);
      forall i | 0 <= i < |queues[id].queue| ensures Tag(id, queues[id].queue[i].offset) != t { }
    }
  }

  lemma SendFlights(sent: SentTable, b: Book, t: Tag, pn: u64, p: SentPacket, max: nat)
    requires FlightsOk(sent, b, max) && pn !in sent && InBook(b, t) && b.place[t] == Queued
    requires p.queued.frame.StreamData? && FrameTag(p.queued.frame) == t
    requires b.chunks[t] == Chunk(p.queued.frame.data, p.queued.frame.fin)
    requires Min(b.sends[t], U32_MAX) == p.queued.retransmitCount <= max
    ensures FlightsOk(sent[pn := p], Transmitted(b, t, pn), max)
  {
    var c := Transmitted(b, t, pn);
    forall k | k in sent ensures FlightOk(c, k, sent[k].queued, max) {
      assert FlightOk(b, k, sent[k].queued, max);
    }
  }

  /** A control frame in the sent table concerns no chunk. */
  lemma SendControl(sent: SentTable, b: Book, pn: u64, p: SentPacket, max: nat)
    requires FlightsOk(sent, b, max) && pn !in sent && !p.queued.frame.StreamData?
    ensures FlightsOk(sent[pn := p], b, max)
  {
  }

  lemma RemoveControl(sent: SentTable, b: Book, pn: u64, max: nat)
    requires FlightsOk(sent, b, max) && pn in sent && !sent[pn].queued.frame.StreamData?
    ensures FlightsOk(sent - {pn}, b, max)
  {
  }

  /** Taking packet `pn` out of the table with its chunk acknowledged or queued again. */
  lemma RemoveFlights(sent: SentTable, b: Book, pn: u64, max: nat)
    requires FlightsOk(sent, b, max) && pn in sent && sent[pn].queued.frame.StreamData?
    ensures var t := FrameTag(sent[pn].queued.frame);
      && FlightOk(b, pn, sent[pn].queued, max)
      && FlightsOk(sent - {pn}, Lost(b, t), max) && FlightsOk(sent - {pn}, Delivered(b, t), max)
  {
    var t := FrameTag(sent[pn].queued.frame);
    assert FlightOk(b, pn, sent[pn].queued, max);
    forall k | k in sent - {pn}
      ensures FlightOk(Lost(b, t), k, sent[k].queued, max) && FlightOk(Delivered(b, t), k, sent[k].queued, max)
    {
      assert FlightOk(b, k, sent[k].queued, max);
    }
  }

  lemma RemoveQueues(queues: Queues, b: Book, t: Tag, pn: u64, max: nat)
    requires QueuesOk(queues, b, None, max) && InBook(b, t) && b.place[t] == InFlight(pn)
    ensures QueuesOk(queues, Delivered(b, t), None, max)
    ensures QueuesOk(queues, Lost(b, t), Some(t), max)
  {
    forall id | id in queues
      ensures QueueOk(Delivered(b, t), id, queues[id], max) && QueueOk(Lost(b, t), id, queues[id], max)
    {
      assert QueueOk(b, id, queues[id], max);
    }
  }

  // ---- Timers and bytes in flight ----

  /** Each sent packet has its retransmission timer, live or just expired and still to be
      processed, and there is no other retransmission timer. */
  ghost predicate TimersOk(sent: SentTable, live: Live, issued: nat, expired: set<TimerEvent>, next: nat)
  {
    && (forall pn :: pn in sent ==> PacketTimed(pn, sent[pn], live, issued, expired))
    && (forall k :: k in live ==> TimerMeant(k, live[k], sent))
    && (forall pn, qn :: pn in sent && qn in sent && pn != qn ==> sent[pn].timerId != sent[qn].timerId)
    && (forall e :: e in expired && e.Retransmit? ==> e.packetNumber < next)
  }

  predicate PacketTimed(pn: u64, p: SentPacket, live: Live, issued: nat, expired: set<TimerEvent>)
  {
    && p.timerId < issued
    && (p.timerId in live ==> live[p.timerId] == Retransmit(pn, p.generation))
    && (p.timerId in live <==> Retransmit(pn, p.generation) !in expired)
  }

  predicate TimerMeant(k: Key, e: TimerEvent, sent: SentTable)
  {
    && e.Retransmit? && e.packetNumber <= U64_MAX && e.packetNumber in sent
    && sent[e.packetNumber].timerId == k && sent[e.packetNumber].generation == e.generation
  }

  lemma TimerSet(sent: SentTable, live: Live, issued: nat, expired: set<TimerEvent>, pn: u64, p: SentPacket)
    requires TimersOk(sent, live, issued, expired, pn) && pn !in sent && p.timerId == issued
    ensures TimersOk(sent[pn := p], live[issued := Retransmit(pn, p.generation)], issued + 1, expired, pn + 1)
  {
    var now, timers := sent[pn := p], live[issued := Retransmit(pn, p.generation)];
    forall k | k in now ensures PacketTimed(k, now[k], timers, issued + 1, expired) {
      if k != pn { assert PacketTimed(k, sent[k], live, issued, expired); }
    }
    forall k | k in timers ensures TimerMeant(k, timers[k], now) {
      if k != issued { assert TimerMeant(k, live[k], sent); }
    }
  }

  /** A packet leaves the table with its timer, whether cancelled or expired. */
  lemma TimerGone(sent: SentTable, live: Live, issued: nat, expired: set<TimerEvent>, next: nat, pn: u64)
    requires TimersOk(sent, live, issued, expired, next) && pn in sent
    ensures var e := Retransmit(pn, sent[pn].generation);
      && TimersOk(sent - {pn}, live - {sent[pn].timerId}, issued, expired - {e}, next)
      && TimersOk(sent - {pn}, live - {sent[pn].timerId}, issued, expired, next)
      && (e in expired ==> live - {sent[pn].timerId} == live)
  {
    var now, timers, e := sent - {pn}, live - {sent[pn].timerId}, Retransmit(pn, sent[pn].generation);
    assert PacketTimed(pn, sent[pn], live, issued, expired);
    forall k | k in now
      ensures PacketTimed(k, now[k], timers, issued, expired - {e}) && PacketTimed(k, now[k], timers, issued, expired)
    {
      assert PacketTimed(k, sent[k], live, issued, expired);
    }
    forall k | k in timers ensures TimerMeant(k, timers[k], now) { assert TimerMeant(k, live[k], sent); }
  }

  /** Timers taken out of the wheel become expired events. */
  lemma TimersExpire(sent: SentTable, live: Live, issued: nat, next: nat, after: Live, keys: set<Key>,
          events: set<TimerEvent>)
    requires TimersOk(sent, live, issued, {}, next) && after == live - keys && forall pn :: pn in sent ==> pn < next
    requires forall k :: k in keys && k in live ==> live[k] in events
    requires forall e :: e in events && e.Retransmit? ==> exists k :: k in keys && k in live && live[k] == e
    ensures TimersOk(sent, after, issued, events, next)
  {
    forall pn | pn in sent ensures PacketTimed(pn, sent[pn], after, issued, events) {
      assert PacketTimed(pn, sent[pn], live, issued, {});
      var e := Retransmit(pn, sent[pn].generation);
      if e in events {
        var k :| k in keys && k in live && live[k] == e;
        assert TimerMeant(k, live[k], sent);
      }
    }
    forall k | k in after ensures TimerMeant(k, after[k], sent) { assert TimerMeant(k, live[k], sent); }
    forall e | e in events && e.Retransmit? ensures e.packetNumber < next {
      var k :| k in keys && k in live && live[k] == e;
      assert TimerMeant(k, live[k], sent);
    }
  }

  /** An expired event whose packet is no longer in the table may be dropped. */
  lemma ExpiredDropped(sent: SentTable, live: Live, issued: nat, expired: set<TimerEvent>, next: nat, e: TimerEvent)
    requires TimersOk(sent, live, issued, expired, next)
    requires forall pn :: pn in sent ==> e != Retransmit(pn, sent[pn].generation)
    ensures TimersOk(sent, live, issued, expired - {e}, next)
  {
    forall pn | pn in sent ensures PacketTimed(pn, sent[pn], live, issued, expired - {e}) {
      assert PacketTimed(pn, sent[pn], live, issued, expired);
    }
  }

  lemma TimersLater(sent: SentTable, live: Live, issued: nat, expired: set<TimerEvent>, next: nat, laterIssued: nat,
          laterNext: nat)
    requires TimersOk(sent, live, issued, expired, next) && issued <= laterIssued && next <= laterNext
    ensures TimersOk(sent, live, laterIssued, expired, laterNext)
  {
    forall pn | pn in sent ensures PacketTimed(pn, sent[pn], live, laterIssued, expired) {
      assert PacketTimed(pn, sent[pn], live, issued, expired);
    }
  }

  function Lengths(sent: SentTable): map<u64, nat>
  {
    map pn | pn in sent :: sent[pn].encodedLen
  }

  /** Bytes in flight are the lengths of the sent packets, whose numbers are used up. The counter
      saturates, so this takes a window that ends before it does. */
  ghost predicate BytesOk(sent: SentTable, c: Congestion, next: nat)
  {
    (c.maxCwnd < U64_MAX ==> c.bytesInFlight == Sum(Lengths(sent))) && forall pn :: pn in sent ==> pn < next
  }

  /** Packets of at most `limit` bytes that may be sent are counted exactly, if and only if the
      window ends before the counter does, or the counter has room for one more of them. */
  lemma CountedIff(c: Congestion, limit: nat)
    requires WindowOk(c) && c.bytesInFlight <= U64_MAX
    ensures (forall bytes: nat :: bytes <= limit && CanSend(c, bytes) ==>
              OnSent(c, bytes).bytesInFlight == c.bytesInFlight + bytes)
      <==> c.cwnd < U64_MAX || c.bytesInFlight + limit <= U64_MAX
  {
    if c.cwnd == U64_MAX && c.bytesInFlight + limit > U64_MAX {
      assert CanSend(c, limit);
    } else {
      forall bytes: nat | bytes <= limit && CanSend(c, bytes)
        ensures OnSent(c, bytes).bytesInFlight == c.bytesInFlight + bytes
      {
        Unsaturated(c, bytes);
      }
    }
  }

  lemma Unsaturated(c: Congestion, bytes: nat)
    requires WindowOk(c) && CanSend(c, bytes)
    ensures c.cwnd < U64_MAX ==> OnSent(c, bytes) == c.(bytesInFlight := c.bytesInFlight + bytes)
    ensures c.cwnd < U64_MAX ==> c.bytesInFlight + bytes <= c.cwnd
  {
  }

  lemma BytesSent(sent: SentTable, c: Congestion, next: nat, pn: u64, p: SentPacket)
    requires BytesOk(sent, c, next) && pn == next && WindowOk(c) && CanSend(c, p.encodedLen)
    ensures BytesOk(sent[pn := p], OnSent(c, p.encodedLen), next + 1)
  {
    Unsaturated(c, p.encodedLen);
    hide CanSend, WindowOk, Sum;
    assert Lengths(sent[pn := p]) == Lengths(sent)[pn := p.encodedLen];
    SumInsert(Lengths(sent), pn, p.encodedLen);
  }

  lemma BytesGone(sent: SentTable, c: Congestion, next: nat, pn: u64)
    requires BytesOk(sent, c, next) && pn in sent
    ensures BytesOk(sent - {pn}, OnAcked(c, sent[pn].encodedLen), next)
    ensures BytesOk(sent - {pn}, OnLoss(c, sent[pn].encodedLen), next)
  {
    hide Sum;
    assert Lengths(sent - {pn}) == Lengths(sent) - {pn};
    SumSplit(Lengths(sent), pn);
  }

  // ---- The sender as a whole ----

  datatype Bounds = Bounds(maxDatagramSize: nat, maxRetransmissions: nat)

  datatype Sender = Sender(
    queues: Queues, sent: SentTable, book: Book, live: Live, issued: nat, expired: set<TimerEvent>,
    congestion: Congestion, next: nat, closed: bool)

  /** The invariant, with `hand` popped from its queue. Timers are given up when the connection closes. */
  ghost predicate Sound(limits: Bounds, s: Sender, hand: Option<Tag>)
  {
    && QueuesOk(s.queues, s.book, hand, limits.maxRetransmissions)
    && FlightsOk(s.sent, s.book, limits.maxRetransmissions)
    && BookOk(s.book, limits.maxDatagramSize, limits.maxRetransmissions)
    && OffsetsOk(s.queues, s.book)
    && BytesOk(s.sent, s.congestion, s.next) && WindowOk(s.congestion)
    && (s.closed || TimersOk(s.sent, s.live, s.issued, s.expired, s.next))
  }

  lemma SoundPop(limits: Bounds, s: Sender, id: u64)
    requires Sound(limits, s, None) && id in s.queues && |s.queues[id].queue| > 0
    ensures var item := s.queues[id].queue[0]; var t := Tag(id, item.offset);
      Sound(limits, s.(queues := s.queues[id := Popped(s.queues[id])]), Some(t))
          && WaitingOk(s.book, t, item, limits.maxRetransmissions)
  {
    hide QueuesOk, FlightsOk, BookOk, OffsetsOk, BytesOk, WindowOk, TimersOk, WaitingOk;
    PopPlaces(s.queues, s.book, id, limits.maxRetransmissions);
    OffsetsKept(s.queues, s.book, id, Popped(s.queues[id]));
  }

  lemma OffsetsKept(queues: Queues, b: Book, id: u64, q: SendQueue)
    requires OffsetsOk(queues, b) && id in queues
    requires q.nextOffset == queues[id].nextOffset && q.finRequested == queues[id].finRequested
    requires q.maxOffset == queues[id].maxOffset
    ensures OffsetsOk(queues[id := q], b)
  {
  }

  lemma SoundPush(limits: Bounds, s: Sender, id: u64, item: PendingData)
    requires Sound(limits, s, Some(Tag(id, item.offset))) && id in s.queues
    requires WaitingOk(s.book, Tag(id, item.offset), item, limits.maxRetransmissions)
    ensures Sound(limits, s.(queues := s.queues[id := Requeued(s.queues[id], item)]), None)
  {
    hide QueuesOk, FlightsOk, BookOk, OffsetsOk, BytesOk, WindowOk, TimersOk, WaitingOk;
    PushPlaces(s.queues, s.book, id, item, limits.maxRetransmissions);
    OffsetsKept(s.queues, s.book, id, Requeued(s.queues[id], item));
  }

  /** The sender after the packet `p` goes out under the next number. */
  function Recorded(s: Sender, p: SentPacket): Sender
    requires s.next <= U64_MAX
    requires p.queued.frame.StreamData? ==> InBook(s.book, FrameTag(p.queued.frame))
  {
    s.(sent := s.sent[s.next := p], live := s.live[s.issued := Retransmit(s.next, p.generation)],
        issued := s.issued + 1,
       congestion := OnSent(s.congestion, p.encodedLen), next := s.next + 1,
       book := if p.queued.frame.StreamData? then Transmitted(s.book, FrameTag(p.queued.frame), s.next) else s.book)
  }

  function FrameItem(f: QueuedFrame): PendingData
    requires f.frame.StreamData?
  {
    PendingData(f.frame.offset, f.frame.data, f.frame.fin, f.retransmitCount)
  }

  function HandOf(f: Frame): Option<Tag>
  {
    if f.StreamData? then Some(FrameTag(f)) else None
  }

  /** The popped frame may be sent once more and, if it is a chunk, is as the book says. */
  predicate HandOk(limits: Bounds, b: Book, f: QueuedFrame)
  {
    f.retransmitCount <= limits.maxRetransmissions
        && (f.frame.StreamData? ==> WaitingOk(b, FrameTag(f.frame), FrameItem(f), limits.maxRetransmissions))
  }

  lemma SoundSend(limits: Bounds, s: Sender, p: SentPacket)
    requires Sound(limits, s, HandOf(p.queued.frame)) && HandOk(limits, s.book, p.queued)
    requires s.next <= U64_MAX && CanSend(s.congestion, p.encodedLen) && p.timerId == s.issued
    ensures Sound(limits, Recorded(s, p), None)
  {
    hide QueuesOk, FlightsOk, BookOk, OffsetsOk, BytesOk, WindowOk, TimersOk, WaitingOk, Transmitted, OnSent, CanSend;
    var max := limits.maxRetransmissions;
    BytesSent(s.sent, s.congestion, s.next, s.next, p);
    WindowKept(s.congestion, p.encodedLen);
    NumberFree(s.sent, s.congestion, s.next);
    if !s.closed { TimerSet(s.sent, s.live, s.issued, s.expired, s.next, p); }
    if p.queued.frame.StreamData? {
      var t := FrameTag(p.queued.frame);
      WaitingFacts(s.book, t, FrameItem(p.queued), max);
      SendQueues(s.queues, s.book, t, s.next, max);
      SendFlights(s.sent, s.book, t, s.next, p, max);
      BookSent(s.queues, s.book, t, s.next, limits);
    } else {
      SendControl(s.sent, s.book, s.next, p, max);
    }
  }

  lemma WaitingFacts(b: Book, t: Tag, item: PendingData, max: nat)
    requires WaitingOk(b, t, item, max)
    ensures InBook(b, t) && b.place[t] == Queued && b.chunks[t] == Chunk(item.data, item.fin)
    ensures Min(b.sends[t], U32_MAX) == item.retransmitCount <= max
  {
  }

  lemma NumberFree(sent: SentTable, c: Congestion, next: nat)
    requires BytesOk(sent, c, next)
    ensures next <= U64_MAX ==> next !in sent
  {
  }

  lemma BookSent(queues: Queues, b: Book, t: Tag, pn: u64, limits: Bounds)
    requires BookOk(b, limits.maxDatagramSize, limits.maxRetransmissions) && OffsetsOk(queues, b)
    requires InBook(b, t) && Min(b.sends[t], U32_MAX) <= limits.maxRetransmissions
    ensures BookOk(Transmitted(b, t, pn), limits.maxDatagramSize, limits.maxRetransmissions)
    ensures OffsetsOk(queues, Transmitted(b, t, pn))
  {
  }

  /** A packet number is used for a frame that is not recorded. */
  lemma SoundSkip(limits: Bounds, s: Sender)
    requires Sound(limits, s, None)
    ensures Sound(limits, s.(next := s.next + 1), None)
  {
    hide QueuesOk, FlightsOk, BookOk, OffsetsOk, WindowOk, TimersOk;
    if !s.closed { TimersLater(s.sent, s.live, s.issued, s.expired, s.next, s.issued, s.next + 1); }
  }

  /** Other timers are set meanwhile. */
  lemma SoundIssued(limits: Bounds, s: Sender, hand: Option<Tag>, issued: nat)
    requires Sound(limits, s, hand) && s.issued <= issued
    ensures Sound(limits, s.(issued := issued), hand)
  {
    hide QueuesOk, FlightsOk, BookOk, OffsetsOk, BytesOk, WindowOk, TimersOk;
    if !s.closed { TimersLater(s.sent, s.live, s.issued, s.expired, s.next, issued, s.next); }
  }

  /** A closed connection gives up its timers. */
  lemma SoundClosed(limits: Bounds, s: Sender, hand: Option<Tag>, live: Live, expired: set<TimerEvent>)
    requires Sound(limits, s, hand)
    ensures Sound(limits, s.(closed := true, live := live, expired := expired), hand)
  {
    hide QueuesOk, FlightsOk, BookOk, OffsetsOk, BytesOk, WindowOk, TimersOk;
  }

  /** Timers expire: their events await processing. */
  lemma SoundExpire(limits: Bounds, s: Sender, after: Live, keys: set<Key>, events: set<TimerEvent>)
    requires Sound(limits, s, None) && s.expired == {} && after == s.live - keys
    requires forall k :: k in keys && k in s.live ==> s.live[k] in events
    requires forall e :: e in events && e.Retransmit? ==> exists k :: k in keys && k in s.live && s.live[k] == e
    ensures Sound(limits, s.(live := after, expired := events), None)
  {
    hide QueuesOk, FlightsOk, BookOk, OffsetsOk, WindowOk, TimersOk;
    if !s.closed { TimersExpire(s.sent, s.live, s.issued, s.next, after, keys, events); }
  }

  /** An event without a packet is dropped. */
  lemma SoundDrop(limits: Bounds, s: Sender, e: TimerEvent)
    requires Sound(limits, s, None) && forall pn :: pn in s.sent ==> e != Retransmit(pn, s.sent[pn].generation)
    ensures Sound(limits, s.(expired := s.expired - {e}), None)
  {
    hide QueuesOk, FlightsOk, BookOk, OffsetsOk, BytesOk, WindowOk, TimersOk;
    if !s.closed { ExpiredDropped(s.sent, s.live, s.issued, s.expired, s.next, e); }
  }

  /** The timer of an expired event is not live any more. */
  lemma ExpiredGone(limits: Bounds, s: Sender, pn: u64)
    requires Sound(limits, s, None) && pn in s.sent
    ensures !s.closed && Retransmit(pn, s.sent[pn].generation) in s.expired ==> s.live - {s.sent[pn].timerId} == s.live
  {
    assert !s.closed ==> PacketTimed(pn, s.sent[pn], s.live, s.issued, s.expired);
  }

  // ---- Connection flow control, against the book ----

  /** The bytes of the chunks that were transmitted at least once. */
  function SentOnce(b: Book): map<Tag, nat>
  {
    map t | t in b.sends && t in b.chunks && b.sends[t] > 0 :: |b.chunks[t].data|
  }

  /** Every byte is accounted when it is sent first and never again, within what the peer granted. */
  ghost predicate FlowOk(b: Book, f: SendFlow)
  {
    f.sentOffset == Sum(SentOnce(b)) <= Min(f.maxOffset, U64_MAX) && f.maxOffset == b.granted
  }

  lemma FlowKept(b: Book, c: Book, f: SendFlow)
    requires FlowOk(b, f) && c.sends == b.sends && c.chunks == b.chunks && c.granted == b.granted
    ensures FlowOk(c, f)
  {
    hide Sum;
    assert SentOnce(c) == SentOnce(b);
  }

  lemma FlowWider(b: Book, f: SendFlow, maxOffset: nat)
    requires FlowOk(b, f) && f.maxOffset <= maxOffset
    ensures FlowOk(b.(granted := maxOffset), f.(maxOffset := maxOffset))
  {
    FlowKept(b, b.(granted := b.granted), f);
    assert SentOnce(b.(granted := maxOffset)) == SentOnce(b);
  }

  lemma FlowFirst(b: Book, t: Tag, pn: u64, f: SendFlow)
    requires FlowOk(b, f) && InBook(b, t) && b.sends[t] == 0 && FlowAllows(f, |b.chunks[t].data|, false)
    ensures FlowOk(Transmitted(b, t, pn), Account(f, |b.chunks[t].data|))
  {
    hide Sum;
    assert SentOnce(Transmitted(b, t, pn)) == SentOnce(b)[t := |b.chunks[t].data|];
    SumInsert(SentOnce(b), t, |b.chunks[t].data|);
  }

  lemma FlowAgain(b: Book, t: Tag, pn: u64, f: SendFlow)
    requires FlowOk(b, f) && InBook(b, t) && b.sends[t] > 0
    ensures FlowOk(Transmitted(b, t, pn), f)
  {
    hide Sum;
    assert SentOnce(Transmitted(b, t, pn)) == SentOnce(b);
  }

  lemma {:induction false} FlowRegistered(b: Book, id: u64, items: seq<PendingData>, f: SendFlow)
    requires FlowOk(b, f) && b.chunks.Keys == b.sends.Keys
    requires forall i :: 0 <= i < |items| ==> Tag(id, items[i].offset) !in b.chunks
    ensures SentOnce(Registered(b, id, items)) == SentOnce(b) && FlowOk(Registered(b, id, items), f)
  {
    hide Sum;
    if |items| > 0 {
      FlowRegistered(b, id, items[..|items| - 1], f);
      EnteredOnce(b, Registered(b, id, items[..|items| - 1]), Tag(id, items[|items| - 1].offset),
        Chunk(items[|items| - 1].data, items[|items| - 1].fin));
    }
  }

  lemma EnteredOnce(a: Book, b: Book, t: Tag, chunk: Chunk)
    requires SentOnce(b) == SentOnce(a) && t !in a.chunks
    ensures SentOnce(Entered(b, t, chunk)) == SentOnce(a)
  {
    assert t !in SentOnce(a);
  }

  // ---- Acknowledgement and loss ----

  function Removed(s: Sender, pn: u64, c: Congestion, b: Book, left: set<TimerEvent>): Sender
    requires pn in s.sent
  {
    s.(sent := s.sent - {pn}, live := s.live - {s.sent[pn].timerId}, congestion := c, book := b, expired := left)
  }

  function AckedBook(s: Sender, pn: u64): Book
    requires pn in s.sent
  {
    var f := s.sent[pn].queued.frame;
    if f.StreamData? then Delivered(s.book, FrameTag(f)) else s.book
  }

  function LostBook(s: Sender, pn: u64): Book
    requires pn in s.sent
  {
    var f := s.sent[pn].queued.frame;
    if f.StreamData? then Lost(s.book, FrameTag(f)) else s.book
  }

  lemma SoundAck(limits: Bounds, s: Sender, pn: u64)
    requires Sound(limits, s, None) && pn in s.sent
    ensures Sound(limits, Removed(s, pn, OnAcked(s.congestion, s.sent[pn].encodedLen), AckedBook(s, pn), s.expired),
        None)
  {
    hide QueuesOk, FlightsOk, BookOk, OffsetsOk, BytesOk, WindowOk, TimersOk, Delivered, OnAcked;
    var max, f := limits.maxRetransmissions, s.sent[pn].queued.frame;
    BytesGone(s.sent, s.congestion, s.next, pn);
    WindowKept(s.congestion, s.sent[pn].encodedLen);
    if !s.closed { TimerGone(s.sent, s.live, s.issued, s.expired, s.next, pn); }
    if f.StreamData? {
      RemoveFlights(s.sent, s.book, pn, max);
      InFlightBook(s.book, pn, s.sent[pn].queued, max);
      RemoveQueues(s.queues, s.book, FrameTag(f), pn, max);
      BookPlaced(s.queues, s.book, FrameTag(f), limits);
    } else {
      RemoveControl(s.sent, s.book, pn, max);
    }
  }

  lemma InFlightBook(b: Book, pn: u64, f: QueuedFrame, max: nat)
    requires FlightOk(b, pn, f, max) && f.frame.StreamData?
    ensures var t := FrameTag(f.frame); InBook(b, t) && t in b.chunks && b.place[t] == InFlight(pn)
    ensures Again(f).retransmitCount <= max ==>
      WaitingOk(Lost(b, FrameTag(f.frame)), FrameTag(f.frame), FrameItem(Again(f)), max)
  {
  }

  lemma BookPlaced(queues: Queues, b: Book, t: Tag, limits: Bounds)
    requires BookOk(b, limits.maxDatagramSize, limits.maxRetransmissions) && OffsetsOk(queues, b) && InBook(b, t)
    ensures BookOk(Delivered(b, t), limits.maxDatagramSize, limits.maxRetransmissions)
    ensures OffsetsOk(queues, Delivered(b, t))
    ensures BookOk(Lost(b, t), limits.maxDatagramSize, limits.maxRetransmissions) && OffsetsOk(queues, Lost(b, t))
  {
  }

  /** A lost packet leaves the table; its frame is in hand, to be queued with its count raised. */
  lemma SoundLose(limits: Bounds, s: Sender, pn: u64, left: set<TimerEvent>)
    requires Sound(limits, s, None) && pn in s.sent
    requires (left == s.expired || left == s.expired - {Retransmit(pn, s.sent[pn].generation)})
    ensures var f := s.sent[pn].queued;
      var after := Removed(s, pn, OnLoss(s.congestion, s.sent[pn].encodedLen), LostBook(s, pn), left);
      && Sound(limits, after, HandOf(f.frame))
      && (Again(f).retransmitCount <= limits.maxRetransmissions ==> HandOk(limits, after.book, Again(f)))
      && (f.frame.StreamData? ==> f.frame.streamId in s.queues)
  {
    hide QueuesOk, FlightsOk, BookOk, OffsetsOk, BytesOk, WindowOk, TimersOk, OnLoss;
    var max, f := limits.maxRetransmissions, s.sent[pn].queued.frame;
    BytesGone(s.sent, s.congestion, s.next, pn);
    WindowKept(s.congestion, s.sent[pn].encodedLen);
    if !s.closed { TimerGone(s.sent, s.live, s.issued, s.expired, s.next, pn); }
    if f.StreamData? {
      RemoveFlights(s.sent, s.book, pn, max);
      InFlightBook(s.book, pn, s.sent[pn].queued, max);
      RemoveQueues(s.queues, s.book, FrameTag(f), pn, max);
      BookPlaced(s.queues, s.book, FrameTag(f), limits);
      KnownStream(s.queues, s.book, FrameTag(f));
    } else {
      RemoveControl(s.sent, s.book, pn, max);
    }
  }

  lemma KnownStream(queues: Queues, b: Book, t: Tag)
    requires OffsetsOk(queues, b) && t in b.chunks
    ensures t.stream in queues
  {
  }

  // ---- What the invariant says ----

  /** Nothing is lost: with every queue and the sent table empty, every chunk was acknowledged. */
  lemma FlushedMeansAcked(limits: Bounds, s: Sender)
    requires Sound(limits, s, None) && s.sent == map[] && forall id :: id in s.queues ==> s.queues[id].queue == []
    ensures forall t :: t in s.book.chunks ==> t in s.book.place && s.book.place[t] == Acknowledged
  {
    forall t | t in s.book.chunks ensures t in s.book.place && s.book.place[t] == Acknowledged {
      assert t in s.book.place;
      assert s.book.place[t] == Queued ==> InQueue(s.queues, t);
    }
  }

  /** No chunk is transmitted more than once plus the allowed number of retransmissions. */
  lemma TransmissionsBounded(limits: Bounds, s: Sender, hand: Option<Tag>, t: Tag)
    requires Sound(limits, s, hand) && t in s.book.chunks
    ensures t in s.book.sends
    ensures (limits.maxRetransmissions < U32_MAX ==> s.book.sends[t] <= limits.maxRetransmissions + 1)
  {
  }

  /** Retransmission timers and sent packets correspond one to one. */
  lemma TimersMatch(limits: Bounds, s: Sender, hand: Option<Tag>)
    requires Sound(limits, s, hand) && !s.closed && s.expired == {}
    ensures forall pn :: pn in s.sent ==>
      && s.sent[pn].timerId in s.live && s.live[s.sent[pn].timerId] == Retransmit(pn, s.sent[pn].generation)
    ensures forall k :: k in s.live ==>
      exists pn :: pn in s.sent && s.sent[pn].timerId == k && s.live[k] == Retransmit(pn, s.sent[pn].generation)
  {
    forall pn | pn in s.sent
      ensures s.sent[pn].timerId in s.live && s.live[s.sent[pn].timerId] == Retransmit(pn, s.sent[pn].generation)
    {
      assert PacketTimed(pn, s.sent[pn], s.live, s.issued, {});
    }
    forall k | k in s.live
      ensures exists pn :: pn in s.sent && s.sent[pn].timerId == k && s.live[k] == Retransmit(pn, s.sent[pn].generation)
    {
      assert TimerMeant(k, s.live[k], s.sent);
      var pn: u64 := s.live[k].packetNumber;
      assert pn in s.sent;
    }
  }

  ghost predicate OnTheWay(sent: SentTable, t: Tag)
  {
    exists pn :: pn in sent && sent[pn].queued.frame.StreamData? && FrameTag(sent[pn].queued.frame) == t
  }

  /** Every chunk ever written is in exactly one of its queue, the sent table and the set of
      acknowledged chunks, with the bytes it was written with. */
  lemma ExactlyOnePlace(limits: Bounds, s: Sender, t: Tag)
    requires Sound(limits, s, None) && t in s.book.chunks
    ensures t in s.book.place
    ensures InQueue(s.queues, t) <==> s.book.place[t] == Queued
    ensures OnTheWay(s.sent, t) <==> s.book.place[t].InFlight?
  {
    hide OffsetsOk, BytesOk, WindowOk, TimersOk;
    assert t in s.book.place;
    assert s.book.place[t] == Queued ==> InQueue(s.queues, t);
    if InQueue(s.queues, t) {
      assert QueueOk(s.book, t.stream, s.queues[t.stream], limits.maxRetransmissions);
    }
    if OnTheWay(s.sent, t) {
      var pn :| pn in s.sent && s.sent[pn].queued.frame.StreamData? && FrameTag(s.sent[pn].queued.frame) == t;
      assert FlightOk(s.book, pn, s.sent[pn].queued, limits.maxRetransmissions);
    }
  }

  // ---- Writing ----

  /** The book with one more chunk waiting. */
  function Entered(b: Book, t: Tag, chunk: Chunk): Book
  {
    b.(chunks := b.chunks[t := chunk], place := b.place[t := Queued], sends := b.sends[t := 0])
  }

  /** The book with the new items of stream `id`. */
  function Registered(b: Book, id: u64, items: seq<PendingData>): Book
  {
    if |items| == 0 then b else
    var before, last := Registered(b, id, items[..|items| - 1]), items[|items| - 1];
    var t := Tag(id, last.offset);
    Entered(before, t, Chunk(last.data, last.fin))
  }

  /** The book after a write: the new items, and the longer text. */
  function Written(b: Book, id: u64, data: seq<byte>, fin: bool, items: seq<PendingData>): Book
  {
    var text := if id in b.texts then b.texts[id] else [];
    Registered(b, id, items).(texts := b.texts[id := text + data], ended := if fin then b.ended + {id} else b.ended)
  }

  /** Items that may be registered: new to the book, apart from each other, never sent, and small. */
  ghost predicate Fresh(b: Book, id: u64, items: seq<PendingData>, limit: nat)
  {
    && (forall i :: 0 <= i < |items| ==>
          && Tag(id, items[i].offset) !in b.chunks && items[i].retransmitCount == 0
          && items[i].offset <= MAX_VALUE && |items[i].data| <= Packets.ChunkLimit(limit))
    && (forall i, j :: 0 <= i < j < |items| ==> items[i].offset < items[j].offset)
  }

  lemma {:induction false} RegisteredTags(b: Book, id: u64, items: seq<PendingData>)
    ensures forall t :: t in Registered(b, id, items).chunks ==>
      t in b.chunks || exists i :: 0 <= i < |items| && t == Tag(id, items[i].offset)
    ensures forall t :: t in Registered(b, id, items).chunks && t in b.chunks && t.stream != id ==>
      Registered(b, id, items).chunks[t] == b.chunks[t]
  {
    if |items| > 0 {
      var init := items[..|items| - 1];
      RegisteredTags(b, id, init);
      forall t | t in Registered(b, id, items).chunks
        ensures t in b.chunks || exists i :: 0 <= i < |items| && t == Tag(id, items[i].offset)
      {
        if t in Registered(b, id, init).chunks {
          if t !in b.chunks {
            var i :| 0 <= i < |init| && t == Tag(id, init[i].offset);
            assert items[i] == init[i];
          }
        } else {
          assert t == Tag(id, items[|items| - 1].offset);
        }
      }
    }
  }

  lemma AppendOwn(b: Book, id: u64, q: SendQueue, item: PendingData, max: nat)
    requires QueueOk(b, id, q, max) && item.retransmitCount == 0 && Tag(id, item.offset) !in b.chunks
    ensures QueueOk(Entered(b, Tag(id, item.offset), Chunk(item.data, item.fin)), id, q.(queue := q.queue + [item]),
        max)
  {
    assert forall i :: 0 <= i < |q.queue| ==> q.queue[i].offset != item.offset;
  }

  lemma AppendOther(b: Book, k: u64, q: SendQueue, t: Tag, chunk: Chunk, max: nat)
    requires QueueOk(b, k, q, max) && t.stream != k
    ensures QueueOk(Entered(b, t, chunk), k, q, max)
  {
  }

  lemma AppendFound(queues: Queues, id: u64, q: SendQueue, item: PendingData, u: Tag)
    requires InQueue(queues[id := q], u) || u == Tag(id, item.offset)
    ensures InQueue(queues[id := q.(queue := q.queue + [item])], u)
  {
    var now := queues[id := q.(queue := q.queue + [item])];
    if u == Tag(id, item.offset) {
      assert now[id].queue[|q.queue|] == item;
    } else if u.stream == id {
      var i :| 0 <= i < |q.queue| && q.queue[i].offset == u.offset;
      assert now[id].queue[i] == q.queue[i];
    }
  }

  /** One more item at the back of a queue. */
  lemma AppendOne(queues: Queues, b: Book, id: u64, q: SendQueue, item: PendingData, max: nat)
    requires id in queues && QueuesOk(queues[id := q], b, None, max) && item.retransmitCount == 0
    requires b.chunks.Keys == b.place.Keys == b.sends.Keys && Tag(id, item.offset) !in b.chunks
    ensures QueuesOk(queues[id := q.(queue := q.queue + [item])],
        Entered(b, Tag(id, item.offset), Chunk(item.data, item.fin)), None, max)
  {
    hide QueueOk, InQueue;
    var t, chunk := Tag(id, item.offset), Chunk(item.data, item.fin);
    var was, now, c := queues[id := q], queues[id := q.(queue := q.queue + [item])], Entered(b, t, chunk);
    assert QueueOk(b, id, was[id], max);
    AppendOwn(b, id, q, item, max);
    forall k | k in now ensures QueueOk(c, k, now[k], max) {
      if k != id {
        assert QueueOk(b, k, was[k], max);
        AppendOther(b, k, now[k], t, chunk, max);
      }
    }
    forall u | u in c.place && c.place[u] == Queued ensures InQueue(now, u) { AppendFound(queues, id, q, item, u); }
  }

  lemma AppendFlights(sent: SentTable, b: Book, t: Tag, chunk: Chunk, max: nat)
    requires FlightsOk(sent, b, max) && b.chunks.Keys == b.place.Keys == b.sends.Keys && t !in b.chunks
    ensures FlightsOk(sent, Entered(b, t, chunk), max)
  {
    forall pn | pn in sent
      ensures FlightOk(Entered(b, t, chunk), pn, sent[pn].queued, max)
    {
      assert FlightOk(b, pn, sent[pn].queued, max);
    }
  }

  lemma {:induction false} AppendAll(queues: Queues, sent: SentTable, b: Book, id: u64, items: seq<PendingData>,
          limits: Bounds)
    requires id in queues && id <= MAX_VALUE && QueuesOk(queues, b, None, limits.maxRetransmissions)
    requires FlightsOk(sent, b, limits.maxRetransmissions)
    requires BookOk(b, limits.maxDatagramSize, limits.maxRetransmissions) && Fresh(b, id, items, limits.maxDatagramSize)
    ensures Appended(queues, sent, b, id, items, limits)
  {
    hide QueuesOk, FlightsOk, Fresh, BookOk, Entered;
    var q := queues[id];
    if |items| == 0 {
      assert q.queue + items == q.queue;
      assert queues[id := q] == queues;
    } else {
      var init, last := items[..|items| - 1], items[|items| - 1];
      FreshInit(b, id, items, limits.maxDatagramSize);
      AppendAll(queues, sent, b, id, init, limits);
      var c, t := Registered(b, id, init), Tag(id, last.offset);
      NotYet(b, id, items, limits.maxDatagramSize);
      BookKeys(c, limits);
      LastFits(b, id, items, limits.maxDatagramSize);
      AppendOne(queues, c, id, q.(queue := q.queue + init), last, limits.maxRetransmissions);
      AppendFlights(sent, c, t, Chunk(last.data, last.fin), limits.maxRetransmissions);
      assert q.queue + items == (q.queue + init) + [last];
      BookMore(c, t, Chunk(last.data, last.fin), limits);
    }
  }

  ghost predicate Appended(queues: Queues, sent: SentTable, b: Book, id: u64, items: seq<PendingData>, limits: Bounds)
    requires id in queues
  {
    var q, c := queues[id], Registered(b, id, items);
    && QueuesOk(queues[id := q.(queue := q.queue + items)], c, None, limits.maxRetransmissions)
    && FlightsOk(sent, c, limits.maxRetransmissions) && BookOk(c, limits.maxDatagramSize, limits.maxRetransmissions)
  }

  lemma BookKeys(b: Book, limits: Bounds)
    requires BookOk(b, limits.maxDatagramSize, limits.maxRetransmissions)
    ensures b.chunks.Keys == b.place.Keys == b.sends.Keys
  {
  }

  lemma BookMore(b: Book, t: Tag, chunk: Chunk, limits: Bounds)
    requires BookOk(b, limits.maxDatagramSize, limits.maxRetransmissions)
    requires t.stream <= MAX_VALUE && t.offset <= MAX_VALUE
    requires |chunk.data| <= Packets.ChunkLimit(limits.maxDatagramSize)
    ensures BookOk(Entered(b, t, chunk), limits.maxDatagramSize, limits.maxRetransmissions)
  {
  }

  lemma FreshInit(b: Book, id: u64, items: seq<PendingData>, limit: nat)
    requires |items| > 0 && Fresh(b, id, items, limit)
    ensures Fresh(b, id, items[..|items| - 1], limit)
  {
  }

  lemma NotYet(b: Book, id: u64, items: seq<PendingData>, limit: nat)
    requires |items| > 0 && Fresh(b, id, items, limit)
    ensures Tag(id, items[|items| - 1].offset) !in Registered(b, id, items[..|items| - 1]).chunks
  {
    var init := items[..|items| - 1];
    RegisteredTags(b, id, init);
    assert forall i :: 0 <= i < |init| ==> init[i].offset < items[|items| - 1].offset;
  }

  lemma LastFits(b: Book, id: u64, items: seq<PendingData>, limit: nat)
    requires |items| > 0 && Fresh(b, id, items, limit)
    ensures var last := items[|items| - 1];
      last.retransmitCount == 0 && last.offset <= MAX_VALUE && |last.data| <= Packets.ChunkLimit(limit)
  {
  }

  /** The items of one write are new, apart and small, as long as the stream stays below 2^62. */
  lemma CutFresh(queues: Queues, b: Book, id: u64, data: seq<byte>, fin: bool, limit: nat)
    requires id in queues && OffsetsOk(queues, b) && !queues[id].finRequested
    requires queues[id].nextOffset + |data| <= MAX_VALUE
    ensures Fresh(b, id, Cut(queues[id].nextOffset, data, fin, Packets.ChunkLimit(limit)), limit)
  {
    var next, size := queues[id].nextOffset, Packets.ChunkLimit(limit);
    var before := seq(next, _ => 0);
    CutIsOk(before, data, fin, size);
    var items := Cut(next, data, fin, size);
    forall i | 0 <= i < |items| ensures Tag(id, items[i].offset) !in b.chunks && items[i].offset <= MAX_VALUE {
      assert Piece(items[i], before + data, fin);
    }
    hide Cut;
  }

  /** Afterwards the stream's chunks are still below its write position. */
  lemma CutOffsets(queues: Queues, b: Book, id: u64, data: seq<byte>, fin: bool, size: nat)
    requires id in queues && OffsetsOk(queues, b) && !queues[id].finRequested && size > 0
    requires queues[id].nextOffset + |data| <= queues[id].maxOffset
    ensures OffsetsOk(queues[id := Lengthened(queues[id], data, fin, size)],
        Written(b, id, data, fin, Cut(queues[id].nextOffset, data, fin, size)))
  {
    hide Cut, Piece, Registered, ChunkOf;
    var text, items := b.texts[id], Cut(queues[id].nextOffset, data, fin, size);
    CutIsOk(text, data, fin, size);
    RegisteredOffsets(b, id, items, text + data, fin);
    var now, c := queues[id := Lengthened(queues[id], data, fin, size)], Written(b, id, data, fin, items);
    forall t | t in c.chunks
      ensures t.stream in now && ChunkOf(t, c.chunks[t], c.texts[t.stream], t.stream in c.ended)
    {
      if t in b.chunks && c.chunks[t] == b.chunks[t] && t.stream == id { StillChunk(t, b.chunks[t], text, data, fin); }
    }
  }

  lemma StillChunk(t: Tag, c: Chunk, text: seq<byte>, data: seq<byte>, fin: bool)
    requires ChunkOf(t, c, text, false)
    ensures ChunkOf(t, c, text + data, fin)
  {
  }

  /** Every registered chunk is an old one or a piece of the new text. */
  lemma {:induction false} RegisteredOffsets(b: Book, id: u64, items: seq<PendingData>, text: seq<byte>, fin: bool)
    requires forall i :: 0 <= i < |items| ==> Piece(items[i], text, fin) && (|items[i].data| == 0 ==> fin)
    ensures var c := Registered(b, id, items);
      && c.texts == b.texts && c.ended == b.ended && c.windows == b.windows && c.granted == b.granted
      && forall t :: t in c.chunks ==>
           || (t in b.chunks && c.chunks[t] == b.chunks[t])
           || (t.stream == id && ChunkOf(t, c.chunks[t], text, fin))
  {
    if |items| > 0 {
      var init, last := items[..|items| - 1], items[|items| - 1];
      RegisteredOffsets(b, id, init, text, fin);
      assert Piece(last, text, fin);
      assert ChunkOf(Tag(id, last.offset), Chunk(last.data, last.fin), text, fin);
      hide Piece;
    }
  }

  /** The places of chunks do not depend on the texts. */
  lemma TextsIgnored(queues: Queues, sent: SentTable, b: Book, c: Book, limits: Bounds)
    requires c == b.(texts := c.texts, ended := c.ended, windows := c.windows, granted := c.granted)
    requires QueuesOk(queues, b, None, limits.maxRetransmissions) && FlightsOk(sent, b, limits.maxRetransmissions)
    requires BookOk(b, limits.maxDatagramSize, limits.maxRetransmissions)
    ensures QueuesOk(queues, c, None, limits.maxRetransmissions) && FlightsOk(sent, c, limits.maxRetransmissions)
    ensures BookOk(c, limits.maxDatagramSize, limits.maxRetransmissions)
  {
    hide Apart, InQueue;
    forall id | id in queues ensures QueueOk(c, id, queues[id], limits.maxRetransmissions) {
      assert QueueOk(b, id, queues[id], limits.maxRetransmissions);
    }
    forall pn | pn in sent ensures FlightOk(c, pn, sent[pn].queued, limits.maxRetransmissions) {
      assert FlightOk(b, pn, sent[pn].queued, limits.maxRetransmissions);
    }
  }

  /** What a write does to its queue and to the book. */
  ghost predicate Wrote(queues: Queues, b: Book, now: Queues, c: Book, id: u64, data: seq<byte>, fin: bool, size: nat)
  {
    && id in queues && size > 0
    && now == queues[id := Lengthened(queues[id], data, fin, size)]
    && c == Written(b, id, data, fin, Cut(queues[id].nextOffset, data, fin, size))
  }

  /** A write keeps the invariant: every new chunk is queued, at a new place of the stream. */
  lemma SoundWrite(limits: Bounds, s: Sender, id: u64, data: seq<byte>, fin: bool)
    requires Sound(limits, s, None) && id in s.queues && id <= MAX_VALUE && !s.queues[id].finRequested
    requires s.queues[id].nextOffset + |data| <= Min(MAX_VALUE, s.queues[id].maxOffset)
    ensures var size := Packets.ChunkLimit(limits.maxDatagramSize);
      Sound(limits, s.(queues := s.queues[id := Lengthened(s.queues[id], data, fin, size)],
        book := Written(s.book, id, data, fin, Cut(s.queues[id].nextOffset, data, fin, size))), None)
  {
    hide QueuesOk, FlightsOk, BookOk, OffsetsOk, BytesOk, WindowOk, TimersOk, Cut, Registered, Fresh;
    var size, q := Packets.ChunkLimit(limits.maxDatagramSize), s.queues[id];
    var items := Cut(q.nextOffset, data, fin, size);
    CutFresh(s.queues, s.book, id, data, fin, limits.maxDatagramSize);
    CutOffsets(s.queues, s.book, id, data, fin, size);
    AppendAll(s.queues, s.sent, s.book, id, items, limits);
    QueuesIgnore(s.queues, id, q.(queue := q.queue + items), Lengthened(q, data, fin, size),
        Registered(s.book, id, items), limits.maxRetransmissions);
    TextsIgnored(s.queues[id := Lengthened(q, data, fin, size)], s.sent, Registered(s.book, id, items),
        Written(s.book, id, data, fin, items), limits);
  }

  lemma QueuesIgnore(queues: Queues, id: u64, q: SendQueue, r: SendQueue, b: Book, max: nat)
    requires QueuesOk(queues[id := q], b, None, max) && q.queue == r.queue
    ensures QueuesOk(queues[id := r], b, None, max)
  {
    var was, now := queues[id := q], queues[id := r];
    forall k | k in now ensures QueueOk(b, k, now[k], max) { assert QueueOk(b, k, was[k], max); }
    forall t | t in b.place && b.place[t] == Queued ensures InQueue(now, t) { assert InQueue(was, t); }
  }

  /** The book with one more stream, to which nothing was written. */
  function Opened(b: Book, id: u64, window: nat): Book
  {
    b.(texts := b.texts[id := []], windows := b.windows[id := window])
  }

  function Widened(b: Book, id: u64, window: nat): Book
  {
    b.(windows := b.windows[id := window])
  }

  /** A new stream has nothing queued yet. */
  lemma SoundOpen(limits: Bounds, s: Sender, id: u64, window: nat)
    requires Sound(limits, s, None) && id !in s.queues
    ensures Sound(limits, s.(queues := s.queues[id := SendQueue(window, 0, 0, false, false, [])],
      book := Opened(s.book, id, window)), None)
  {
    hide FlightsOk, BookOk, BytesOk, WindowOk, TimersOk;
    var now := s.queues[id := SendQueue(window, 0, 0, false, false, [])];
    forall t | t in s.book.place && s.book.place[t] == Queued ensures InQueue(now, t) {
      assert InQueue(s.queues, t);
    }
    forall k | k in s.queues ensures QueueOk(s.book, k, now[k], limits.maxRetransmissions) {
      assert QueueOk(s.book, k, s.queues[k], limits.maxRetransmissions);
    }
    assert QueuesOk(now, s.book, None, limits.maxRetransmissions);
    hide QueuesOk;
    TextsIgnored(now, s.sent, s.book, Opened(s.book, id, window), limits);
  }

  /** A stream's window moves, but not back. */
  lemma SoundWiden(limits: Bounds, s: Sender, id: u64, window: nat)
    requires Sound(limits, s, None) && id in s.queues && s.queues[id].maxOffset <= window
    ensures Sound(limits,
        s.(queues := s.queues[id := s.queues[id].(maxOffset := window)], book := Widened(s.book, id, window)), None)
  {
    hide QueuesOk, FlightsOk, BookOk, BytesOk, WindowOk, TimersOk;
    var q := s.queues[id];
    assert s.queues[id := q] == s.queues;
    QueuesIgnore(s.queues, id, q, q.(maxOffset := window), s.book, limits.maxRetransmissions);
    TextsIgnored(s.queues[id := q.(maxOffset := window)], s.sent, s.book, Widened(s.book, id, window), limits);
  }

  /** The connection's window moves. */
  lemma SoundGrant(limits: Bounds, s: Sender, granted: nat)
    requires Sound(limits, s, None)
    ensures Sound(limits, s.(book := s.book.(granted := granted)), None)
  {
    hide QueuesOk, FlightsOk, BookOk, BytesOk, WindowOk, TimersOk;
    TextsIgnored(s.queues, s.sent, s.book, s.book.(granted := granted), limits);
  }
}
