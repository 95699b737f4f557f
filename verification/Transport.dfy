/** The reliable sender of a connection: queueing, flushing under congestion and flow control,
    acknowledgement, loss and retransmission timers. The program's TransportState, the send
    halves of its StreamManager and the timer handling of its Connection are one class here. */
module Transport {
  import opened Wrappers
  import opened Bytes
  import opened Sums
  import opened Varint
  import opened AckRanges
  import opened Frames
  import opened SendStream
  import opened SlotTable
  import opened Timers
  import opened TimerModel
  import opened TransportModel
  import opened Ledger
  import Packets
  import ReceiveStream
  import WheelConfig

  datatype ConnectionState = Idle | Handshaking | Established | Closing | Closed

  datatype Settings = Settings(
    maxDatagramSize: nat, maxRetransmissions: nat, fastLossThreshold: nat, ackDelay: nat,
    idleTimeout: nat, keepaliveInterval: Option<nat>, closeTimeout: nat, maxSendBuffer: nat)

  /** What `validate` demands of these settings. */
  predicate SettingsOk(s: Settings)
  {
    FIXED_HEADER_LEN <= s.maxDatagramSize <= 65535 && s.fastLossThreshold > 0
  }

  /** Datagrams have room for a chunk of stream data whatever its stream and offset. */
  predicate RoomForChunks(limit: nat)
  {
    67 <= limit
  }

  datatype TransportError =
    | Protocol(cause: ProtocolError)
    | AckForUnsentPacket
    | RetransmissionLimit
    | TimerFailed(reason: TimerError)
    | NumbersExhausted
    | InvalidState
    | UnknownStream
    | Refused(refusal: ReceiveStream.StreamError)

  type Done = Result<bool, TransportError>

  function PacketTypeOf(f: Frame, state: ConnectionState): Packets.PacketType
  {
    if f.ClientHello? then Packets.Initial
    else if f.HandshakeAck? || f.ServerHello? then Packets.Handshake
    else if f.ConnectionClose? then Packets.Close
    else if state == Handshaking then Packets.Handshake
    else Packets.Data
  }

  /** The length of a packet with this one frame, whatever its header says. */
  function PlainLength(f: Frame, limit: nat): Result<nat, ProtocolError>
  {
    var payload :- Packets.EncodeFrames([f]);
    if limit < FIXED_HEADER_LEN then Err(InvalidValue)
    else if FIXED_HEADER_LEN + |payload| > limit then Err(DatagramTooLarge(limit, FIXED_HEADER_LEN + |payload|))
    else Ok(FIXED_HEADER_LEN + |payload|)
  }

  /** How long the packet with this frame is on the wire, with the tag if it is encrypted. */
  function WireLength(f: Frame, state: ConnectionState, encrypt: bool, limit: nat): Result<nat, ProtocolError>
  {
    var plain :- PlainLength(f, limit);
    var kind := PacketTypeOf(f, state);
    var length := if encrypt && (kind == Packets.Data || kind == Packets.Close) then plain + Packets.AEAD_TAG_LEN
        else plain;
    if length > limit then Err(DatagramTooLarge(limit, length)) else Ok(length)
  }

  function AckLength(frame: AckFrame, encrypt: bool, limit: nat): Result<nat, ProtocolError>
  {
    var plain :- PlainLength(Ack(frame), limit);
    var length := if encrypt then plain + Packets.AEAD_TAG_LEN else plain;
    if length > limit then Err(DatagramTooLarge(limit, length)) else Ok(length)
  }

  function AckEmission(n: u64, frame: AckFrame, encrypt: bool, limit: nat, c: Congestion): Emission
  {
    var length := AckLength(frame, encrypt, limit);
    Emission(n, Ack(frame), None, if length.Ok? then length.value else 0, c.bytesInFlight, c.cwnd)
  }

  lemma FitsOnWire(f: Frame, state: ConnectionState, encrypt: bool, limit: nat)
    requires FitsEncrypted(f, limit)
    ensures WireLength(f, state, encrypt, limit).Ok?
  {
    hide PlainLength;
  }

  /** `PlainLength` is the length of what `encode_packet` produces, with the same errors. */
  lemma PlainLengthIsEncoded(crc: Packets.Checksum, p: Packets.Packet, limit: nat)
    requires |p.frames| == 1 && !Packets.Encrypted(p.flags)
    ensures Packets.EncodePacket(crc, p, limit).Ok? <==> PlainLength(p.frames[0], limit).Ok?
    ensures PlainLength(p.frames[0], limit).Ok? ==>
      |Packets.EncodePacket(crc, p, limit).value| == PlainLength(p.frames[0], limit).value
    ensures PlainLength(p.frames[0], limit).Err? ==>
      Packets.EncodePacket(crc, p, limit).error == PlainLength(p.frames[0], limit).error
  {
    assert p.frames == [p.frames[0]];
    if Packets.EncodeFrames(p.frames).Ok? { EnvelopeLength(p); }
    hide Packets.EncodeFrames, Packets.HeaderFields, Packets.Encrypted;
  }

  lemma EnvelopeLength(p: Packets.Packet)
    requires Packets.EncodeFrames(p.frames).Ok?
    ensures var payload := Packets.EncodeFrames(p.frames).value;
      && |payload| <= 65535
      && |Packets.HeaderFields(Packets.Header(p.packetType, p.flags, p.connectionId, p.packetNumber, |payload|))| == 26
  {
    hide Packets.EncodeFrames, Packets.HeaderFields;
    Packets.FramesBack(p.frames);
    Packets.HeaderBack(Packets.Header(p.packetType, p.flags, p.connectionId, p.packetNumber,
        |Packets.EncodeFrames(p.frames).value|), []);
  }

  lemma ChunkLength(f: Frame, limit: nat)
    requires f.StreamData? && f.streamId <= MAX_VALUE && f.offset <= MAX_VALUE
    requires RoomForChunks(limit) && limit <= 65535 && |f.data| <= Packets.ChunkLimit(limit)
    ensures FitsEncrypted(f, limit)
  {
    Packets.ChunkFits(f.streamId, f.offset, f.fin, f.data, limit);
    hide Packets.EncodeFrames;
  }

  predicate FitsEncrypted(f: Frame, limit: nat)
  {
    var plain := PlainLength(f, limit);
    plain.Ok? && plain.value + Packets.AEAD_TAG_LEN <= limit
  }

  /** Every chunk that `write` may cut for a datagram fits it, encrypted, if and only if the
      datagram has at least 67 bytes. */
  lemma ChunksFitIff(limit: nat)
    requires limit <= 65535
    ensures (forall f: Frame :: f.StreamData? && f.streamId <= MAX_VALUE && f.offset <= MAX_VALUE &&
              |f.data| <= Packets.ChunkLimit(limit)
              ==> FitsEncrypted(f, limit))
      <==> RoomForChunks(limit)
  {
    if RoomForChunks(limit) {
      forall f: Frame | f.StreamData? && f.streamId <= MAX_VALUE && f.offset <= MAX_VALUE
          && |f.data| <= Packets.ChunkLimit(limit)
        ensures FitsEncrypted(f, limit)
      {
        ChunkLength(f, limit);
      }
    } else {
      LastChunk(limit);
      hide FitsEncrypted;
      assert !FitsEncrypted(StreamData(MAX_VALUE, MAX_VALUE - 1, false, [0]), limit);
    }
  }

  /** The single byte that ends at the last offset takes 67 bytes. */
  lemma LastChunk(limit: nat)
    requires limit < 67
    ensures !FitsEncrypted(StreamData(MAX_VALUE, MAX_VALUE - 1, false, [0]), limit)
  {
    Packets.LastChunkSize();
    hide Packets.EncodeFrames;
  }

  /** The frame of a packet after it was lost `losses` times, unless the limit was reached. */
  function AfterLosses(settings: Settings, f: QueuedFrame, losses: nat): Option<QueuedFrame>
  {
    if losses == 0 then Some(f) else
    var before := AfterLosses(settings, f, losses - 1);
    if before.Some? && Limited(before.value, settings).Ok? then Some(Again(before.value)) else None
  }

  /** A frame is given up after more losses than the limit allows, if and only if the limit is
      below the largest value of the saturating counter; otherwise it is sent again for ever. */
  lemma {:induction false} GivenUpIff(settings: Settings, f: Frame, serial: nat, losses: nat)
    ensures var after := AfterLosses(settings, QueuedFrame(f, 0, serial), losses);
      && (after.None? <==> settings.maxRetransmissions < U32_MAX && losses > settings.maxRetransmissions)
      && (after.Some? ==> after.value == QueuedFrame(f, Min(losses, U32_MAX), serial))
  {
    if losses > 0 { GivenUpIff(settings, f, serial, losses - 1); }
  }

  /** `record_sent` keeps no record of these. */
  predicate Unrecorded(f: Frame)
  {
    f.ClientHello? || f.ServerHello? || f.HandshakeAck?
  }

  /** Only frames that ask for an acknowledgement are kept for retransmission. */
  predicate Recordable(f: Frame)
  {
    AckEliciting(f) && !Unrecorded(f)
  }

  /** The packet was entered under its number, and no other record changed. */
  ghost predicate RecordedAs(sent: SentTable, now: SentTable, n: u64, queued: QueuedFrame, length: nat, at: nat)
  {
    && n in now && now == sent[n := now[n]]
    && now[n].queued == queued && now[n].encodedLen == length && now[n].sentAt == at
  }

  predicate AckCovers(ranges: seq<AckRange>, n: nat)
  {
    exists i :: 0 <= i < |ranges| && Contains(ranges[i], n)
  }

  /** How often a chunk was put on the network. */
  ghost function Count(emitted: seq<Emission>, t: Tag): nat
  {
    if |emitted| == 0 then 0 else
    var last := emitted[|emitted| - 1];
    Count(emitted[..|emitted| - 1], t) + if HandOf(last.frame) == Some(t) then 1 else 0
  }

  /** The packet fits the window; a window as wide as the saturating counter admits everything. */
  predicate FitsWindow(e: Emission)
  {
    e.inFlight + e.length <= e.window || e.window == U64_MAX
  }

  /** No ack-eliciting packet is emitted unless it fits the congestion window. */
  ghost predicate EmissionsFit(emitted: seq<Emission>)
  {
    forall e :: e in emitted && AckEliciting(e.frame) ==> FitsWindow(e)
  }

  /** The book's counts are those of the log. */
  ghost predicate Counted(emitted: seq<Emission>, b: Book)
  {
    && (forall t :: t in b.sends ==> b.sends[t] == Count(emitted, t))
    && (forall t :: t !in b.sends ==> Count(emitted, t) == 0)
  }

  /** Chunk `t` went out in packet `pn`. */
  ghost predicate Carried(emitted: seq<Emission>, pn: nat, t: Tag)
  {
    exists e :: e in emitted && e.packetNumber == pn && HandOf(e.frame) == Some(t)
  }

  ghost predicate FlightsLogged(emitted: seq<Emission>, b: Book)
  {
    forall t :: t in b.place && b.place[t].InFlight? ==> Carried(emitted, b.place[t].packetNumber, t)
  }

  /** Every chunk that was emitted is the one in the book. */
  ghost predicate Truthful(emitted: seq<Emission>, b: Book)
  {
    forall e :: e in emitted && e.frame.StreamData? ==>
      FrameTag(e.frame) in b.chunks && b.chunks[FrameTag(e.frame)] == Chunk(e.frame.data, e.frame.fin)
  }

  ghost predicate LogOk(emitted: seq<Emission>, b: Book)
  {
    EmissionsFit(emitted) && Counted(emitted, b) && FlightsLogged(emitted, b) && Truthful(emitted, b)
  }

  /** The log only grows, chunks and texts stay, and no chunk became acknowledged. */
  ghost predicate Progress(b: Book, emitted: seq<Emission>, c: Book, later: seq<Emission>)
  {
    emitted <= later && Still(b, c) && NoneAcked(b, c)
  }

  /** Packets are numbered in the order they are sent, below `next`. */
  ghost predicate NumbersUsed(emitted: seq<Emission>, next: nat)
  {
    && (forall i :: 0 <= i < |emitted| ==> emitted[i].packetNumber < next)
    && forall i, j :: 0 <= i < j < |emitted| ==> emitted[i].packetNumber < emitted[j].packetNumber
  }

  lemma NumbersMore(emitted: seq<Emission>, e: Emission)
    requires NumbersUsed(emitted, e.packetNumber)
    ensures NumbersUsed(emitted + [e], e.packetNumber + 1)
  {
  }

  lemma ProgressSame(b: Book, emitted: seq<Emission>)
    ensures Progress(b, emitted, b, emitted)
  {
  }

  lemma ProgressLog(b: Book, emitted: seq<Emission>, e: Emission)
    ensures Progress(b, emitted, b, emitted + [e])
  {
  }

  lemma {:induction false} NoneAckedRegistered(b: Book, id: u64, items: seq<PendingData>)
    ensures NoneAcked(b, Registered(b, id, items))
  {
    if |items| > 0 { NoneAckedRegistered(b, id, items[..|items| - 1]); }
  }

  lemma ProgressTwice(a: Book, ea: seq<Emission>, b: Book, eb: seq<Emission>, c: Book, ec: seq<Emission>)
    requires Progress(a, ea, b, eb) && Progress(b, eb, c, ec)
    ensures Progress(a, ea, c, ec)
  {
  }

  lemma CountNext(emitted: seq<Emission>, e: Emission, t: Tag)
    ensures Count(emitted + [e], t) == Count(emitted, t) + if HandOf(e.frame) == Some(t) then 1 else 0
  {
    assert (emitted + [e])[..|emitted|] == emitted;
  }

  lemma CarriedMore(emitted: seq<Emission>, e: Emission, b: Book)
    requires FlightsLogged(emitted, b)
    ensures FlightsLogged(emitted + [e], b)
    ensures HandOf(e.frame).Some? ==> Carried(emitted + [e], e.packetNumber, HandOf(e.frame).value)
  {
    forall t | t in b.place && b.place[t].InFlight? ensures Carried(emitted + [e], b.place[t].packetNumber, t) {
      var x :| x in emitted && x.packetNumber == b.place[t].packetNumber && HandOf(x.frame) == Some(t);
      assert x in emitted + [e];
    }
    assert e in emitted + [e];
  }

  lemma LogChunk(emitted: seq<Emission>, b: Book, e: Emission)
    requires LogOk(emitted, b) && e.frame.StreamData? && InBook(b, FrameTag(e.frame)) && FitsWindow(e)
    requires b.chunks[FrameTag(e.frame)] == Chunk(e.frame.data, e.frame.fin)
    ensures LogOk(emitted + [e], Transmitted(b, FrameTag(e.frame), e.packetNumber))
  {
    hide Count, Carried, EmissionsFit;
    CountedChunk(emitted, b, e);
    CarriedMore(emitted, e, b);
    FitsMore(emitted, e);
  }

  lemma FitsMore(emitted: seq<Emission>, e: Emission)
    requires EmissionsFit(emitted) && (AckEliciting(e.frame) ==> FitsWindow(e))
    ensures EmissionsFit(emitted + [e])
  {
  }

  lemma CountedChunk(emitted: seq<Emission>, b: Book, e: Emission)
    requires Counted(emitted, b) && e.frame.StreamData? && InBook(b, FrameTag(e.frame))
    ensures Counted(emitted + [e], Transmitted(b, FrameTag(e.frame), e.packetNumber))
  {
    hide Count;
    var t, c := FrameTag(e.frame), Transmitted(b, FrameTag(e.frame), e.packetNumber);
    forall u | u in c.sends ensures c.sends[u] == Count(emitted + [e], u) { CountNext(emitted, e, u); }
    forall u | u !in c.sends ensures Count(emitted + [e], u) == 0 { CountNext(emitted, e, u); }
  }

  lemma LogControl(emitted: seq<Emission>, b: Book, e: Emission)
    requires LogOk(emitted, b) && !e.frame.StreamData? && (AckEliciting(e.frame) ==> FitsWindow(e))
    ensures LogOk(emitted + [e], b)
  {
    hide Count, FlightsLogged, EmissionsFit;
    forall t ensures Count(emitted + [e], t) == Count(emitted, t) { CountNext(emitted, e, t); }
    CarriedMore(emitted, e, b);
    FitsMore(emitted, e);
  }

  /** A change of places leaves the counts alone, and a landing needs no packet. */
  lemma LogSame(emitted: seq<Emission>, b: Book, c: Book)
    requires LogOk(emitted, b) && b.sends == c.sends && b.chunks == c.chunks
    requires forall t :: t in c.place && c.place[t].InFlight? ==> t in b.place && b.place[t] == c.place[t]
    ensures LogOk(emitted, c)
  {
    hide Count, Carried;
  }

  /** New chunks have not been sent yet. */
  lemma {:induction false} LogRegistered(emitted: seq<Emission>, b: Book, id: u64, items: seq<PendingData>)
    requires LogOk(emitted, b) && b.chunks.Keys == b.place.Keys == b.sends.Keys && forall i :: 0 <= i < |items| ==>
      Tag(id, items[i].offset) !in b.chunks
    ensures LogOk(emitted, Registered(b, id, items))
  {
    if |items| > 0 {
      LogRegistered(emitted, b, id, items[..|items| - 1]);
      hide LogOk, Entered;
      var last := items[|items| - 1];
      LogEntered(emitted, b, Registered(b, id, items[..|items| - 1]), Tag(id, last.offset), Chunk(last.data, last.fin));
    }
  }

  lemma LogEntered(emitted: seq<Emission>, a: Book, b: Book, t: Tag, chunk: Chunk)
    requires LogOk(emitted, a) && LogOk(emitted, b) && t !in a.chunks && a.chunks.Keys == a.sends.Keys
    ensures LogOk(emitted, Entered(b, t, chunk))
  {
    hide Count, EmissionsFit, Carried;
    assert Count(emitted, t) == 0;
  }

  ghost function Backlog(pending: seq<QueuedFrame>, queues: Queues): nat
  {
    |pending| + Sum(QueueLengths(queues))
  }

  function QueueLengths(queues: Queues): map<u64, nat>
  {
    map id | id in queues :: |queues[id].queue|
  }

  lemma BacklogPop(queues: Queues, id: u64)
    requires id in queues && |queues[id].queue| > 0
    ensures Sum(QueueLengths(queues[id := Popped(queues[id])])) == Sum(QueueLengths(queues)) - 1
  {
    var now := queues[id := Popped(queues[id])];
    assert QueueLengths(now) == QueueLengths(queues)[id := |queues[id].queue| - 1];
    SumReplace(QueueLengths(queues), id, |queues[id].queue| - 1);
  }

  // ---- What waits to be sent ----

  /** What waits to be sent, and the congestion state. */
  datatype Outbox = Outbox(pending: seq<QueuedFrame>, queues: Queues, congestion: Congestion)

  /** Retransmissions may go at any time, new data only within the stream's window. */
  predicate Sendable(q: SendQueue)
  {
    |q.queue| > 0 && (q.queue[0].retransmitCount != 0 || SatAdd(q.queue[0].offset, |q.queue[0].data|) <= q.maxOffset)
  }

  function FrontOf(id: u64, q: SendQueue): QueuedFrame
    requires |q.queue| > 0 && q.queue[0].offset <= U64_MAX
  {
    QueuedFrame(StreamData(id, q.queue[0].offset, q.queue[0].fin, q.queue[0].data), q.queue[0].retransmitCount, 0)
  }

  /** `f` is the front of the first stream that may send, and leaves its queue. */
  ghost predicate TakesFirst(was: Queues, now: Queues, f: QueuedFrame)
  {
    && f.frame.StreamData? && f.frame.streamId in was && Sendable(was[f.frame.streamId])
    && (forall id :: id in was && Sendable(was[id]) ==> f.frame.streamId <= id)
    && was[f.frame.streamId].queue[0].offset <= U64_MAX && f == FrontOf(f.frame.streamId, was[f.frame.streamId])
    && now == was[f.frame.streamId := Popped(was[f.frame.streamId])]
  }

  /** `f` is the frame to be sent next. */
  ghost predicate IsNext(pending: seq<QueuedFrame>, queues: Queues, f: QueuedFrame)
  {
    if pending != [] then f == pending[0] else TakesFirst(queues, Without(queues, f), f)
  }

  function Without(queues: Queues, f: QueuedFrame): Queues
  {
    if f.frame.StreamData? && f.frame.streamId in queues && |queues[f.frame.streamId].queue| > 0
    then queues[f.frame.streamId := Popped(queues[f.frame.streamId])]
    else queues
  }

  /** A window is closed for the frame: the congestion window, or the peer's for new data. */
  predicate Blocked(c: Congestion, flow: SendFlow, f: QueuedFrame, length: nat)
  {
    || (AckEliciting(f.frame) && !CanSend(c, length))
    || (f.frame.StreamData? && !FlowAllows(flow, |f.frame.data|, f.retransmitCount != 0))
  }

  /** What was put back is the next again. */
  lemma NextAgain(pending: seq<QueuedFrame>, queues: Queues, o: Outbox, f: QueuedFrame)
    requires if pending != []
        then !f.frame.StreamData? && f == pending[0] && o.pending == pending[1..] && o.queues == queues
      else o.pending == [] && TakesFirst(queues, o.queues, f)
    ensures var back := PutBack(o, f); IsNext(back.pending, back.queues, f)
  {
    if pending == [] {
      var id := f.frame.streamId;
      var q := queues[id];
      assert Requeued(Popped(q), FrameItem(f)).queue == q.queue;
    }
  }

  /** A frame goes back to the front of where it came from. */
  function PutBack(o: Outbox, f: QueuedFrame): Outbox
  {
    if !f.frame.StreamData? then o.(pending := [f] + o.pending)
    else if f.frame.streamId !in o.queues then o
    else o.(queues := o.queues[f.frame.streamId := Requeued(o.queues[f.frame.streamId], FrameItem(f))])
  }

  /** What sending reads and changes: what waits, the peer's window, the next number, the frame of
      each packet on record, and the log. */
  datatype Mail = Mail(
    box: Outbox, flow: SendFlow, next: u64, recorded: map<u64, QueuedFrame>, emitted: seq<Emission>)

  function FramesOf(sent: SentTable): map<u64, QueuedFrame>
  {
    map pn | pn in sent :: sent[pn].queued
  }

  lemma FramesWith(was: SentTable, now: SentTable, n: u64, queued: QueuedFrame, length: nat, at: nat)
    requires RecordedAs(was, now, n, queued, length, at)
    ensures FramesOf(now) == FramesOf(was)[n := queued]
  {
    assert FramesOf(now)[n] == queued;
  }

  /** How a frame is put into a packet. */
  datatype Wire = Wire(state: ConnectionState, encrypt: bool, limit: nat)

  function LengthOn(f: QueuedFrame, w: Wire): Result<nat, ProtocolError>
  {
    WireLength(f.frame, w.state, w.encrypt, w.limit)
  }

  /** The frame that is next leaves its place. */
  function Taken(o: Outbox, f: QueuedFrame): Outbox
  {
    if o.pending != [] then o.(pending := o.pending[1..]) else o.(queues := Without(o.queues, f))
  }

  /** Nothing keeps the frame from going out, except its timer. */
  predicate MaySend(m: Mail, f: QueuedFrame, w: Wire)
  {
    var length := LengthOn(f, w);
    m.next < U64_MAX && length.Ok? && !Blocked(m.box.congestion, m.flow, f, length.value)
  }

  /** The frame in hand goes out: it takes a number, and is counted and recorded if it asks for an
      acknowledgement; new data uses up the peer's window. */
  function Handed(m: Mail, f: QueuedFrame, w: Wire): Mail
  {
    var length := if LengthOn(f, w).Ok? then LengthOn(f, w).value else 0;
    if m.next == U64_MAX then m else
    Mail(if Recordable(f.frame) then m.box.(congestion := OnSent(m.box.congestion, length)) else m.box,
        if f.frame.StreamData? && f.retransmitCount == 0 then Account(m.flow, |f.frame.data|) else m.flow,
        m.next + 1, if Recordable(f.frame) then m.recorded[m.next := f] else m.recorded,
        m.emitted + [EmissionOf(m.next, f, length, m.box.congestion)])
  }

  /** The frame that is next goes out. */
  function Posted(m: Mail, f: QueuedFrame, w: Wire): Mail
  {
    Handed(m.(box := Taken(m.box, f)), f, w)
  }

  /** After these frames went out, one after the other. */
  ghost function AllPosted(m: Mail, frames: seq<QueuedFrame>, w: Wire): Mail
  {
    if |frames| == 0 then m else
    Posted(AllPosted(m, frames[..|frames| - 1], w), frames[|frames| - 1], w)
  }

  /** Each of these frames is the next when its turn comes, and may be sent. */
  ghost predicate InTurn(m: Mail, frames: seq<QueuedFrame>, w: Wire)
  {
    |frames| > 0 ==>
      var before, last := AllPosted(m, frames[..|frames| - 1], w), frames[|frames| - 1];
      && InTurn(m, frames[..|frames| - 1], w)
      && IsNext(before.box.pending, before.box.queues, last) && MaySend(before, last, w)
  }

  lemma PostedNext(m: Mail, frames: seq<QueuedFrame>, f: QueuedFrame, w: Wire)
    requires InTurn(m, frames, w)
    requires var now := AllPosted(m, frames, w); IsNext(now.box.pending, now.box.queues, f) && MaySend(now, f, w)
    ensures InTurn(m, frames + [f], w) && AllPosted(m, frames + [f], w) == Posted(AllPosted(m, frames, w), f, w)
  {
    assert (frames + [f])[..|frames|] == frames;
    hide IsNext, MaySend, Posted;
  }

  /** The packet sent right after these carries an acknowledgement. */
  predicate AckNext(emitted: seq<Emission>, later: seq<Emission>)
  {
    |emitted| < |later| && later[|emitted|].frame.Ack?
  }

  lemma {:induction false} PostedLog(m: Mail, frames: seq<QueuedFrame>, w: Wire)
    ensures m.emitted <= AllPosted(m, frames, w).emitted
  {
    if |frames| > 0 { PostedLog(m, frames[..|frames| - 1], w); }
  }

  lemma AckLogged(m: Mail, ack: AckFrame, frames: seq<QueuedFrame>, w: Wire, now: Mail)
    requires m.next < U64_MAX && Restored(AllPosted(AckPosted(m, ack, w), frames, w), now)
    ensures AckNext(m.emitted, now.emitted)
  {
    hide AckLength, IsNext;
    PostedLog(AckPosted(m, ack, w), frames, w);
    assert AckPosted(m, ack, w).emitted[|m.emitted|].frame.Ack?;
  }

  lemma MayTake(m: Mail, f: QueuedFrame, w: Wire)
    ensures MaySend(m.(box := Taken(m.box, f)), f, w) == MaySend(m, f, w)
  {
  }

  lemma NonePosted(m: Mail, w: Wire)
    ensures InTurn(m, [], w) && AllPosted(m, [], w) == m
  {
  }

  lemma SameRestored(m: Mail)
    ensures Restored(m, m)
  {
  }

  lemma NoneNext(m: Mail, now: Mail, w: Wire)
    requires m.box.pending == [] && forall id :: id in m.box.queues ==> !Sendable(m.box.queues[id])
    requires now == m
    ensures Stopped(m, w) && Restored(m, now)
  {
  }

  lemma NextBlocked(m: Mail, now: Mail, f: QueuedFrame, w: Wire)
    requires IsNext(m.box.pending, m.box.queues, f) && LengthOn(f, w).Ok?
    requires Blocked(m.box.congestion, m.flow, f, LengthOn(f, w).value)
    requires now == m.(box := PutBack(Taken(m.box, f), f))
    ensures Stopped(m, w) && Restored(m, now)
  {
  }

  /** A frame taken is the one that was next, and only it left its place. */
  lemma FirstTaken(was: Outbox, now: Outbox, f: QueuedFrame)
    requires if was.pending != [] then f == was.pending[0] && now == was.(pending := was.pending[1..])
      else now == was.(queues := now.queues) && TakesFirst(was.queues, now.queues, f)
    ensures IsNext(was.pending, was.queues, f) && now == Taken(was, f)
  {
  }

  /** An acknowledgement goes out first, under its own number. */
  function AckPosted(m: Mail, ack: AckFrame, w: Wire): Mail
  {
    if m.next == U64_MAX then m else
    m.(next := m.next + 1, emitted := m.emitted + [AckEmission(m.next, ack, w.encrypt, w.limit, m.box.congestion)])
  }

  /** No frame is left that may go: none is next, or a window is closed for the one that is. */
  ghost predicate Stopped(m: Mail, w: Wire)
  {
    || (m.box.pending == [] && forall id :: id in m.box.queues ==> !Sendable(m.box.queues[id]))
    || exists f :: IsNext(m.box.pending, m.box.queues, f) && LengthOn(f, w).Ok?
         && Blocked(m.box.congestion, m.flow, f, LengthOn(f, w).value)
  }

  /** The frame that is next cannot be encoded, numbered or timed. */
  ghost predicate Stuck(m: Mail, w: Wire, clock: Clock, rto: nat)
  {
    exists f :: IsNext(m.box.pending, m.box.queues, f)
        && (LengthOn(f, w).Err? || m.next == U64_MAX || !CanSet(clock, rto))
  }

  /** Looking at the frame that is next and putting it back leaves everything else as it was. */
  ghost predicate Restored(m: Mail, now: Mail)
  {
    now == m || exists f :: IsNext(m.box.pending, m.box.queues, f) && now == m.(box := PutBack(Taken(m.box, f), f))
  }

  /** A lost packet shrinks the window, and its frame is to be sent once more. */
  function LoseOne(o: Outbox, p: SentPacket): Outbox
  {
    PutBack(o.(congestion := OnLoss(o.congestion, p.encodedLen)), Again(p.queued))
  }

  /** The congestion state after these packets were acknowledged, in order of their numbers. */
  ghost function AckRun(c: Congestion, sent: SentTable, numbers: set<u64>): Congestion
    decreases |numbers|
  {
    if numbers == {} then c else
    var pn := LeastOf(numbers);
    AckRun(if pn in sent then OnAcked(c, sent[pn].encodedLen) else c, sent, numbers - {pn})
  }

  /** What waits after these packets were lost, in order of their numbers. */
  ghost function LoseRun(o: Outbox, sent: SentTable, numbers: set<u64>): Outbox
    decreases |numbers|
  {
    if numbers == {} then o else
    var pn := LeastOf(numbers);
    LoseRun(if pn in sent then LoseOne(o, sent[pn]) else o, sent, numbers - {pn})
  }

  lemma AckStep(c: Congestion, sent: SentTable, numbers: set<u64>, pn: u64)
    requires pn in numbers && pn in sent && forall j :: j in numbers ==> pn <= j
    ensures AckRun(c, sent, numbers) == AckRun(OnAcked(c, sent[pn].encodedLen), sent, numbers - {pn})
  {
    hide OnAcked;
    assert LeastOf(numbers) == pn;
  }

  lemma LoseStep(o: Outbox, sent: SentTable, numbers: set<u64>, pn: u64)
    requires pn in numbers && pn in sent && forall j :: j in numbers ==> pn <= j
    ensures LoseRun(o, sent, numbers) == LoseRun(LoseOne(o, sent[pn]), sent, numbers - {pn})
  {
    hide LoseOne;
    assert LeastOf(numbers) == pn;
  }

  lemma AckNone(c: Congestion, sent: SentTable)
    ensures AckRun(c, sent, {}) == c
  {
  }

  lemma LoseNone(o: Outbox, sent: SentTable)
    ensures LoseRun(o, sent, {}) == o
  {
  }

  /** Packets with at least `threshold` of the acknowledged numbers above them. */
  function Overtaken(sent: SentTable, acknowledged: set<u64>, threshold: nat): set<u64>
  {
    set pn | pn in sent && |set a | a in acknowledged && a > pn| >= threshold
  }

  lemma OvertakenSent(sent: SentTable, acknowledged: set<u64>, threshold: nat)
    ensures Overtaken(sent, acknowledged, threshold) <= sent.Keys
  {
  }

  /** What an acknowledgement does: the covered packets are done and open the window; of the
      rest, those overtaken are lost, and their frames wait to be sent once more. */
  ghost predicate AckApplied(sent: SentTable, o: Outbox, ranges: seq<AckRange>, threshold: nat, sent': SentTable,
          o': Outbox)
  {
    var acked := Covered(sent, ranges);
    var rest := sent - acked;
    var lost := OvertakenBy(sent, ranges, threshold);
    sent' == rest - lost && o' == LoseRun(o.(congestion := AckRun(o.congestion, sent, acked)), rest, lost)
  }

  /** The packets that an acknowledgement of these ranges overtakes. */
  function OvertakenBy(sent: SentTable, ranges: seq<AckRange>, threshold: nat): set<u64>
  {
    Overtaken(sent - Covered(sent, ranges), Covered(sent, ranges), threshold)
  }

  /** Some of these packets has been sent as often as allowed. */
  ghost predicate AnyLimited(sent: SentTable, numbers: set<u64>, settings: Settings)
  {
    exists pn :: pn in numbers && pn in sent && Limited(sent[pn].queued, settings).Err?
  }

  lemma LimitedBefore(was: SentTable, now: SentTable, numbers: set<u64>, settings: Settings)
    requires numbers <= now.Keys && forall pn :: pn in now ==> pn in was && was[pn] == now[pn]
    ensures AnyLimited(was, numbers, settings) <==> AnyLimited(now, numbers, settings)
  {
    hide Limited;
    if AnyLimited(was, numbers, settings) {
      var pn :| pn in numbers && pn in was && Limited(was[pn].queued, settings).Err?;
      assert pn in now;
    }
  }

  function Covered(sent: SentTable, ranges: seq<AckRange>): set<u64>
  {
    set pn | pn in sent && AckCovers(ranges, pn)
  }

  lemma CoveredFacts(sent: SentTable, ranges: seq<AckRange>)
    ensures Covered(sent, ranges) <= sent.Keys && forall pn :: pn in Covered(sent, ranges) ==> AckCovers(ranges, pn)
  {
  }

  lemma AckDone(sent: SentTable, o: Outbox, ranges: seq<AckRange>, threshold: nat, table: SentTable, box: Outbox,
          sent': SentTable, o': Outbox)
    requires var acked := Covered(sent, ranges); var lost := Overtaken(table, acked, threshold);
      && table == sent - acked && box == o.(congestion := AckRun(o.congestion, sent, acked))
      && sent' == table - lost && o' == LoseRun(box, table, lost)
    ensures AckApplied(sent, o, ranges, threshold, sent', o')
  {
  }

  /** Why a write is refused, or that all of it is taken. */
  function WriteAnswer(state: ConnectionState, shut: set<u64>, queues: Queues, id: u64, length: nat,
          maxBuffer: nat): Done
  {
    if state != Established then Err(InvalidState)
    else if id !in queues then Err(UnknownStream)
    else if id in shut then Err(InvalidState)
    else
      var q := queues[id];
      var available := SatSub(maxBuffer, q.queuedBytes);
      var refusal := WriteRefusal(q.finRequested || q.finSent, length, available, q.nextOffset, q.maxOffset);
      if refusal.Some? then Err(Refused(refusal.value)) else Ok(true)
  }

  class Connection {
    const settings: Settings
    const timers: TimerState
    const received: ReceivedPackets
    var state: ConnectionState
    var nextPacketNumber: u64
    var pendingFrames: seq<QueuedFrame>
    var sent: SentTable
    var ackPending: bool
    var ackReady: bool
    var generation: u32
    var congestion: Congestion
    var queues: Queues
    /** The streams that are not open any more. */
    var shut: set<u64>
    var flow: SendFlow
    var lastPingNonce: u64
    ghost var book: Book
    /** How often each queued control frame was sent. */
    var tries: Tries
    ghost var expired: set<TimerEvent>
    /** Everything handed to the network so far. */
    var emitted: seq<Emission>

    ghost function View(): Sender
      reads this, timers, timers.wheel, timers.wheel.tasks
    {
      Sender(queues, sent, book, timers.Retransmits(), timers.Issued(), expired, congestion, nextPacketNumber,
          state == Closed)
    }

    ghost function Waiting(): Outbox
      reads this
    {
      Outbox(pendingFrames, queues, congestion)
    }

    /** What sending reads and changes. */
    ghost function Outgoing(): Mail
      reads this
    {
      Mail(Waiting(), flow, nextPacketNumber, FramesOf(sent), emitted)
    }

    function OnWire(encrypt: bool): Wire
      reads this
    {
      Wire(state, encrypt, settings.maxDatagramSize)
    }

    function Bounded(): Bounds
    {
      Bounds(settings.maxDatagramSize, settings.maxRetransmissions)
    }

    /** The invariant with the frame `hand` popped and not yet sent or put back. */
    ghost predicate Holding(hand: Option<Tag>)
      reads this, timers, timers.wheel, timers.wheel.tasks, timers.wheel.heap
    {
      && SettingsOk(settings) && timers.Valid()
      && Sound(Bounded(), View(), hand) && LogOk(emitted, book)
      && ControlOnly(pendingFrames, settings.maxRetransmissions) && NumbersUsed(emitted, nextPacketNumber)
    }

    /** The ledger agrees with what waits, was sent and was logged, the frame `f` being in hand. */
    ghost predicate Counts(f: Option<QueuedFrame>)
      reads this
    {
      LedgerOk(if f.Some? then With(f.value, pendingFrames) else pendingFrames, sent, tries, emitted,
        settings.maxRetransmissions)
    }

    ghost predicate Valid()
      reads this, timers, timers.wheel, timers.wheel.tasks, timers.wheel.heap
    {
      Holding(None) && FlowOk(book, flow) && Counts(None)
    }

    constructor (settings: Settings, timerConfig: WheelConfig.Config, initialCwnd: nat, minCwnd: nat, maxCwnd: nat,
            connectionWindow: nat)
      requires SettingsOk(settings) && WheelConfig.Layout(timerConfig.levels)
      requires 0 < timerConfig.baseTickNanos <= U64_MAX
      requires minCwnd <= initialCwnd <= maxCwnd <= U64_MAX
      ensures Valid() && received.Valid() && fresh(timers) && fresh(timers.wheel)
      ensures fresh(timers.wheel.tasks) && fresh(timers.wheel.heap) && fresh(received)
      ensures Outgoing() == Mail(Outbox([], map[],
          Congestion(initialCwnd, maxCwnd, 0, minCwnd, maxCwnd, Max(settings.maxDatagramSize, 1))),
        SendFlow(connectionWindow, 0), 0, map[], [])
      ensures sent == map[] && shut == {} && book == EmptyBook(connectionWindow) && expired == {}
      ensures received.received == {} && this.settings == settings && state == Idle && !ackPending && !ackReady
      ensures timers.Live() == map[] && timers.slots == Slots(None, None, None, None, None)
      ensures timers.wheel.Now() == Clock(0, 0, timerConfig.baseTickNanos)
    {
      this.settings := settings;
      timers := new TimerState(timerConfig);
      received := new ReceivedPackets();
      state, nextPacketNumber, pendingFrames, sent := Idle, 0, [], map[];
      ackPending, ackReady, generation, lastPingNonce := false, false, 0, 0;
      congestion := Congestion(initialCwnd, maxCwnd, 0, minCwnd, maxCwnd, Max(settings.maxDatagramSize, 1));
      queues, shut, flow := map[], {}, SendFlow(connectionWindow, 0);
      book, expired, emitted, tries := EmptyBook(connectionWindow), {}, [], Tries(map[], 0);
      new;
      hide Sound, TimerState.Valid, ReceivedPackets.Valid, LogOk, LedgerOk, FlowOk;
      NothingYet(Bounded(), View(), flow);
    }

    /** The timers that a new connection sets: idle, and keepalive if there is an interval. A
        client's handshake is not modelled. */
    method StartTimers() returns (r: Done)
      requires Valid()
      modifies timers, timers.wheel, timers.wheel.tasks, timers.wheel.heap
      ensures Valid() && timers.wheel.Now() == old(timers.wheel.Now())
      ensures r.Err? ==> r.error.TimerFailed?
      ensures r.Ok? ==>
        && timers.slots.idle == Some(old(timers.Issued()))
        && Fires(timers.wheel.View(), timers.wheel.Now(), old(timers.Issued()), IdleTimeout, settings.idleTimeout)
      ensures r.Ok? && settings.keepaliveInterval.Some? ==>
        && timers.slots.keepalive.Some?
        && Fires(timers.wheel.View(), timers.wheel.Now(), timers.slots.keepalive.value, Keepalive,
             settings.keepaliveInterval.value)
      ensures r.Ok? <==>
        && CanSet(timers.wheel.Now(), settings.idleTimeout)
        && (settings.keepaliveInterval.Some? ==> CanSet(timers.wheel.Now(), settings.keepaliveInterval.value))
    {
      hide Sound, NumbersUsed, LedgerOk, FlowOk, Progress, TimerState.Valid, TimerState.Retransmits, LogOk;
      r := ResetIdle();
      if r.Err? { return r; }
      if settings.keepaliveInterval.Some? {
        ghost var s := View();
        var next := timers.ScheduleKeepalive(settings.keepaliveInterval.value);
        SoundIssued(Bounded(), s, None, timers.Issued());
        if next.Err? { return Err(TimerFailed(next.error)); }
      }
    }

    /** `reset_idle_timer`: the earlier one is given up. */
    method ResetIdle() returns (r: Done)
      requires Valid()
      modifies timers, timers.wheel, timers.wheel.tasks, timers.wheel.heap
      ensures Valid() && timers.wheel.Now() == old(timers.wheel.Now())
      ensures r.Err? ==> r.error.TimerFailed?
      ensures r.Ok? <==> CanSet(timers.wheel.Now(), settings.idleTimeout)
      ensures r.Ok? ==> timers.Issued() == old(timers.Issued()) + 1
      ensures r.Ok? ==>
        && timers.slots == old(timers.slots).(idle := Some(old(timers.Issued())))
        && timers.Live() == Less(old(timers.Live()), old(timers.slots.idle))[old(timers.Issued()) := IdleTimeout]
        && Fires(timers.wheel.View(), timers.wheel.Now(), old(timers.Issued()), IdleTimeout, settings.idleTimeout)
    {
      hide Sound, NumbersUsed, LedgerOk, FlowOk, Progress, TimerState.Valid, TimerState.Retransmits, LogOk;
      ghost var s := View();
      var idle := timers.ScheduleIdle(settings.idleTimeout);
      SoundIssued(Bounded(), s, None, timers.Issued());
      if idle.Err? { return Err(TimerFailed(idle.error)); }
      r := Ok(true);
    }

    // ---- Candidates ----

    /** `take_data_candidate`: control frames first, then the lowest stream that may send. */
    method TakeDataCandidate() returns (c: Option<QueuedFrame>)
      requires Valid()
      modifies this`pendingFrames, this`queues
      ensures c.None? ==> Valid() && pendingFrames == [] && queues == old(queues)
      ensures c.Some? ==> Holding(HandOf(c.value.frame)) && HandOk(Bounded(), book, c.value) && Counts(c)
      ensures c.Some? ==> Backlog(pendingFrames, queues) == old(Backlog(pendingFrames, queues)) - 1
      ensures c.Some? && c.value.frame.StreamData? ==> c.value.frame.streamId in queues
      ensures old(pendingFrames) != [] ==>
        && c == Some(old(pendingFrames)[0]) && pendingFrames == old(pendingFrames)[1..] && queues == old(queues)
      ensures old(pendingFrames) == [] ==>
        && pendingFrames == []
        && if c.Some? then TakesFirst(old(queues), queues, c.value) else forall id :: id in queues ==>
              !Sendable(queues[id])
    {
      hide Sound, NumbersUsed, LedgerOk, FlowOk, Progress, TimerState.Valid, TimerState.Retransmits;
      hide QueueLengths, Sum, LogOk, Popped, TakesFirst, Sendable;
      if |pendingFrames| > 0 {
        var first := pendingFrames[0];
        assert first in pendingFrames;
        assert With(first, pendingFrames[1..]) == pendingFrames;
        pendingFrames := pendingFrames[1..];
        return Some(first);
      }
      c := TakeSendable();
    }

    /** `take_sendable`: retransmissions may go at any time, new data only within the stream's window. */
    method TakeSendable() returns (c: Option<QueuedFrame>)
      requires Valid()
      modifies this`queues
      ensures c.None? ==> Valid() && queues == old(queues)
      ensures c.Some? ==>
        && c.value.frame.StreamData? && Holding(HandOf(c.value.frame)) && HandOk(Bounded(), book, c.value)
      ensures c.Some? ==> Sum(QueueLengths(queues)) == old(Sum(QueueLengths(queues))) - 1
      ensures c.Some? ==> c.value.frame.streamId in queues
      ensures c.Some? ==> TakesFirst(old(queues), queues, c.value)
      ensures c.None? ==> forall id :: id in queues ==> !Sendable(queues[id])
    {
      hide Sound, NumbersUsed, LedgerOk, FlowOk, Progress, TimerState.Valid, TimerState.Retransmits;
      hide QueueLengths, Sum, LogOk, HandOk, HandOf, Popped;
      var ids := queues.Keys;
      while ids != {}
        invariant Valid() && queues == old(queues) && ids <= queues.Keys
        invariant forall id :: id in queues && id !in ids ==> !Sendable(queues[id])
        decreases |ids|
      {
        var id := SmallestOf(ids);
        ids := ids - {id};
        var q := queues[id];
        if |q.queue| > 0 {
          var item := q.queue[0];
          if item.retransmitCount != 0 || SatAdd(item.offset, |item.data|) <= q.maxOffset {
            c := PopFrom(id);
            return c;
          }
        }
      }
      c := None;
    }

    method PopFrom(id: u64) returns (c: Option<QueuedFrame>)
      requires Valid() && id in queues && |queues[id].queue| > 0
      modifies this`queues
      ensures c.Some? && c.value.frame.StreamData? && Holding(HandOf(c.value.frame)) && HandOk(Bounded(), book, c.value)
      ensures Sum(QueueLengths(queues)) == old(Sum(QueueLengths(queues))) - 1
      ensures c.value.frame.streamId in queues
      ensures old(queues)[id].queue[0].offset <= U64_MAX && c.value == FrontOf(id, old(queues)[id])
      ensures queues == old(queues)[id := Popped(old(queues)[id])]
    {
      hide Sound, NumbersUsed, LedgerOk, FlowOk, Progress, TimerState.Valid;
      hide TimerState.Retransmits, QueueLengths, Sum, LogOk, Popped;
      var item := queues[id].queue[0];
      SoundPop(Bounded(), View(), id);
      BacklogPop(queues, id);
      SmallOffset(Bounded(), View(), id);
      queues := queues[id := Popped(queues[id])];
      c := Some(QueuedFrame(StreamData(id, item.offset, item.fin, item.data), item.retransmitCount, 0));
    }

    /** `requeue_candidate`: what was popped goes back to the front. */
    method RequeueCandidate(queued: QueuedFrame)
      requires Holding(HandOf(queued.frame)) && HandOk(Bounded(), book, queued) && FlowOk(book, flow)
      requires Counts(Some(queued))
      requires queued.frame.StreamData? ==> queued.frame.streamId in queues
      modifies this`pendingFrames, this`queues
      ensures Valid() && Waiting() == PutBack(old(Waiting()), queued)
    {
      hide Sound, NumbersUsed, LedgerOk, FlowOk, Progress, TimerState.Valid, TimerState.Retransmits, LogOk, Requeued;
      if queued.frame.StreamData? {
        var id, item := queued.frame.streamId, FrameItem(queued);
        SoundPush(Bounded(), View(), id, item);
        queues := queues[id := Requeued(queues[id], item)];
      } else {
        pendingFrames := [queued] + pendingFrames;
      }
    }

    // ---- Sending ----

    /** One round of `flush` for a popped frame: it is emitted, or put back because a window is
        closed. A chunk of stream data never fails to encode. */
    method SendFrame(queued: QueuedFrame, encrypt: bool, now: nat, rto: nat) returns (r: Done)
      requires Holding(HandOf(queued.frame)) && HandOk(Bounded(), book, queued) && FlowOk(book, flow)
      requires Counts(Some(queued))
      requires queued.frame.StreamData? ==> queued.frame.streamId in queues
      modifies this`pendingFrames, this`queues, this`flow, this`nextPacketNumber, this`emitted, this`generation,
        this`congestion, this`sent, this`book, this`tries, timers.wheel, timers.wheel.tasks, timers.wheel.heap
      ensures r.Ok? ==> Valid()
      ensures timers.wheel.Now() == old(timers.wheel.Now())
      ensures r.Err? ==>
        || WireLength(queued.frame, state, encrypt, settings.maxDatagramSize).Err? || old(nextPacketNumber) == U64_MAX
        || !CanSet(timers.wheel.Now(), rto)
      ensures r == Ok(true) ==>
        && MaySend(old(Outgoing()), queued, OnWire(encrypt))
        && Outgoing() == Handed(old(Outgoing()), queued, OnWire(encrypt))
      ensures r == Ok(false) ==> var wire := WireLength(queued.frame, state, encrypt, settings.maxDatagramSize);
        wire.Ok? && Blocked(congestion, flow, queued, wire.value)
      ensures r == Ok(false) ==>
        && Waiting() == PutBack(old(Waiting()), queued) && sent == old(sent) && emitted == old(emitted)
        && congestion == old(congestion) && flow == old(flow) && nextPacketNumber == old(nextPacketNumber)
      ensures r == Ok(true) ==> pendingFrames == old(pendingFrames) && queues == old(queues)
      ensures r == Ok(true) && Recordable(queued.frame) ==>
        var wire := WireLength(queued.frame, state, encrypt, settings.maxDatagramSize);
        wire.Ok? && RecordedAs(old(sent), sent, old(nextPacketNumber), queued, wire.value, now)
      ensures r.Err? && queued.frame.StreamData? && RoomForChunks(settings.maxDatagramSize) ==> !r.error.Protocol?
      ensures r.Ok? ==> Progress(old(book), old(emitted), book, emitted)
      ensures r != Err(AckForUnsentPacket)
    {
      hide Sound, NumbersUsed, LedgerOk, FlowOk, Progress, TimerState.Valid, TimerState.Retransmits, LogOk, Backlog;
      hide HandOk, HandOf, WireLength, FitsEncrypted, CanSend, FlowAllows, Account, PutBack, FramesOf, RecordedAs;
      ProgressSame(book, emitted);
      if queued.frame.StreamData? && RoomForChunks(settings.maxDatagramSize) {
        SmallChunk(Bounded(), View(), queued);
        ChunkLength(queued.frame, settings.maxDatagramSize);
        FitsOnWire(queued.frame, state, encrypt, settings.maxDatagramSize);
      }
      var wire := WireLength(queued.frame, state, encrypt, settings.maxDatagramSize);
      if wire.Err? { return Err(Protocol(wire.error)); }
      var length := wire.value;
      if AckEliciting(queued.frame) && !CanSend(congestion, length) {
        RequeueCandidate(queued);
        return Ok(false);
      }
      if nextPacketNumber == U64_MAX { return Err(NumbersExhausted); }
      if queued.frame.StreamData? {
        var size := |queued.frame.data|;
        if !FlowAllows(flow, size, queued.retransmitCount != 0) {
          RequeueCandidate(queued);
          return Ok(false);
        }
        HandFirst(Bounded(), book, queued, nextPacketNumber, flow);
        if queued.retransmitCount == 0 { flow := Account(flow, size); }
      }
      ghost var table, number := sent, nextPacketNumber;
      r := Emit(queued, length, now, rto);
      if r.Ok? && Recordable(queued.frame) { FramesWith(table, sent, number, queued, length, now); }
    }

    /** The packet goes out and, if it asks for an acknowledgement, is recorded. */
    method Emit(queued: QueuedFrame, length: nat, now: nat, rto: nat) returns (r: Done)
      requires Holding(HandOf(queued.frame)) && HandOk(Bounded(), book, queued) && nextPacketNumber < U64_MAX
      requires Counts(Some(queued))
      requires FlowOk(SentBook(book, queued.frame, nextPacketNumber), flow)
      requires AckEliciting(queued.frame) ==> CanSend(congestion, length)
      modifies this`nextPacketNumber, this`emitted, this`generation, this`congestion, this`sent, this`book,
        this`tries, timers.wheel, timers.wheel.tasks, timers.wheel.heap
      ensures r.Ok? ==> Valid() && r == Ok(true)
      ensures r.Err? ==> r.error.TimerFailed? && !CanSet(timers.wheel.Now(), rto)
      ensures timers.wheel.Now() == old(timers.wheel.Now())
      ensures r.Ok? ==> nextPacketNumber == old(nextPacketNumber) + 1 && if Recordable(queued.frame)
        then RecordedAs(old(sent), sent, old(nextPacketNumber), queued, length, now)
             && congestion == OnSent(old(congestion), length)
        else sent == old(sent) && congestion == old(congestion)
      ensures r.Ok? ==>
        emitted == old(emitted) + [EmissionOf(old(nextPacketNumber), queued, length, old(congestion))]
      ensures r.Ok? ==> Progress(old(book), old(emitted), book, emitted)
    {
      hide Sound, NumbersUsed, LedgerOk, FlowOk, Progress;
      hide TimerState.Valid, TimerState.Retransmits, LogOk, HandOk, HandOf;
      var e := EmissionOf(nextPacketNumber, queued, length, congestion);
      WindowFits(Bounded(), View(), HandOf(queued.frame), length);
      if Recordable(queued.frame) {
        r := RecordSent(queued, length, now, rto, e);
      } else {
        HandOfControl(queued.frame);
        HandInBook(Bounded(), book, queued);
        LedgerUsed(queued, pendingFrames, sent, tries, emitted, e, settings.maxRetransmissions);
        UseNumber(e, Tried(tries, queued));
        r := Ok(true);
      }
    }

    /** A packet that is not recorded uses up a number. */
    method UseNumber(e: Emission, after: Tries)
      requires Holding(None) && FlowOk(book, flow) && nextPacketNumber < U64_MAX
      requires e.packetNumber == nextPacketNumber && !e.frame.StreamData? && (AckEliciting(e.frame) ==> FitsWindow(e))
      requires LedgerOk(pendingFrames, sent, after, emitted + [e], settings.maxRetransmissions)
      modifies this`nextPacketNumber, this`emitted, this`tries
      ensures Valid() && emitted == old(emitted) + [e] && Progress(book, old(emitted), book, emitted)
      ensures nextPacketNumber == old(nextPacketNumber) + 1
    {
      hide Sound, NumbersUsed, LedgerOk, FlowOk, Progress, TimerState.Valid, TimerState.Retransmits, LogOk;
      LogControl(emitted, book, e);
      ProgressLog(book, emitted, e);
      NumbersMore(emitted, e);
      emitted := emitted + [e];
      tries := after;
      SoundSkip(Bounded(), View());
      nextPacketNumber := nextPacketNumber + 1;
    }

    /** `record_sent`: the retransmission timer and the record of the packet. */
    method RecordSent(queued: QueuedFrame, length: nat, now: nat, rto: nat, e: Emission) returns (r: Done)
      requires Holding(HandOf(queued.frame)) && HandOk(Bounded(), book, queued) && nextPacketNumber < U64_MAX
      requires Counts(Some(queued))
      requires FlowOk(SentBook(book, queued.frame, nextPacketNumber), flow)
      requires CanSend(congestion, length) && e.frame == queued.frame && e.serial == SerialOf(queued)
      requires FitsWindow(e) && e.packetNumber == nextPacketNumber
      modifies this`nextPacketNumber, this`emitted, this`generation, this`congestion, this`sent, this`book,
        this`tries, timers.wheel, timers.wheel.tasks, timers.wheel.heap
      ensures r.Ok? ==> Valid() && r == Ok(true) && emitted == old(emitted) + [e]
      ensures r.Ok? ==> nextPacketNumber == old(nextPacketNumber) + 1 && congestion == OnSent(old(congestion), length)
      ensures r.Ok? ==> RecordedAs(old(sent), sent, old(nextPacketNumber), queued, length, now)
      // Its timer fires after the retransmission timeout, with its number and generation.
      ensures r.Ok? ==>
        && generation == (if old(generation) == U32_MAX then 0 else old(generation) + 1)
        && sent[old(nextPacketNumber)].generation == generation
        && Fires(timers.wheel.View(), timers.wheel.Now(), sent[old(nextPacketNumber)].timerId,
             Retransmit(old(nextPacketNumber), generation), rto)
      ensures r.Ok? <==> CanSet(timers.wheel.Now(), rto)
      ensures r.Err? ==> r.error.TimerFailed?
      ensures timers.wheel.Now() == old(timers.wheel.Now())
      ensures r.Ok? ==> Progress(old(book), old(emitted), book, emitted)
    {
      hide Sound, NumbersUsed, LedgerOk, FlowOk, Progress, TimerState.Valid, TimerState.Retransmits;
      hide LogOk, HandOk, HandOf, OnSent, CanSend, TransportModel.Recorded, Tried, With;
      generation := if generation == U32_MAX then 0 else generation + 1;
      ghost var s := View();
      var timer := timers.Schedule(Retransmit(nextPacketNumber, generation), rto);
      if timer.Err? { return Err(TimerFailed(timer.error)); }
      var p := SentPacket(now, length, queued, timer.value, generation);
      HandInBook(Bounded(), book, queued);
      SoundSend(Bounded(), s, p);
      RecordedFields(s, p);
      RecordedLog(s, p, emitted, e);
      NumberUnused(Bounded(), s, HandOf(queued.frame));
      LedgerSent(queued, pendingFrames, sent, nextPacketNumber, p, tries, emitted, e, settings.maxRetransmissions);
      AddSent(p, TransportModel.Recorded(s, p), e, Tried(tries, queued));
      r := Ok(true);
    }

    /** The packet enters the sent table and the log; its timer is set already. */
    method AddSent(p: SentPacket, ghost after: Sender, e: Emission, counts: Tries)
      requires SettingsOk(settings) && timers.Valid()
      requires ControlOnly(pendingFrames, settings.maxRetransmissions) && nextPacketNumber < U64_MAX
      requires Sound(Bounded(), after, None) && LogOk(emitted + [e], after.book)
      requires NumbersUsed(emitted, nextPacketNumber) && e.packetNumber == nextPacketNumber
      requires LedgerOk(pendingFrames, sent[nextPacketNumber := p], counts, emitted + [e], settings.maxRetransmissions)
      requires FlowOk(after.book, flow)
      requires after == Sender(queues, sent[nextPacketNumber := p], after.book, timers.Retransmits(), timers.Issued(),
        expired, OnSent(congestion, p.encodedLen), nextPacketNumber + 1, state == Closed)
      modifies this`nextPacketNumber, this`congestion, this`sent, this`book, this`emitted, this`tries
      ensures Valid() && emitted == old(emitted) + [e] && book == after.book
      ensures nextPacketNumber == old(nextPacketNumber) + 1 && congestion == OnSent(old(congestion), p.encodedLen)
      ensures sent == old(sent)[old(nextPacketNumber) := p]
    {
      hide Sound, NumbersUsed, LedgerOk, FlowOk, Progress, TimerState.Valid;
      hide TimerState.Retransmits, LogOk, OnSent, ControlOnly;
      NumbersMore(emitted, e);
      congestion := OnSent(congestion, p.encodedLen);
      sent := sent[nextPacketNumber := p];
      nextPacketNumber := nextPacketNumber + 1;
      book := after.book;
      emitted := emitted + [e];
      tries := counts;
    }

    /** An acknowledgement goes out without being recorded. */
    method SendAck(frame: AckFrame, encrypt: bool) returns (r: Done)
      requires Valid()
      modifies this`nextPacketNumber, this`emitted, this`ackPending, this`ackReady, this`tries, timers,
        timers.wheel, timers.wheel.tasks, timers.wheel.heap
      ensures r.Ok? ==> Valid() && r == Ok(true) && !ackPending && !ackReady
      ensures var length := AckLength(frame, encrypt, settings.maxDatagramSize);
        r == if length.Err? then Err(Protocol(length.error))
          else if old(nextPacketNumber) == U64_MAX then Err(NumbersExhausted) else Ok(true)
      ensures r.Ok? ==>
        && nextPacketNumber == old(nextPacketNumber) + 1
        && emitted == old(emitted) +
              [AckEmission(old(nextPacketNumber), frame, encrypt, settings.maxDatagramSize, congestion)]
      ensures r.Err? ==> ackPending == old(ackPending) && ackReady == old(ackReady)
      ensures timers.wheel.Now() == old(timers.wheel.Now())
      ensures r.Ok? ==> Progress(old(book), old(emitted), book, emitted)
      ensures r != Err(AckForUnsentPacket)
    {
      hide Sound, NumbersUsed, LedgerOk, FlowOk, Progress, TimerState.Valid, TimerState.Retransmits, LogOk;
      var length := AckLength(frame, encrypt, settings.maxDatagramSize);
      if length.Err? { return Err(Protocol(length.error)); }
      if nextPacketNumber == U64_MAX { return Err(NumbersExhausted); }
      var e := AckEmission(nextPacketNumber, frame, encrypt, settings.maxDatagramSize, congestion);
      LedgerOther(pendingFrames, sent, tries, emitted, e, settings.maxRetransmissions);
      UseNumber(e, tries);
      ackPending, ackReady := false, false;
      timers.CancelAck();
      r := Ok(true);
    }

    /** Nothing is left to send: an acknowledgement is due but there is none to give, nothing waits,
        or a window is closed for the frame that is next. */
    ghost predicate Exhausted(encrypt: bool)
      reads this, received
    {
      || (ackPending && ackReady && received.ranges == [])
      || (pendingFrames == [] && forall id :: id in queues ==> !Sendable(queues[id]))
      || exists f :: IsNext(pendingFrames, queues, f) && Halted(f, encrypt)
    }

    ghost predicate Halted(f: QueuedFrame, encrypt: bool)
      reads this
    {
      var wire := WireLength(f.frame, state, encrypt, settings.maxDatagramSize);
      wire.Ok? && Blocked(congestion, flow, f, wire.value)
    }

    lemma NothingToGive(encrypt: bool)
      requires ackPending && ackReady && received.ranges == []
      ensures Exhausted(encrypt)
    {
    }

    /** A round of `flush` when an acknowledgement is due. */
    method AckRound(encrypt: bool, now: nat) returns (r: Done, ghost ack: Option<AckFrame>)
      requires Valid() && received.Valid() && ackPending && ackReady
      modifies this`nextPacketNumber, this`emitted, this`ackPending, this`ackReady, this`tries, timers,
        timers.wheel, timers.wheel.tasks, timers.wheel.heap
      ensures r.Ok? ==> Valid() && Progress(old(book), old(emitted), book, emitted)
      ensures timers.wheel.Now() == old(timers.wheel.Now())
      ensures r == Ok(true) ==>
        && !(ackPending && ackReady) && received.ranges != [] && old(nextPacketNumber) < U64_MAX
        && ack.Some? && ack.value.ranges == received.ranges
        && Outgoing() == AckPosted(old(Outgoing()), ack.value, OnWire(encrypt))
      ensures r == Ok(false) ==>
        && ackPending && ackReady && received.ranges == [] && Outgoing() == old(Outgoing()) && Exhausted(encrypt)
      ensures r.Err? ==> ackPending && ackReady
      ensures r != Err(AckForUnsentPacket)
    {
      hide Sound, NumbersUsed, LedgerOk, FlowOk, Progress, TimerState.Valid, TimerState.Retransmits, LogOk, AckLength;
      ack := None;
      var frame := received.Frame(now, settings.ackDelay);
      if frame.Err? { return Err(Protocol(frame.error)), ack; }
      if frame.value.None? {
        NothingToGive(encrypt);
        ProgressSame(book, emitted);
        return Ok(false), ack;
      }
      ack := frame.value;
      r := SendAck(frame.value.value, encrypt);
    }

    /** A round of `flush` for queued frames: the one that is next goes out, unless a window is
        closed for it. */
    method Round(encrypt: bool, now: nat, rto: nat) returns (r: Done, ghost f: Option<QueuedFrame>)
      requires Valid()
      modifies this`pendingFrames, this`queues, this`flow, this`nextPacketNumber, this`emitted, this`generation,
        this`congestion, this`sent, this`book, this`tries, timers.wheel, timers.wheel.tasks, timers.wheel.heap
      ensures r.Ok? ==> Valid() && Progress(old(book), old(emitted), book, emitted)
      ensures timers.wheel.Now() == old(timers.wheel.Now())
      ensures r == Ok(true) ==>
        && f.Some? && IsNext(old(pendingFrames), old(queues), f.value)
        && MaySend(old(Outgoing()), f.value, OnWire(encrypt))
        && Outgoing() == Posted(old(Outgoing()), f.value, OnWire(encrypt))
        && Backlog(pendingFrames, queues) == old(Backlog(pendingFrames, queues)) - 1
      ensures r == Ok(false) ==>
        && Exhausted(encrypt)
        && Stopped(old(Outgoing()), OnWire(encrypt)) && Restored(old(Outgoing()), Outgoing())
      ensures r.Err? ==> Stuck(old(Outgoing()), OnWire(encrypt), timers.wheel.Now(), rto)
      ensures r != Err(AckForUnsentPacket)
    {
      hide Sound, NumbersUsed, LedgerOk, FlowOk, Progress, TimerState.Valid, TimerState.Retransmits;
      hide LogOk, HandOk, HandOf, QueueLengths, Sum;
      hide TakesFirst, IsNext, Sendable, PutBack, WireLength, Blocked, Stopped, Restored, Taken, Handed, MaySend;
      ghost var pending, streams, was := pendingFrames, queues, Outgoing();
      var candidate := TakeDataCandidate();
      f := candidate;
      if candidate.None? {
        ProgressSame(book, emitted);
        NoneNext(was, Outgoing(), OnWire(encrypt));
        return Ok(false), f;
      }
      ghost var box := Waiting();
      FirstTaken(was.box, box, candidate.value);
      MayTake(was, candidate.value, OnWire(encrypt));
      r := SendFrame(candidate.value, encrypt, now, rto);
      if r == Ok(false) {
        NextAgain(pending, streams, box, candidate.value);
        assert IsNext(pendingFrames, queues, candidate.value) && Halted(candidate.value, encrypt);
        NextBlocked(was, Outgoing(), candidate.value, OnWire(encrypt));
      }
    }

    /** `flush`: an acknowledgement if one is due, then frames until a window closes. It ends
        because each round uses up a queued frame or the pending acknowledgement. The frames sent
        are those whose turn it is, one after the other. */
    method Flush(encrypt: bool, now: nat, rto: nat)
      returns (r: Done, ghost ack: Option<AckFrame>, ghost frames: seq<QueuedFrame>)
      requires Valid() && received.Valid()
      modifies this, timers, timers.wheel, timers.wheel.tasks, timers.wheel.heap
      ensures r.Ok? ==> Valid() && expired == old(expired)
      ensures state == old(state) && shut == old(shut)
      ensures r.Ok? ==> Exhausted(encrypt)
      ensures r.Ok? ==> Progress(old(book), old(emitted), book, emitted)
      ensures r != Err(AckForUnsentPacket)
      ensures ack.Some? ==>
        old(ackPending && ackReady) && old(nextPacketNumber) < U64_MAX && ack.value.ranges == received.ranges
      ensures r.Ok? && old(ackPending && ackReady) ==> (ack.None? <==> received.ranges == [])
      ensures var m := if ack.Some? then AckPosted(old(Outgoing()), ack.value, OnWire(encrypt)) else old(Outgoing());
        && InTurn(m, frames, OnWire(encrypt))
        && (r.Ok? ==> Restored(AllPosted(m, frames, OnWire(encrypt)), Outgoing()))
        && (r.Ok? && !(ackPending && ackReady) ==> Stopped(AllPosted(m, frames, OnWire(encrypt)), OnWire(encrypt)))
        && (r.Err? && (ack.Some? || !old(ackPending && ackReady)) ==>
              Stuck(AllPosted(m, frames, OnWire(encrypt)), OnWire(encrypt), timers.wheel.Now(), rto))
      ensures timers.wheel.Now() == old(timers.wheel.Now())
      ensures ackPending && ackReady ==> old(ackPending && ackReady) && ack.None? && frames == []
      ensures ack.None? ==> ackPending == old(ackPending) && ackReady == old(ackReady)
    {
      hide Sound, NumbersUsed, LedgerOk, FlowOk, Progress, TimerState.Valid, TimerState.Retransmits;
      hide LogOk, QueueLengths, Sum, IsNext, MaySend, Posted, Stopped, Stuck, Restored, AckLength;
      hide Connection.Exhausted, InTurn, AllPosted, Connection.Valid, ReceivedPackets.Valid, AckPosted;
      var going := true;
      ack, frames := None, [];
      ghost var base := Outgoing();
      ghost var w := OnWire(encrypt);
      ProgressSame(book, emitted);
      NonePosted(base, w);
      while going
        invariant Progress(old(book), old(emitted), book, emitted)
        invariant Valid() && received.Valid() && state == old(state) && expired == old(expired) && shut == old(shut)
        invariant !going ==> Exhausted(encrypt)
        invariant timers.wheel.Now() == old(timers.wheel.Now())
        invariant base == if ack.Some? then AckPosted(old(Outgoing()), ack.value, w) else old(Outgoing())
        invariant InTurn(base, frames, w)
        invariant going ==> Outgoing() == AllPosted(base, frames, w)
        invariant !going ==> Restored(AllPosted(base, frames, w), Outgoing())
        invariant !going && !(ackPending && ackReady) ==> Stopped(AllPosted(base, frames, w), w)
        invariant ack.Some? ==>
          old(ackPending && ackReady) && old(nextPacketNumber) < U64_MAX && ack.value.ranges == received.ranges
        invariant ack.None? && frames == [] && going ==> nextPacketNumber == old(nextPacketNumber)
        invariant ackPending && ackReady ==> old(ackPending && ackReady) && ack.None? && frames == []
        invariant ack.None? ==> ackPending == old(ackPending) && ackReady == old(ackReady)
        invariant old(ackPending && ackReady) && ack.None? ==>
          && ackPending && ackReady && (!going ==> received.ranges == [])
        decreases going, Backlog(pendingFrames, queues) + if ackPending && ackReady then 1 else 0
      {
        ghost var b, log := book, emitted;
        if ackPending && ackReady {
          var done, given := AckRound(encrypt, now);
          if done.Err? { return done, None, frames; }
          ProgressTwice(old(book), old(emitted), b, log, book, emitted);
          going := done.value;
          if going {
            ack := given;
            base := AckPosted(base, ack.value, w);
            NonePosted(base, w);
          } else {
            SameRestored(Outgoing());
          }
        } else {
          var done, f := Round(encrypt, now, rto);
          if done.Err? { return done, ack, frames; }
          ProgressTwice(old(book), old(emitted), b, log, book, emitted);
          going := done.value;
          if going {
            PostedNext(base, frames, f.value, w);
            frames := frames + [f.value];
          }
        }
      }
      r := Ok(true);
    }

    // ---- Acknowledgement and loss ----

    /** An acknowledged packet: its timer is cancelled and its chunk is done. */
    method RemoveAcked(number: u64)
      requires Valid() && number in sent
      modifies this`sent, this`congestion, this`book, this`expired, timers.wheel, timers.wheel.tasks, timers.wheel.heap
      ensures Valid() && sent == old(sent) - {number} && expired == old(expired)
      ensures book == old(AckedBook(View(), number))
      ensures congestion == OnAcked(old(congestion), old(sent)[number].encodedLen)
    {
      hide Sound, NumbersUsed, LedgerOk, FlowOk, Progress, TimerState.Valid, TimerState.Retransmits, LogOk, OnAcked;
      ghost var s, p := View(), sent[number];
      SoundAck(Bounded(), s, number);
      timers.Cancel(sent[number].timerId);
      AckedLog(s, number, emitted);
      AckedFlow(s, number, flow);
      LedgerGone(pendingFrames, sent, number, tries, emitted, settings.maxRetransmissions);
      TakeOut(number, OnAcked(congestion, sent[number].encodedLen), AckedBook(s, number), expired, None);
    }

    /** The packet leaves the sent table; its timer is gone already. */
    method TakeOut(number: u64, c: Congestion, ghost b: Book, ghost left: set<TimerEvent>, ghost hand: Option<Tag>)
      requires SettingsOk(settings) && timers.Valid() && ControlOnly(pendingFrames, settings.maxRetransmissions)
      requires LogOk(emitted, b) && NumbersUsed(emitted, nextPacketNumber)
      requires FlowOk(b, flow)
      requires LedgerOk(pendingFrames, sent - {number}, tries, emitted, settings.maxRetransmissions)
      requires Sound(Bounded(), Sender(queues, sent - {number}, b, timers.Retransmits(), timers.Issued(), left, c,
          nextPacketNumber, state == Closed), hand)
      modifies this`sent, this`congestion, this`book, this`expired
      ensures Holding(hand) && FlowOk(book, flow) && Counts(None) && sent == old(sent) - {number}
      ensures book == b && expired == left && congestion == c
    {
      hide Sound, NumbersUsed, LedgerOk, FlowOk, Progress;
      hide TimerState.Valid, TimerState.Retransmits, LogOk, ControlOnly;
      congestion := c;
      sent := sent - {number};
      book := b;
      expired := left;
    }

    /** A packet declared lost while its timer is still set. */
    method LoseCancelled(number: u64) returns (r: Done)
      requires Valid() && number in sent
      modifies this`sent, this`congestion, this`book, this`expired, this`pendingFrames, this`queues, timers.wheel,
        timers.wheel.tasks, timers.wheel.heap
      ensures r.Ok? ==> Valid() && sent == old(sent) - {number} && expired == old(expired)
      ensures book == old(LostBook(View(), number))
      ensures r == Limited(old(sent)[number].queued, settings)
      ensures r.Ok? ==> Waiting() == LoseOne(old(Waiting()), old(sent)[number])
    {
      hide Sound, NumbersUsed, LedgerOk, FlowOk, Progress, TimerState.Valid, TimerState.Retransmits;
      hide LogOk, OnLoss, HandOk, HandOf, PutBack;
      ghost var s, p := View(), sent[number];
      var queued := sent[number].queued;
      SoundLose(Bounded(), s, number, expired);
      timers.Cancel(sent[number].timerId);
      AckedLog(s, number, emitted);
      AckedFlow(s, number, flow);
      LedgerGone(pendingFrames, sent, number, tries, emitted, settings.maxRetransmissions);
      TakeOut(number, OnLoss(congestion, sent[number].encodedLen), LostBook(s, number), expired, HandOf(queued.frame));
      r := RequeueLost(queued);
    }

    /** A packet whose retransmission timer expired. */
    method LoseExpired(number: u64) returns (r: Done)
      requires Valid() && number in sent && (state == Closed || Retransmit(number, sent[number].generation) in expired)
      modifies this`sent, this`congestion, this`book, this`expired, this`pendingFrames, this`queues
      ensures r.Ok? ==>
        && Valid() && sent == old(sent) - {number}
        && expired == old(expired) - {Retransmit(number, old(sent)[number].generation)}
      ensures r == Limited(old(sent)[number].queued, settings)
      ensures r.Ok? ==> Progress(old(book), old(emitted), book, emitted)
      ensures r.Ok? ==> Waiting() == LoseOne(old(Waiting()), old(sent)[number])
    {
      hide Sound, NumbersUsed, LedgerOk, FlowOk, Progress, TimerState.Valid, TimerState.Retransmits;
      hide LogOk, OnLoss, HandOk, HandOf, PutBack;
      ghost var s, left := View(), expired - {Retransmit(number, sent[number].generation)};
      var queued := sent[number].queued;
      SoundLose(Bounded(), s, number, left);
      ExpiredGone(Bounded(), s, number);
      ghost var after := Removed(s, number, OnLoss(congestion, sent[number].encodedLen), LostBook(s, number), left);
      if state == Closed { SoundClosed(Bounded(), after, HandOf(queued.frame), s.live, left); }
      AckedLog(s, number, emitted);
      AckedFlow(s, number, flow);
      LedgerGone(pendingFrames, sent, number, tries, emitted, settings.maxRetransmissions);
      TakeOut(number, OnLoss(congestion, sent[number].encodedLen), LostBook(s, number), left, HandOf(queued.frame));
      r := RequeueLost(queued);
    }

    /** `requeue_lost`: the frame goes to the front of its queue with its count raised, unless
        the count has reached the limit. */
    method RequeueLost(queued: QueuedFrame) returns (r: Done)
      requires Holding(HandOf(queued.frame)) && FlowOk(book, flow)
      requires Again(queued).retransmitCount <= settings.maxRetransmissions ==> HandOk(Bounded(), book, Again(queued))
      requires Again(queued).retransmitCount <= settings.maxRetransmissions ==> Counts(Some(Again(queued)))
      requires queued.frame.StreamData? ==> queued.frame.streamId in queues
      modifies this`pendingFrames, this`queues
      ensures r.Ok? ==> Valid() && Waiting() == PutBack(old(Waiting()), Again(queued))
      ensures r == Limited(queued, settings)
    {
      hide Sound, NumbersUsed, LedgerOk, FlowOk, Progress;
      hide TimerState.Valid, TimerState.Retransmits, LogOk, HandOk, PutBack;
      var nextCount := Min(queued.retransmitCount + 1, U32_MAX);
      if nextCount > settings.maxRetransmissions { return Err(RetransmissionLimit); }
      RequeueCandidate(queued.(retransmitCount := nextCount));
      r := Ok(true);
    }

    /** `apply_ack`: exactly the packets of the table that the ranges cover are acknowledged. */
    method ApplyAck(ack: AckFrame) returns (r: Done)
      requires Valid()
      modifies this`sent, this`congestion, this`book, this`expired, this`pendingFrames, this`queues, timers.wheel,
        timers.wheel.tasks, timers.wheel.heap
      ensures r.Ok? ==> Valid() && expired == old(expired) && Settles(old(book), book, ack.ranges)
      ensures r.Ok? ==> AckApplied(old(sent), old(Waiting()), ack.ranges, settings.fastLossThreshold, sent, Waiting())
      ensures !FrameOk(ack) ==> r == Err(Protocol(InvalidAckRanges)) || r == Err(Protocol(InvalidValue))
      ensures FrameOk(ack) ==> (r == Err(AckForUnsentPacket) <==> ack.largest >= old(nextPacketNumber))
      // After that it fails exactly if a packet that is lost now may not be sent again.
      ensures FrameOk(ack) && ack.largest < old(nextPacketNumber) ==>
        (r.Err? <==> AnyLimited(old(sent), OvertakenBy(old(sent), ack.ranges, settings.fastLossThreshold), settings))
    {
      hide Sound, NumbersUsed, LedgerOk, FlowOk, Progress, TimerState.Valid;
      hide TimerState.Retransmits, LogOk, AckCovers, Settles;
      hide AckRun, LoseRun, Overtaken, OnAcked, Covered, AckApplied;
      if !FrameOk(ack) {
        return Err(Protocol(if ack.ranges[0].end != ack.largest then InvalidAckRanges else InvalidValue));
      }
      if ack.largest >= nextPacketNumber { return Err(AckForUnsentPacket); }
      var acknowledged := RemoveCovered(ack.ranges);
      ghost var between, table, box := book, sent, Waiting();
      OvertakenSent(sent, acknowledged, settings.fastLossThreshold);
      LimitedBefore(old(sent), sent, Overtaken(sent, acknowledged, settings.fastLossThreshold), settings);
      r := LoseOvertaken(acknowledged, ack.ranges);
      if r.Ok? {
        AckDone(old(sent), old(Waiting()), ack.ranges, settings.fastLossThreshold, table, box, sent, Waiting());
      }
      SettlesTwice(old(book), between, book, ack.ranges);
    }

    /** The covered packets are done, in order of their numbers. */
    method RemoveCovered(ranges: seq<AckRange>) returns (acknowledged: set<u64>)
      requires Valid()
      modifies this`sent, this`congestion, this`book, this`expired, timers.wheel, timers.wheel.tasks, timers.wheel.heap
      ensures Valid() && expired == old(expired) && Settles(old(book), book, ranges)
      ensures acknowledged == Covered(old(sent), ranges) && sent == old(sent) - acknowledged
      ensures congestion == AckRun(old(congestion), old(sent), acknowledged)
    {
      hide Sound, NumbersUsed, LedgerOk, FlowOk, Progress, TimerState.Valid;
      hide TimerState.Retransmits, LogOk, AckCovers, Settles;
      hide AckRun, OnAcked, Covered;
      acknowledged := Covered(sent, ranges);
      CoveredFacts(sent, ranges);
      var rest := acknowledged;
      SettlesSame(book, ranges);
      while rest != {}
        invariant Valid() && rest <= sent.Keys && rest <= acknowledged
        invariant expired == old(expired) && Settles(old(book), book, ranges)
        invariant sent == old(sent) - (acknowledged - rest)
        invariant AckRun(congestion, old(sent), rest) == AckRun(old(congestion), old(sent), acknowledged)
        decreases |rest|
      {
        var pn := SmallestOf(rest);
        AckStep(congestion, old(sent), rest, pn);
        rest := rest - {pn};
        SettlesAcked(Bounded(), View(), pn, old(book), ranges);
        RemoveAcked(pn);
      }
      AckNone(congestion, old(sent));
      assert acknowledged - {} == acknowledged;
    }

    /** Packets overtaken by enough acknowledged later ones are lost. */
    method LoseOvertaken(acknowledged: set<u64>, ghost ranges: seq<AckRange>) returns (r: Done)
      requires Valid()
      modifies this`sent, this`congestion, this`book, this`expired, this`pendingFrames, this`queues, timers.wheel,
        timers.wheel.tasks, timers.wheel.heap
      ensures r.Ok? ==> Valid() && expired == old(expired)
      ensures r.Ok? ==> var lost := Overtaken(old(sent), acknowledged, settings.fastLossThreshold);
        sent == old(sent) - lost && Waiting() == LoseRun(old(Waiting()), old(sent), lost)
      ensures Settles(old(book), book, ranges)
      ensures r.Err? ==> r == Err(RetransmissionLimit)
      ensures r.Err? <==>
          AnyLimited(old(sent), Overtaken(old(sent), acknowledged, settings.fastLossThreshold), settings)
    {
      hide Sound, NumbersUsed, LedgerOk, FlowOk, Progress, TimerState.Valid, TimerState.Retransmits;
      hide LogOk, Settles, LoseRun, LoseOne, Overtaken;
      var lost := Overtaken(sent, acknowledged, settings.fastLossThreshold);
      OvertakenSent(sent, acknowledged, settings.fastLossThreshold);
      var candidates := lost;
      SettlesSame(book, ranges);
      while candidates != {}
        invariant Valid() && candidates <= lost && expired == old(expired) && Settles(old(book), book, ranges)
        invariant sent == old(sent) - (lost - candidates)
        invariant LoseRun(Waiting(), old(sent), candidates) == LoseRun(old(Waiting()), old(sent), lost)
        invariant forall pn :: pn in lost - candidates ==> Limited(old(sent)[pn].queued, settings).Ok?
        decreases |candidates|
      {
        var pn := SmallestOf(candidates);
        LoseStep(Waiting(), old(sent), candidates, pn);
        candidates := candidates - {pn};
        SettlesLost(Bounded(), View(), pn, old(book), ranges);
        var done := LoseCancelled(pn);
        if done.Err? { return done; }
      }
      LoseNone(Waiting(), old(sent));
      r := Ok(true);
    }

    /** `process_retransmit`: an expired timer finds its packet or has nothing to do. */
    method ProcessRetransmit(number: nat, ofGeneration: u32) returns (r: Done)
      requires Valid() && (state == Closed || Retransmit(number, ofGeneration) in expired)
      modifies this`sent, this`congestion, this`book, this`expired, this`pendingFrames, this`queues
      ensures r.Ok? ==> Valid() && expired == old(expired) - {Retransmit(number, ofGeneration)}
      ensures r.Err? ==> r == Err(RetransmissionLimit)
      ensures r.Ok? ==> Progress(old(book), old(emitted), book, emitted)
      ensures if number <= U64_MAX && number in old(sent) && old(sent)[number].generation == ofGeneration
        then && r == Limited(old(sent)[number].queued, settings)
             && (r.Ok? ==> sent == old(sent) - {number} && Waiting() == LoseOne(old(Waiting()), old(sent)[number]))
        else r.Ok? && sent == old(sent) && Waiting() == old(Waiting())
    {
      hide Sound, NumbersUsed, LedgerOk, FlowOk, Progress, TimerState.Valid, TimerState.Retransmits, LogOk, LoseOne;
      ProgressSame(book, emitted);
      if number <= U64_MAX && number in sent && sent[number].generation == ofGeneration {
        r := LoseExpired(number);
      } else {
        SoundDrop(Bounded(), View(), Retransmit(number, ofGeneration));
        expired := expired - {Retransmit(number, ofGeneration)};
        r := Ok(true);
      }
    }

    // ---- Streams and control frames ----

    /** `queue`; stream data never goes this way. */
    method QueueFrame(frame: Frame)
      requires Valid() && !frame.StreamData?
      modifies this`pendingFrames, this`tries
      ensures Valid() && pendingFrames == old(pendingFrames) + [QueuedFrame(frame, 0, old(tries.next))]
    {
      hide Sound, NumbersUsed, LedgerOk, FlowOk, Progress, TimerState.Valid, TimerState.Retransmits, LogOk;
      LedgerQueued(pendingFrames, sent, tries, emitted, frame, settings.maxRetransmissions);
      pendingFrames := pendingFrames + [QueuedFrame(frame, 0, tries.next)];
      tries := Tries(tries.counts[tries.next := 0], tries.next + 1);
    }

    /** The handshake, which is not modelled, has ended. */
    method Establish()
      requires Valid() && state != Closed
      modifies this`state
      ensures Valid() && state == Established
    {
      hide Sound, NumbersUsed, LedgerOk, FlowOk, Progress, TimerState.Valid, TimerState.Retransmits, LogOk;
      state := Established;
    }

    /** A stream is opened with the window its peer granted. */
    method OpenStream(id: u64, window: nat)
      requires Valid() && id !in queues
      modifies this`queues, this`book
      ensures Valid() && queues == old(queues)[id := SendQueue(window, 0, 0, false, false, [])]
      ensures book == Opened(old(book), id, window)
    {
      hide Sound, NumbersUsed, LedgerOk, FlowOk, Progress, TimerState.Valid, TimerState.Retransmits, LogOk;
      SoundOpen(Bounded(), View(), id, window);
      OpenedLog(Bounded(), View(), emitted, id, window);
      FlowKept(book, Opened(book, id, window), flow);
      queues := queues[id := SendQueue(window, 0, 0, false, false, [])];
      book := Opened(book, id, window);
    }

    /** `write_stream` without the flush: the data is cut into chunks that fit a datagram. Every
        one of them is then in the book, queued and never sent. */
    method Write(id: u64, data: seq<byte>, fin: bool) returns (r: Done)
      requires Valid() && id <= MAX_VALUE && (id in queues ==> queues[id].nextOffset + |data| <= MAX_VALUE)
      modifies this`queues, this`book
      ensures Valid()
      ensures r.Err? ==> queues == old(queues) && book == old(book)
      ensures r == WriteAnswer(state, shut, old(queues), id, |data|, settings.maxSendBuffer)
      ensures r.Ok? ==>
        Wrote(old(queues), old(book), queues, book, id, data, fin, Packets.ChunkLimit(settings.maxDatagramSize))
    {
      hide Sound, NumbersUsed, LedgerOk, FlowOk, Progress, TimerState.Valid;
      hide TimerState.Retransmits, LogOk, Cut, Written, Lengthened;
      if state != Established { return Err(InvalidState); }
      if id !in queues { return Err(UnknownStream); }
      if id in shut { return Err(InvalidState); }
      var q := queues[id];
      var refusal := WriteRefusal(q.finRequested || q.finSent, |data|, SatSub(settings.maxSendBuffer, q.queuedBytes),
          q.nextOffset, q.maxOffset);
      if refusal.Some? { return Err(Refused(refusal.value)); }
      var size := Packets.ChunkLimit(settings.maxDatagramSize);
      SoundWrite(Bounded(), View(), id, data, fin);
      WrittenLog(Bounded(), View(), emitted, id, data, fin);
      WrittenFlow(Bounded(), View(), flow, id, data, fin);
      book := Written(book, id, data, fin, Cut(q.nextOffset, data, fin, size));
      queues := queues[id := Lengthened(q, data, fin, size)];
      r := Ok(true);
    }

    /** The record of the stream was reset or has finished: nothing more is written to it. */
    method ShutStream(id: u64)
      requires Valid()
      modifies this`shut
      ensures Valid() && shut == old(shut) + {id}
    {
      hide Sound, NumbersUsed, LedgerOk, FlowOk, Progress, TimerState.Valid, TimerState.Retransmits, LogOk;
      shut := shut + {id};
    }

    /** A stream's window never shrinks. */
    method WidenStream(id: u64, maxOffset: nat) returns (r: Done)
      requires Valid()
      modifies this`queues, this`book
      ensures Valid() && (r.Ok? <==> id in old(queues))
      ensures if id in old(queues)
        then var window := Max(old(queues)[id].maxOffset, maxOffset);
             && queues == old(queues)[id := old(queues)[id].(maxOffset := window)]
             && book == Widened(old(book), id, window)
        else queues == old(queues) && book == old(book)
    {
      hide Sound, NumbersUsed, LedgerOk, FlowOk, Progress, TimerState.Valid, TimerState.Retransmits, LogOk;
      if id !in queues { return Err(UnknownStream); }
      var window := Max(queues[id].maxOffset, maxOffset);
      SoundWiden(Bounded(), View(), id, window);
      LogSame(emitted, book, Widened(book, id, window));
      FlowKept(book, Widened(book, id, window), flow);
      queues := queues[id := queues[id].(maxOffset := window)];
      book := Widened(book, id, window);
      r := Ok(true);
    }

    method WidenConnection(maxOffset: nat)
      requires Valid()
      modifies this`flow, this`book
      ensures Valid() && flow == old(flow).(maxOffset := Max(old(flow).maxOffset, maxOffset))
      ensures book == old(book).(granted := flow.maxOffset)
    {
      hide Sound, NumbersUsed, LedgerOk, FlowOk, Progress, TimerState.Valid, TimerState.Retransmits, LogOk;
      FlowWider(book, flow, Max(flow.maxOffset, maxOffset));
      SoundGrant(Bounded(), View(), Max(flow.maxOffset, maxOffset));
      LogSame(emitted, book, book.(granted := Max(flow.maxOffset, maxOffset)));
      book := book.(granted := Max(flow.maxOffset, maxOffset));
      flow := flow.(maxOffset := Max(flow.maxOffset, maxOffset));
    }

    /** Nothing waits to be sent or to be acknowledged. */
    ghost predicate Flushed()
      reads this
    {
      pendingFrames == [] && sent == map[] && forall id :: id in queues ==> queues[id].queue == []
    }

    /** `is_reliably_flushed`: then every chunk ever written was acknowledged. */
    method IsReliablyFlushed() returns (flushed: bool)
      requires Valid()
      ensures flushed <==> Flushed()
      ensures flushed ==> forall t :: t in book.chunks ==> t in book.place && book.place[t] == Acknowledged
    {
      hide Sound, NumbersUsed, LedgerOk, FlowOk, TimerState.Valid, TimerState.Retransmits, LogOk;
      var pending := false;
      var rest := queues.Keys;
      while rest != {}
        invariant rest <= queues.Keys
        invariant pending <==> exists id :: id in queues && id !in rest && queues[id].queue != []
        decreases |rest|
      {
        var id := SmallestOf(rest);
        rest := rest - {id};
        if |queues[id].queue| > 0 { pending := true; }
      }
      flushed := |pendingFrames| == 0 && |sent| == 0 && !pending;
      if flushed { FlushedMeansAcked(Bounded(), View()); }
    }

    // ---- Receiving ----

    /** `on_datagram`, except for what the frames in the packet do. */
    method OnPacket(number: u64, eliciting: bool, encrypt: bool, now: nat, rto: nat)
      returns (r: Result<bool, TransportError>)
      requires Valid() && received.Valid()
      modifies this, received, timers, timers.wheel, timers.wheel.tasks, timers.wheel.heap
      ensures state == old(state)
      ensures state == Closed ==> r == Err(InvalidState)
      ensures r.Ok? ==>
        && Valid() && received.Valid() && received.received == old(received.received) + {number}
        && r.value == !old(Covers(received.ranges, number)) && expired == old(expired) && Exhausted(encrypt)
      // If the packet asks for an acknowledgement, one is pending or has just gone out.
      ensures r.Ok? && eliciting ==> ackPending || AckNext(old(emitted), emitted)
      ensures r.Ok? ==> Progress(old(book), old(emitted), book, emitted)
      ensures r != Err(AckForUnsentPacket)
    {
      hide Sound, NumbersUsed, LedgerOk, FlowOk, Progress, TimerState.Valid, TimerState.Retransmits, LogOk, Remembers;
      hide InTurn, AllPosted, Stopped, Stuck, Restored, AckLength, Connection.Exhausted, FramesOf;
      if state == Closed { return Err(InvalidState); }
      var idle := ResetIdle();
      if idle.Err? { return Err(idle.error); }
      var accepted := received.Record(number, now);
      if eliciting {
        var scheduled := ScheduleAck();
        if scheduled.Err? { return Err(scheduled.error); }
      }
      ghost var ack, frames;
      var done;
      ghost var m := Outgoing();
      done, ack, frames := Flush(encrypt, now, rto);
      if done.Err? { return Err(done.error); }
      if ack.Some? { AckLogged(m, ack.value, frames, OnWire(encrypt), Outgoing()); }
      r := Ok(accepted);
    }

    method ScheduleAck() returns (r: Done)
      requires Valid()
      modifies this`ackPending, this`ackReady, timers, timers.wheel, timers.wheel.tasks, timers.wheel.heap
      ensures Valid() && ackPending
      ensures if settings.ackDelay == 0 then r.Ok? && ackReady else ackReady == old(ackReady)
      ensures r.Ok? ==> ackReady || timers.slots.ack.Some?
      ensures r.Ok? <==>
        || settings.ackDelay == 0 || old(ackReady) || old(timers.slots.ack).Some?
        || CanSet(timers.wheel.Now(), settings.ackDelay)
      ensures r.Err? ==> r.error.TimerFailed?
    {
      hide Sound, NumbersUsed, LedgerOk, FlowOk, Progress, TimerState.Valid, TimerState.Retransmits, LogOk;
      ackPending := true;
      if settings.ackDelay == 0 {
        ackReady := true;
        return Ok(true);
      }
      if !ackReady {
        ghost var s := View();
        var ack := timers.ScheduleAck(settings.ackDelay);
        SoundIssued(Bounded(), s, None, timers.Issued());
        if ack.Err? { return Err(TimerFailed(ack.error)); }
      }
      r := Ok(true);
    }

    // ---- Time ----

    /** `advance_time`: the expired timers are processed one after the other, then whatever
        may be sent is sent. Afterwards no expired event is left. */
    method AdvanceTime(elapsed: nat, encrypt: bool, now: nat, rtos: nat -> nat) returns (r: Done)
      requires Valid() && received.Valid() && (state == Closed || expired == {})
      modifies this, timers, timers.wheel, timers.wheel.tasks, timers.wheel.heap
      ensures r.Ok? ==> Valid() && (state == Closed || expired == {}) && Exhausted(encrypt)
      ensures r.Ok? ==> Progress(old(book), old(emitted), book, emitted)
      ensures r != Err(AckForUnsentPacket)
    {
      hide Sound, NumbersUsed, LedgerOk, FlowOk, Progress;
      hide TimerState.Valid, LogOk, TakenOut, Apart, Connection.Exhausted;
      ghost var s, live := View(), timers.Live();
      var events, keys := timers.Advance(elapsed);
      if events.Err? { return Err(TimerFailed(events.error)); }
      ExpireAll(Bounded(), s, live, timers.Live(), keys, events.value);
      expired := Pending(events.value, 0);
      ghost var open := state != Closed;
      hide TimerState.Retransmits, Pending, DistinctEvents;
      ProgressSame(book, emitted);
      for i := 0 to |events.value|
        invariant Progress(old(book), old(emitted), book, emitted)
        invariant Valid() && received.Valid() && (state == Closed || expired == Pending(events.value, i))
        invariant (open ==> DistinctEvents(events.value)) && (state != Closed ==> open)
      {
        if open { PendingNext(events.value, i); }
        timers.ClearSlot(events.value[i]);
        ghost var b, log := book, emitted;
        var done := ProcessTimer(events.value[i], encrypt, now, rtos(i));
        if done.Err? { return done; }
        ProgressTwice(old(book), old(emitted), b, log, book, emitted);
      }
      if open { NonePending(events.value); }
      ghost var b, log := book, emitted;
      ghost var ack, frames;
      r, ack, frames := Flush(encrypt, now, rtos(|events.value|));
      if r.Ok? { ProgressTwice(old(book), old(emitted), b, log, book, emitted); }
    }

    /** `process_timer`. A handshake timeout concerns only the handshake, which is not modelled. */
    method ProcessTimer(event: TimerEvent, encrypt: bool, now: nat, rto: nat) returns (r: Done)
      requires Valid() && received.Valid() && (state == Closed || (event.Retransmit? ==> event in expired))
      modifies this, timers, timers.wheel, timers.wheel.tasks, timers.wheel.heap
      ensures r.Ok? ==>
        && Valid()
        && (state == Closed || expired == if event.Retransmit? then old(expired) - {event} else old(expired))
      ensures old(state) == Closed ==> state == Closed
      ensures r.Ok? ==> state == match event
        case CloseTimeout => Closed
        case IdleTimeout => if old(state) == Closed then Closed else Closing
        case _ => old(state)
      ensures event == AckDelay && r.Ok? ==> ackReady == (old(ackReady) || old(ackPending))
      ensures event == Keepalive && r.Ok? && state == Established ==>
        pendingFrames == old(pendingFrames) + [QueuedFrame(Ping(lastPingNonce), 0, old(tries.next))]
      ensures r.Ok? ==> Progress(old(book), old(emitted), book, emitted)
      ensures r != Err(AckForUnsentPacket)
    {
      hide Sound, NumbersUsed, LedgerOk, FlowOk, Progress, TimerState.Valid, TimerState.Retransmits, LogOk;
      ProgressSame(book, emitted);
      match event
      case HandshakeTimeout => r := Ok(true);
      case Retransmit(number, ofGeneration) => r := ProcessRetransmit(number, ofGeneration);
      case AckDelay =>
        if ackPending { ackReady := true; }
        r := Ok(true);
      case Keepalive => r := KeepAlive();
      case IdleTimeout =>
        if state == Closed || state == Closing { return Ok(true); }
        r := Close(2, [], encrypt, now, rto);
      case CloseTimeout =>
        CloseNow();
        r := Ok(true);
    }

    /** `queue_keepalive` while established, and the next keepalive timer. */
    method KeepAlive() returns (r: Done)
      requires Valid()
      modifies this`lastPingNonce, this`pendingFrames, this`tries, timers, timers.wheel, timers.wheel.tasks,
        timers.wheel.heap
      ensures Valid()
      ensures r != Err(AckForUnsentPacket)
      ensures if state == Established
        then lastPingNonce == (if old(lastPingNonce) == U64_MAX then 0 else old(lastPingNonce) + 1)
             && pendingFrames == old(pendingFrames) + [QueuedFrame(Ping(lastPingNonce), 0, old(tries.next))]
        else lastPingNonce == old(lastPingNonce) && pendingFrames == old(pendingFrames)
    {
      hide Sound, NumbersUsed, LedgerOk, FlowOk, Progress, TimerState.Valid, TimerState.Retransmits, LogOk;
      if state == Established {
        lastPingNonce := if lastPingNonce == U64_MAX then 0 else lastPingNonce + 1;
        QueueFrame(Ping(lastPingNonce));
      }
      if settings.keepaliveInterval.Some? {
        ghost var s := View();
        var next := timers.ScheduleKeepalive(settings.keepaliveInterval.value);
        SoundIssued(Bounded(), s, None, timers.Issued());
        if next.Err? { return Err(TimerFailed(next.error)); }
      }
      r := Ok(true);
    }

    /** All timers are given up. */
    method CloseNow()
      requires Valid()
      modifies this`state, timers, timers.wheel, timers.wheel.tasks, timers.wheel.heap
      ensures Valid() && state == Closed
      ensures timers.Live() == map[]
    {
      hide Sound, NumbersUsed, LedgerOk, FlowOk, Progress, TimerState.Valid, TimerState.Retransmits, LogOk;
      ghost var s := View();
      timers.CancelAll();
      SoundClosed(Bounded(), s, None, timers.Retransmits(), expired);
      state := Closed;
    }

    method Close(errorCode: u32, reason: Text, encrypt: bool, now: nat, rto: nat) returns (r: Done)
      requires Valid() && received.Valid()
      modifies this, timers, timers.wheel, timers.wheel.tasks, timers.wheel.heap
      ensures r.Ok? ==> Valid() && expired == old(expired) && state == if old(state) == Closed then Closed else Closing
      ensures old(state) == Closed ==> state == Closed
      ensures r.Ok? && old(state) != Closed ==> Exhausted(encrypt)
      ensures r.Ok? ==> Progress(old(book), old(emitted), book, emitted)
      ensures r != Err(AckForUnsentPacket)
    {
      hide Sound, NumbersUsed, LedgerOk, FlowOk, Progress, TimerState.Valid, TimerState.Retransmits, LogOk;
      ProgressSame(book, emitted);
      if state == Closed { return Ok(true); }
      state := Closing;
      QueueFrame(ConnectionClose(errorCode, 0, reason));
      ghost var s := View();
      var timer := timers.ScheduleClose(settings.closeTimeout);
      SoundIssued(Bounded(), s, None, timers.Issued());
      if timer.Err? { return Err(TimerFailed(timer.error)); }
      ghost var ack, frames;
      r, ack, frames := Flush(encrypt, now, rto);
    }
  }

  /** Chunks of stream data wait in their streams, never among the control frames; all may still be sent. */
  ghost predicate ControlOnly(pending: seq<QueuedFrame>, max: nat)
  {
    forall q :: q in pending ==> !q.frame.StreamData? && q.retransmitCount <= max
  }

  lemma NothingYet(limits: Bounds, s: Sender, flow: SendFlow)
    requires s.queues == map[] && s.sent == map[] && s.book == EmptyBook(s.book.granted) && s.expired == {}
    requires s.congestion.bytesInFlight == 0 && WindowOk(s.congestion) && s.live == RetransmitsOf(map[])
    requires flow == SendFlow(s.book.granted, 0)
    ensures Sound(limits, s, None) && LogOk([], s.book) && FlowOk(s.book, flow)
    ensures LedgerOk([], map[], Tries(map[], 0), [], limits.maxRetransmissions)
  {
    assert RetransmitsOf(map[]) == map[];
    EmptySound(limits, s);
    hide Sound;
    assert SentOnce(s.book) == map[];
  }

  lemma EmptySound(limits: Bounds, s: Sender)
    requires s.queues == map[] && s.sent == map[]
    requires s.book == EmptyBook(s.book.granted) && s.live == map[] && s.expired == {}
    requires s.congestion.bytesInFlight == 0 && WindowOk(s.congestion)
    ensures Sound(limits, s, None)
  {
    assert |Lengths(s.sent)| == 0;
  }

  lemma SmallOffset(limits: Bounds, s: Sender, id: u64)
    requires Sound(limits, s, None) && id in s.queues && |s.queues[id].queue| > 0
    ensures s.queues[id].queue[0].offset <= MAX_VALUE
  {
    assert QueueOk(s.book, id, s.queues[id], limits.maxRetransmissions);
  }

  lemma SmallChunk(limits: Bounds, s: Sender, queued: QueuedFrame)
    requires queued.frame.StreamData? && Sound(limits, s, HandOf(queued.frame)) && HandOk(limits, s.book, queued)
    ensures queued.frame.streamId <= MAX_VALUE && queued.frame.offset <= MAX_VALUE
    ensures |queued.frame.data| <= Packets.ChunkLimit(limits.maxDatagramSize)
  {
    assert FrameTag(queued.frame) in s.book.chunks;
  }

  lemma WindowFits(limits: Bounds, s: Sender, hand: Option<Tag>, length: nat)
    requires Sound(limits, s, hand)
    ensures CanSend(s.congestion, length) ==>
      s.congestion.bytesInFlight + length <= s.congestion.cwnd || s.congestion.cwnd == U64_MAX
  {
    if CanSend(s.congestion, length) { Unsaturated(s.congestion, length); }
    hide Sound;
  }

  /** The chunk that the frame carries is the one in the book. */
  predicate ChunkInBook(b: Book, f: Frame)
    requires f.StreamData?
  {
    InBook(b, FrameTag(f)) && b.chunks[FrameTag(f)] == Chunk(f.data, f.fin)
  }

  lemma RecordedLog(s: Sender, p: SentPacket, emitted: seq<Emission>, e: Emission)
    requires s.next <= U64_MAX && LogOk(emitted, s.book) && e.frame == p.queued.frame && FitsWindow(e)
    requires e.packetNumber == s.next && (p.queued.frame.StreamData? ==> ChunkInBook(s.book, p.queued.frame))
    ensures LogOk(emitted + [e], Recorded(s, p).book)
    ensures Progress(s.book, emitted, Recorded(s, p).book, emitted + [e])
  {
    hide LogOk;
    if p.queued.frame.StreamData? { LogChunk(emitted, s.book, e); } else { LogControl(emitted, s.book, e); }
  }

  lemma AckedFlow(s: Sender, pn: u64, flow: SendFlow)
    requires pn in s.sent && FlowOk(s.book, flow)
    ensures FlowOk(AckedBook(s, pn), flow) && FlowOk(LostBook(s, pn), flow)
  {
    FlowKept(s.book, AckedBook(s, pn), flow);
    FlowKept(s.book, LostBook(s, pn), flow);
  }

  lemma AckedLog(s: Sender, pn: u64, emitted: seq<Emission>)
    requires LogOk(emitted, s.book) && pn in s.sent
    ensures LogOk(emitted, AckedBook(s, pn)) && LogOk(emitted, LostBook(s, pn))
    ensures Progress(s.book, emitted, LostBook(s, pn), emitted)
  {
    LogSame(emitted, s.book, AckedBook(s, pn));
    LogSame(emitted, s.book, LostBook(s, pn));
    hide LogOk;
  }

  /** The retransmission events from position `i` on. */
  function Pending(events: seq<TimerEvent>, i: nat): set<TimerEvent>
  {
    set j | i <= j < |events| && events[j].Retransmit? :: events[j]
  }

  predicate DistinctEvents(events: seq<TimerEvent>)
  {
    forall i, j :: 0 <= i < j < |events| && events[i].Retransmit? ==> events[i] != events[j]
  }

  lemma PendingNext(events: seq<TimerEvent>, i: nat)
    requires i < |events| && DistinctEvents(events)
    ensures events[i].Retransmit? ==> events[i] in Pending(events, i)
    ensures Pending(events, i + 1) == if events[i].Retransmit? then Pending(events, i) - {events[i]}
        else Pending(events, i)
  {
  }

  lemma NonePending(events: seq<TimerEvent>)
    ensures Pending(events, |events|) == {}
  {
  }

  /** What an advance of the wheel does to the sender: no packet's timer expires twice. */
  lemma ExpireAll(limits: Bounds, s: Sender, live: Live, after: Live, keys: seq<Key>, events: seq<TimerEvent>)
    requires Sound(limits, s, None) && (s.closed || s.expired == {})
    requires s.live == RetransmitsOf(live) && TakenOut(live, after, keys, events)
    ensures Sound(limits, s.(live := RetransmitsOf(after), expired := Pending(events, 0)), None)
    ensures !s.closed ==> DistinctEvents(events)
  {
    hide Sound, RetransmitsOf, Pending, DistinctEvents;
    if s.closed {
      SoundClosed(limits, s, None, RetransmitsOf(after), Pending(events, 0));
    } else {
      var gone := set i | 0 <= i < |keys| :: keys[i];
      RetransmitsLess(live, gone);
      ExpiredEvents(live, keys, events);
      OncePerPacket(limits, s, live, keys, events);
      SoundExpire(limits, s, RetransmitsOf(after), gone, Pending(events, 0));
    }
  }

  lemma ExpiredEvents(live: Live, keys: seq<Key>, events: seq<TimerEvent>)
    requires |keys| == |events| && forall i :: 0 <= i < |keys| ==> keys[i] in live && live[keys[i]] == events[i]
    ensures var gone := set i | 0 <= i < |keys| :: keys[i]; var timers := RetransmitsOf(live);
      && (forall k :: k in gone && k in timers ==> timers[k] in Pending(events, 0))
      && (forall e :: e in Pending(events, 0) && e.Retransmit? ==>
            exists k :: k in gone && k in timers && timers[k] == e)
  {
    var gone := set i | 0 <= i < |keys| :: keys[i];
    var timers := RetransmitsOf(live);
    forall e | e in Pending(events, 0) && e.Retransmit? ensures exists k :: k in gone && k in timers && timers[k] == e {
      var j :| 0 <= j < |events| && events[j].Retransmit? && events[j] == e;
      assert keys[j] in gone && timers[keys[j]] == e;
    }
  }

  lemma OncePerPacket(limits: Bounds, s: Sender, live: Live, keys: seq<Key>, events: seq<TimerEvent>)
    requires Sound(limits, s, None) && !s.closed && s.live == RetransmitsOf(live) && |keys| == |events|
    requires forall i :: 0 <= i < |keys| ==> keys[i] in live && live[keys[i]] == events[i]
    requires forall i, j :: 0 <= i < j < |keys| ==> keys[i] != keys[j]
    ensures DistinctEvents(events)
  {
    forall i, j | 0 <= i < j < |events| && events[i].Retransmit? ensures events[i] != events[j] {
      OneTimer(limits, s, live, keys[i], keys[j]);
    }
  }

  /** Two live retransmission timers with the same event are the same. */
  lemma OneTimer(limits: Bounds, s: Sender, live: Live, j: Key, k: Key)
    requires Sound(limits, s, None) && !s.closed && s.live == RetransmitsOf(live) && j in live && k in live
    ensures live[j].Retransmit? && live[j] == live[k] ==> j == k
  {
    if live[j].Retransmit? && live[j] == live[k] {
      assert TimerMeant(j, s.live[j], s.sent) && TimerMeant(k, s.live[k], s.sent);
    }
  }

  lemma RetransmitsLess(live: Live, gone: set<Key>)
    ensures RetransmitsOf(live - gone) == RetransmitsOf(live) - gone
  {
  }

  lemma WrittenLog(limits: Bounds, s: Sender, emitted: seq<Emission>, id: u64, data: seq<byte>, fin: bool)
    requires Sound(limits, s, None) && LogOk(emitted, s.book) && id in s.queues && !s.queues[id].finRequested
    requires s.queues[id].nextOffset + |data| <= MAX_VALUE
    ensures LogOk(emitted, Written(s.book, id, data, fin,
        Cut(s.queues[id].nextOffset, data, fin, Packets.ChunkLimit(limits.maxDatagramSize))))
  {
    hide LogOk, Cut, Registered;
    var items := Cut(s.queues[id].nextOffset, data, fin, Packets.ChunkLimit(limits.maxDatagramSize));
    CutFresh(s.queues, s.book, id, data, fin, limits.maxDatagramSize);
    LogRegistered(emitted, s.book, id, items);
    LogSame(emitted, Registered(s.book, id, items), Written(s.book, id, data, fin, items));
  }

  lemma WrittenFlow(limits: Bounds, s: Sender, flow: SendFlow, id: u64, data: seq<byte>, fin: bool)
    requires Sound(limits, s, None) && FlowOk(s.book, flow) && id in s.queues && !s.queues[id].finRequested
    requires s.queues[id].nextOffset + |data| <= MAX_VALUE
    ensures FlowOk(Written(s.book, id, data, fin,
        Cut(s.queues[id].nextOffset, data, fin, Packets.ChunkLimit(limits.maxDatagramSize))), flow)
  {
    hide Cut, Registered, FlowOk;
    var items := Cut(s.queues[id].nextOffset, data, fin, Packets.ChunkLimit(limits.maxDatagramSize));
    CutFresh(s.queues, s.book, id, data, fin, limits.maxDatagramSize);
    FlowRegistered(s.book, id, items, flow);
    FlowKept(Registered(s.book, id, items), Written(s.book, id, data, fin, items), flow);
  }

  lemma OpenedLog(limits: Bounds, s: Sender, emitted: seq<Emission>, id: u64, window: nat)
    requires Sound(limits, s, None) && LogOk(emitted, s.book) && id !in s.queues
    ensures LogOk(emitted, Opened(s.book, id, window))
  {
    LogSame(emitted, s.book, Opened(s.book, id, window));
  }

  /** From `was` to `now` only chunks in flight in covered packets became acknowledged, and no
      chunk took off. */
  ghost predicate Settles(was: Book, now: Book, ranges: seq<AckRange>)
  {
    && Still(was, now)
    && forall t :: t in now.place ==> t in was.place && PlaceSettles(was.place[t], now.place[t], ranges)
  }

  predicate PlaceSettles(p: Place, q: Place, ranges: seq<AckRange>)
  {
    match q
    case Acknowledged => p.Acknowledged? || (p.InFlight? && AckCovers(ranges, p.packetNumber))
    case InFlight(_) => p == q
    case Queued => true
  }

  lemma SettlesSame(b: Book, ranges: seq<AckRange>)
    ensures Settles(b, b, ranges)
  {
  }

  lemma SettlesTwice(a: Book, b: Book, c: Book, ranges: seq<AckRange>)
    requires Settles(a, b, ranges) && Settles(b, c, ranges)
    ensures Settles(a, c, ranges)
  {
    hide AckCovers;
  }

  lemma SettlesAcked(limits: Bounds, s: Sender, pn: u64, was: Book, ranges: seq<AckRange>)
    requires Sound(limits, s, None) && pn in s.sent && AckCovers(ranges, pn) && Settles(was, s.book, ranges)
    ensures Settles(was, AckedBook(s, pn), ranges)
  {
    if s.sent[pn].queued.frame.StreamData? { LandedFacts(limits, s, pn); }
    hide AckCovers, Sound;
  }

  lemma SettlesLost(limits: Bounds, s: Sender, pn: u64, was: Book, ranges: seq<AckRange>)
    requires Sound(limits, s, None) && pn in s.sent && Settles(was, s.book, ranges)
    ensures Settles(was, LostBook(s, pn), ranges)
  {
    if s.sent[pn].queued.frame.StreamData? { LandedFacts(limits, s, pn); }
    hide AckCovers, Sound;
  }

  lemma LandedFacts(limits: Bounds, s: Sender, pn: u64)
    requires Sound(limits, s, None) && pn in s.sent && s.sent[pn].queued.frame.StreamData?
    ensures var t := FrameTag(s.sent[pn].queued.frame); t in s.book.place && s.book.place[t] == InFlight(pn)
  {
    assert FlightOk(s.book, pn, s.sent[pn].queued, limits.maxRetransmissions);
  }

  /** What `requeue_lost` answers. */
  function Limited(queued: QueuedFrame, settings: Settings): Done
  {
    if Again(queued).retransmitCount > settings.maxRetransmissions then Err(RetransmissionLimit) else Ok(true)
  }

  lemma HandOfControl(f: Frame)
    requires !AckEliciting(f) || Unrecorded(f)
    ensures HandOf(f) == None && !f.StreamData?
  {
  }

  /** The book after the frame goes out. */
  function SentBook(b: Book, f: Frame, pn: u64): Book
    requires f.StreamData? ==> InBook(b, FrameTag(f))
  {
    if f.StreamData? then Transmitted(b, FrameTag(f), pn) else b
  }

  /** What is sent for the first time is accounted, and nothing else. */
  lemma HandFirst(limits: Bounds, b: Book, f: QueuedFrame, pn: u64, flow: SendFlow)
    requires HandOk(limits, b, f) && f.frame.StreamData? && FlowOk(b, flow)
    requires FlowAllows(flow, |f.frame.data|, f.retransmitCount != 0)
    ensures InBook(b, FrameTag(f.frame))
    ensures FlowOk(SentBook(b, f.frame, pn), if f.retransmitCount == 0 then Account(flow, |f.frame.data|) else flow)
  {
    hide FlowOk;
    if f.retransmitCount == 0 {
      FlowFirst(b, FrameTag(f.frame), pn, flow);
    } else {
      FlowAgain(b, FrameTag(f.frame), pn, flow);
    }
  }

  lemma NumberUnused(limits: Bounds, s: Sender, hand: Option<Tag>)
    requires Sound(limits, s, hand)
    ensures s.next <= U64_MAX ==> s.next !in s.sent
  {
    NumberFree(s.sent, s.congestion, s.next);
  }

  lemma HandInBook(limits: Bounds, b: Book, f: QueuedFrame)
    requires HandOk(limits, b, f)
    ensures f.retransmitCount <= limits.maxRetransmissions
    ensures f.frame.StreamData? ==> ChunkInBook(b, f.frame)
  {
  }

  lemma RecordedFields(s: Sender, p: SentPacket)
    requires s.next <= U64_MAX
    requires p.queued.frame.StreamData? ==> InBook(s.book, FrameTag(p.queued.frame))
    ensures Recorded(s, p).book == SentBook(s.book, p.queued.frame, s.next)
    ensures Recorded(s, p) == Sender(s.queues, s.sent[s.next := p], Recorded(s, p).book,
      s.live[s.issued := Retransmit(s.next, p.generation)], s.issued + 1, s.expired,
      OnSent(s.congestion, p.encodedLen), s.next + 1, s.closed)
  {
  }
}
