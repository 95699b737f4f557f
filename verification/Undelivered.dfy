/** A run in which the sender is reliably flushed and its data was never delivered: the packet
    arrives before the peer has opened the stream, is recorded, and is acknowledged all the same. */
module Undelivered {
  import opened Wrappers
  import opened Bytes
  import opened Varint
  import opened AckRanges
  import opened Frames
  import opened SendStream
  import opened StreamAccounting
  import opened TransportModel
  import opened Transport
  import opened Delivery
  import opened DataRuns
  import opened Timers
  import opened TimerModel
  import Packets
  import Runs = TransportRuns
  import WheelConfig

  // ---- The program's defaults ----

  const MILLI: nat := 1_000_000
  const DEFAULTS: Settings := Settings(1200, 8, 3, 25 * MILLI, 30_000 * MILLI, Some(10_000 * MILLI), 1_000 * MILLI,
    4_194_304)
  const RTO: nat := 1_000 * MILLI
  const STREAM_WINDOW: nat := 1_048_576
  const CONNECTION_WINDOW: nat := 4_194_304
  const MAX_RECEIVE_BUFFER: nat := 4_194_304
  const TICKS: WheelConfig.Config := WheelConfig.Config(10 * MILLI,
    [WheelConfig.Level(1, 512, 512, 511), WheelConfig.Level(512, 32768, 64, 63),
     WheelConfig.Level(32768, 2097152, 64, 63)], 640)

  lemma DefaultTicks()
    ensures WheelConfig.Layout(TICKS.levels) && 0 < TICKS.baseTickNanos <= U64_MAX
    ensures CanSet(Clock(0, 0, TICKS.baseTickNanos), RTO)
  {
  }

  // ---- One frame goes out, and then there is none ----

  lemma {:induction false} OnlyFrame(m: Mail, f: QueuedFrame, frames: seq<QueuedFrame>, w: Wire)
    requires InTurn(m, frames, w)
    requires forall g :: IsNext(m.box.pending, m.box.queues, g) ==> g == f
    requires forall g :: var after := Posted(m, f, w).box; !IsNext(after.pending, after.queues, g)
    ensures frames == [] || frames == [f]
  {
    hide IsNext, MaySend, Posted;
    if |frames| > 0 {
      var init, last := frames[..|frames| - 1], frames[|frames| - 1];
      OnlyFrame(m, f, init, w);
      assert frames == init + [last];
      assert [f][..0] == [];
    }
  }

  /** A flush with one frame to send sends it. */
  lemma FlushOne(was: Runs.Look, now: Runs.Look, f: QueuedFrame, w: Wire, rto: nat, ok: bool)
    requires exists frames :: Runs.Flushes(was, now, frames, w, rto, ok)
    requires IsNext(was.mail.box.pending, was.mail.box.queues, f) && MaySend(was.mail, f, w) && CanSet(was.clock, rto)
    requires forall g :: IsNext(was.mail.box.pending, was.mail.box.queues, g) ==> g == f
    requires forall g :: var after := Posted(was.mail, f, w).box; !IsNext(after.pending, after.queues, g)
    requires was.mail.box.pending == [] && exists id :: id in was.mail.box.queues && Sendable(was.mail.box.queues[id])
    ensures ok && now == was.(mail := Posted(was.mail, f, w))
  {
    var frames :| Runs.Flushes(was, now, frames, w, rto, ok);
    OnlyFrame(was.mail, f, frames, w);
    hide IsNext, Posted, Sendable;
    assert AllPosted(was.mail, [], w) == was.mail;
    assert [f][..0] == [];
  }

  // ---- The states of the run ----

  function Window(): Congestion
  {
    Congestion(12_000, 16_777_216, 0, 1_200, 16_777_216, 1_200)
  }

  function Begun(state: ConnectionState, queues: Queues): Runs.Look
  {
    Runs.Look(state, {}, false, Mail(Outbox([], queues, Window()), SendFlow(CONNECTION_WINDOW, 0), 0, map[], []),
      Clock(0, 0, TICKS.baseTickNanos))
  }

  /** The stream with one byte and its end written to it. */
  function Holding(payload: byte): SendQueue
  {
    SendQueue(STREAM_WINDOW, 1, 1, true, false, [PendingData(0, [payload], true, 0)])
  }

  function OneByte(payload: byte): QueuedFrame
  {
    QueuedFrame(StreamData(0, 0, true, [payload]), 0, 0)
  }

  function Plain(): Wire
  {
    Wire(Established, false, DEFAULTS.maxDatagramSize)
  }

  function Sent(payload: byte): Runs.Look
  {
    var was := Begun(Established, map[0 := Holding(payload)]);
    was.(mail := Posted(was.mail, OneByte(payload), Plain()))
  }

  lemma CutByte(payload: byte, size: nat)
    requires size > 0
    ensures Cut(0, [payload], true, size) == [PendingData(0, [payload], true, 0)]
  {
    assert [payload][..1] == [payload] && [payload][1..] == [];
    assert ChunksOf(1, [], size) == [];
    assert ChunksOf(0, [payload], size) == [PendingData(0, [payload], false, 0)];
  }

  lemma Written(payload: byte)
    ensures var empty := SendQueue(STREAM_WINDOW, 0, 0, false, false, []);
      && WriteAnswer(Established, {}, map[0 := empty], 0, 1, DEFAULTS.maxSendBuffer).Ok?
      && Lengthened(empty, [payload], true, Packets.ChunkLimit(DEFAULTS.maxDatagramSize)) == Holding(payload)
  {
    CutByte(payload, Packets.ChunkLimit(DEFAULTS.maxDatagramSize));
  }

  lemma MayGo(payload: byte)
    ensures MaySend(Begun(Established, map[0 := Holding(payload)]).mail, OneByte(payload), Plain())
  {
    ChunkLength(OneByte(payload).frame, DEFAULTS.maxDatagramSize);
    FitsOnWire(OneByte(payload).frame, Established, false, DEFAULTS.maxDatagramSize);
    hide PlainLength, PacketTypeOf;
  }

  lemma OnlyOne(payload: byte)
    ensures var box := Begun(Established, map[0 := Holding(payload)]).mail.box;
      && Sendable(box.queues[0]) && IsNext(box.pending, box.queues, OneByte(payload))
      && forall g :: IsNext(box.pending, box.queues, g) ==> g == OneByte(payload)
    ensures var after := Sent(payload).mail.box;
      && after.pending == [] && after.queues.Keys == {0} && after.queues[0].queue == []
      && forall g :: !IsNext(after.pending, after.queues, g)
  {
    hide WireLength;
  }

  lemma SentFacts(payload: byte)
    ensures Sent(payload).mail.recorded == map[0 := OneByte(payload)]
    ensures var emitted := Sent(payload).mail.emitted;
      |emitted| == 1 && emitted[0].packetNumber == 0 && emitted[0].frame == OneByte(payload).frame
  {
    hide WireLength;
  }

  // ---- The steps ----

  lemma Establishing(now: Runs.Look, ok: bool)
    requires Runs.Acts(Runs.Establish, DEFAULTS, Begun(Idle, map[]), now, ok)
    ensures ok && now == Begun(Established, map[])
  {
  }

  lemma Opening(now: Runs.Look, ok: bool)
    requires Runs.Acts(Runs.OpenStream(0, STREAM_WINDOW), DEFAULTS, Begun(Established, map[]), now, ok)
    ensures ok && now == Begun(Established, map[0 := SendQueue(STREAM_WINDOW, 0, 0, false, false, [])])
  {
  }

  lemma Writing(now: Runs.Look, ok: bool, payload: byte)
    requires Runs.Acts(Runs.Write(0, [payload], true), DEFAULTS,
        Begun(Established, map[0 := SendQueue(STREAM_WINDOW, 0, 0, false, false, [])]), now, ok)
    ensures ok && now == Begun(Established, map[0 := Holding(payload)])
  {
    Written(payload);
    hide Lengthened, WriteAnswer, Holding;
  }

  lemma Flushing(now: Runs.Look, ok: bool, payload: byte)
    requires Runs.Acts(Runs.Flush(false, RTO), DEFAULTS, Begun(Established, map[0 := Holding(payload)]), now, ok)
    ensures ok && now == Sent(payload)
  {
    MayGo(payload);
    OnlyOne(payload);
    DefaultTicks();
    hide Holding, OneByte, IsNext, MaySend, Posted, Runs.Flushes, CanSet, Sendable;
    FlushOne(Begun(Established, map[0 := Holding(payload)]), now, OneByte(payload), Plain(), RTO, ok);
  }

  /** What the peer has on record after packet 0, and the acknowledgement it gives. */
  lemma Recording(ranges: seq<AckRange>, floor: nat, at: Option<nat>)
    requires Keeps([], 0, ranges, floor, 0)
    ensures ranges == [AckRange(0, 0)] && AckOf(ranges, at, 0, 0) == [AckFrame(0, 0, [AckRange(0, 0)])]
  {
    var merged: seq<AckRange> :| Added([], merged, 0) && Cropped(merged, 0, ranges, floor);
    assert Contains([AckRange(0, 0)][0], 0);
    CanonicalUnique(merged, [AckRange(0, 0)]);
  }

  /** The acknowledgement covers the only packet sent. */
  lemma Acknowledging(sent: SentTable, o: Outbox, sent': SentTable, o': Outbox)
    requires sent.Keys == {0}
    ensures !AnyLimited(sent, OvertakenBy(sent, [AckRange(0, 0)], DEFAULTS.fastLossThreshold), DEFAULTS)
    ensures AckApplied(sent, o, [AckRange(0, 0)], DEFAULTS.fastLossThreshold, sent', o') ==>
      sent' == map[] && o'.pending == o.pending && o'.queues == o.queues
  {
    assert Contains([AckRange(0, 0)][0], 0);
    assert Covered(sent, [AckRange(0, 0)]) == {0};
    assert sent - {0} == map[];
    assert OvertakenBy(sent, [AckRange(0, 0)], DEFAULTS.fastLossThreshold) == {};
  }

  // ---- The run ----

  /** Everything is new, and nothing has happened yet. */
  method Start() returns (data: DataLink)
    ensures data.Valid() && fresh(data) && fresh(data.link) && fresh(data.link.peer) && fresh(data.streams)
    ensures fresh(data.link.sender) && fresh(data.link.sender.received) && fresh(data.link.sender.timers)
    ensures fresh(data.link.sender.timers.wheel) && fresh(data.link.sender.timers.wheel.tasks)
    ensures fresh(data.link.sender.timers.wheel.heap) && data.link.peer != data.link.sender.received
    ensures data.link.sender.settings == DEFAULTS && Runs.LookAt(data.link.sender) == Begun(Idle, map[])
    ensures data.link.acks == [] && data.link.peer.ranges == [] && data.link.peer.floor == 0
    ensures data.streams.streams == map[] && data.arrivals == []
    ensures data.written == map[] && data.taken == map[] && data.kept
  {
    hide Connection.Valid, ReceivedPackets.Valid, Runs.AckLink.Valid, ConnectionReceiver.Valid, DataLink.Valid;
    DefaultTicks();
    var sender := new Connection(DEFAULTS, TICKS, 12_000, 1_200, 16_777_216, CONNECTION_WINDOW);
    var peer := new ReceivedPackets();
    var link := new Runs.AckLink(sender, peer);
    var streams := new ConnectionReceiver(CONNECTION_WINDOW, MAX_RECEIVE_BUFFER);
    data := new DataLink(link, streams);
  }

  /** The sender opens a stream, writes one byte and its end, and flushes. */
  method Send(data: DataLink, payload: byte)
    requires data.Valid() && data.streams.streams == map[] && data.written == map[]
    requires data.link.sender.settings == DEFAULTS && Runs.LookAt(data.link.sender) == Begun(Idle, map[])
    modifies data`written, data`finished, data`kept, data.link.sender, data.link.sender.received,
      data.link.sender.timers, data.link.sender.timers.wheel, data.link.sender.timers.wheel.tasks,
      data.link.sender.timers.wheel.heap
    ensures data.Valid() && Runs.LookAt(data.link.sender) == Sent(payload)
    ensures data.written == map[0 := [payload]] && 0 in data.finished
  {
    hide DataLink.Valid, DataLink.Granted, Runs.Acts, Runs.LookAt, Sent, WrittenTexts, EndedTexts;
    data.Weigh(Transport(Runs.Establish));
    TextsAfter(data.link.sender, Runs.Establish, data.written);
    var done := data.SenderStep(Runs.Establish, 0);
    Establishing(Runs.LookAt(data.link.sender), done.Ok?);
    data.Weigh(Transport(Runs.OpenStream(0, STREAM_WINDOW)));
    TextsOpened(data.link.sender, data.written);
    done := data.SenderStep(Runs.OpenStream(0, STREAM_WINDOW), 0);
    Opening(Runs.LookAt(data.link.sender), done.Ok?);
    data.Weigh(Transport(Runs.Write(0, [payload], true)));
    TextsWritten(data.link.sender, data.written, data.finished, payload);
    done := data.SenderStep(Runs.Write(0, [payload], true), 0);
    Writing(Runs.LookAt(data.link.sender), done.Ok?, payload);
    data.Weigh(Transport(Runs.Flush(false, RTO)));
    TextsAfter(data.link.sender, Runs.Flush(false, RTO), data.written);
    EndsAfter(data.link.sender, Runs.Flush(false, RTO), data.finished);
    done := data.SenderStep(Runs.Flush(false, RTO), 0);
    Flushing(Runs.LookAt(data.link.sender), done.Ok?, payload);
  }

  lemma TextsAfter(sender: Connection, act: Runs.Action, texts: map<u64, seq<byte>>)
    requires act.Establish? || act.Flush?
    ensures WrittenTexts(sender, act, texts) == texts
  {
  }

  lemma EndsAfter(sender: Connection, act: Runs.Action, ended: set<u64>)
    requires act.Establish? || act.Flush?
    ensures EndedTexts(sender, act, ended) == ended
  {
  }

  lemma TextsOpened(sender: Connection, texts: map<u64, seq<byte>>)
    requires Runs.LookAt(sender) == Begun(Established, map[])
    ensures WrittenTexts(sender, Runs.OpenStream(0, STREAM_WINDOW), texts) == texts[0 := []]
  {
  }

  lemma TextsWritten(sender: Connection, texts: map<u64, seq<byte>>, ended: set<u64>, payload: byte)
    requires sender.settings == DEFAULTS && texts == map[0 := []]
    requires Runs.LookAt(sender) ==
      Begun(Established, map[0 := SendQueue(STREAM_WINDOW, 0, 0, false, false, [])])
    ensures WrittenTexts(sender, Runs.Write(0, [payload], true), texts) == map[0 := [payload]]
    ensures EndedTexts(sender, Runs.Write(0, [payload], true), ended) == ended + {0}
  {
    Written(payload);
    assert [] + [payload] == [payload];
    hide WriteAnswer;
  }

  /** The packet is recorded although its data cannot be taken, and acknowledged; then nothing is
      left to send or to be acknowledged. */
  method Acknowledge(data: DataLink, payload: byte)
    requires data.Valid() && data.streams.streams == map[] && data.arrivals == []
    requires data.link.sender.settings == DEFAULTS && Runs.LookAt(data.link.sender) == Sent(payload)
    requires data.link.acks == [] && data.link.peer.ranges == [] && data.link.peer.floor == 0
    modifies data`refused, data`arrivals, data`kept, data.streams, data.link`acks, data.link.peer,
      data.link.sender`sent, data.link.sender`congestion, data.link.sender`book, data.link.sender`expired,
      data.link.sender`pendingFrames, data.link.sender`queues,
      data.link.sender.timers.wheel, data.link.sender.timers.wheel.tasks, data.link.sender.timers.wheel.heap
    ensures data.Valid() && data.link.sender.Flushed() && data.arrivals == [Arrival(0, false)]
    ensures data.streams.streams == map[]
  {
    hide DataLink.Valid, DataLink.Granted, Sent, Keeps, AckOf, AckApplied, AnyLimited, OvertakenBy, Covered, FramesOf;
    SentFacts(payload);
    OnlyOne(payload);
    hide Sendable, IsNext;
    assert data.link.sender.sent.Keys == {0} by { KeysOf(data.link.sender.sent, payload); }
    data.Weigh(Transport(Runs.DeliverToPeer(0)));
    data.Deliver(0, 0);
    Recording(data.link.peer.ranges, data.link.peer.floor, data.link.peer.largestReceivedAt);
    data.Weigh(Transport(Runs.PeerAcknowledges(0)));
    data.Acknowledge(0, 0);
    data.Weigh(Transport(Runs.DeliverAck(0)));
    ghost var sent, o := data.link.sender.sent, data.link.sender.Waiting();
    Acknowledging(sent, o, map[], o);
    var done := data.DeliverAck(0);
    Acknowledging(sent, o, data.link.sender.sent, data.link.sender.Waiting());
  }

  lemma KeysOf(sent: SentTable, payload: byte)
    requires FramesOf(sent) == map[0 := OneByte(payload)]
    ensures sent.Keys == {0}
  {
    assert FramesOf(sent).Keys == sent.Keys;
  }

  /** The data arrives before its stream is opened at the peer, and is acknowledged all the same:
      the sender is reliably flushed, the stream is open by then, and its data will never come. */
  method DataLost(payload: byte) returns (data: DataLink)
    ensures data.Valid() && data.link.sender.Flushed() && !data.kept
    ensures data.written == map[0 := [payload]] && 0 in data.streams.streams
    ensures data.refused == {0} && data.arrivals == [Arrival(0, false)]
    ensures !DeliveredAll(data.Reader(), data.written, data.finished, 0)
  {
    hide DataLink.Valid, DataLink.Granted, Runs.LookAt, Sent, Inboxes, Connection.Flushed;
    data := Start();
    Send(data, payload);
    Acknowledge(data, payload);
    data.Weigh(Step.OpenAtPeer(0, STREAM_WINDOW, 0));
    var known := data.OpenAtPeer(0, STREAM_WINDOW, 0);
    Refused(data);
  }

  lemma Refused(data: DataLink)
    requires data.Valid() && data.arrivals == [Arrival(0, false)]
    ensures data.refused == {0} && !data.kept
  {
    hide PeerOk, Complete, Tiles, ConnectionReceiver.Valid, Runs.AckLink.Valid, DataRecorded;
    assert data.arrivals[0].number in Unmet(data.arrivals);
    assert Unmet(data.arrivals) == {0};
  }
}
