/** A whole connection end to end: applications write on one side and read on the other, over a
    network that loses, duplicates and reorders packets and acknowledgements. */
module DataRuns {
  import opened Wrappers
  import opened Bytes
  import opened AckRanges
  import opened Frames
  import opened SendStream
  import opened ReceiveStream
  import opened StreamAccounting
  import opened TransportModel
  import opened Ledger
  import opened Transport
  import opened Delivery
  import Grants
  import Runs = TransportRuns
  import Sums
  import Segments
  import opened Timers

  // ---- Which packets could be taken ----

  /** A data packet was recorded: its number, and whether the peer could take its data then. */
  datatype Arrival = Arrival(number: nat, admitted: bool)

  ghost function Met(arrivals: seq<Arrival>): set<nat>
  {
    set i | 0 <= i < |arrivals| && arrivals[i].admitted :: arrivals[i].number
  }

  ghost function Unmet(arrivals: seq<Arrival>): set<nat>
  {
    set i | 0 <= i < |arrivals| && !arrivals[i].admitted :: arrivals[i].number
  }

  ghost function DataRecorded(emitted: seq<Emission>, received: set<nat>): set<nat>
  {
    set i | 0 <= i < |emitted| && emitted[i].frame.StreamData? && emitted[i].packetNumber in received ::
      emitted[i].packetNumber
  }

  /** Every data packet on record arrived, and those were refused that could not be taken. */
  ghost predicate Judged(emitted: seq<Emission>, received: set<nat>, arrivals: seq<Arrival>, refused: set<nat>)
  {
    Met(arrivals) + Unmet(arrivals) == DataRecorded(emitted, received) && refused == Unmet(arrivals)
  }

  ghost predicate AllAdmitted(arrivals: seq<Arrival>)
  {
    forall i :: 0 <= i < |arrivals| ==> arrivals[i].admitted
  }

  lemma NoneRefused(emitted: seq<Emission>, received: set<nat>, arrivals: seq<Arrival>, refused: set<nat>)
    requires Judged(emitted, received, arrivals, refused)
    ensures refused == {} <==> AllAdmitted(arrivals)
    ensures refused == {} ==> Met(arrivals) == DataRecorded(emitted, received)
  {
    if !AllAdmitted(arrivals) {
      var i :| 0 <= i < |arrivals| && !arrivals[i].admitted;
      assert arrivals[i].number in Unmet(arrivals);
    }
    if refused != {} {
      var n :| n in Unmet(arrivals);
      var i :| 0 <= i < |arrivals| && !arrivals[i].admitted && arrivals[i].number == n;
    }
  }

  lemma OneMore(arrivals: seq<Arrival>, a: Arrival)
    ensures Met(arrivals + [a]) == Met(arrivals) + if a.admitted then {a.number} else {}
    ensures Unmet(arrivals + [a]) == Unmet(arrivals) + if a.admitted then {} else {a.number}
  {
    var more := arrivals + [a];
    forall n ensures n in Met(more) <==> n in Met(arrivals) || (a.admitted && n == a.number) {
      if n in Met(arrivals) {
        var i :| 0 <= i < |arrivals| && arrivals[i].admitted && arrivals[i].number == n;
        assert more[i] == arrivals[i];
      }
      if a.admitted && n == a.number { assert more[|arrivals|] == a; }
    }
    forall n ensures n in Unmet(more) <==> n in Unmet(arrivals) || (!a.admitted && n == a.number) {
      if n in Unmet(arrivals) {
        var i :| 0 <= i < |arrivals| && !arrivals[i].admitted && arrivals[i].number == n;
        assert more[i] == arrivals[i];
      }
      if !a.admitted && n == a.number { assert more[|arrivals|] == a; }
    }
  }

  lemma RecordedMore(emitted: seq<Emission>, next: nat, received: set<nat>, index: nat)
    requires NumbersUsed(emitted, next) && index < |emitted|
    ensures DataRecorded(emitted, received + {emitted[index].packetNumber}) ==
      DataRecorded(emitted, received) + if emitted[index].frame.StreamData? then {emitted[index].packetNumber} else {}
  {
    var n := emitted[index].packetNumber;
    forall i | 0 <= i < |emitted| && emitted[i].packetNumber == n ensures i == index { }
    if emitted[index].frame.StreamData? { assert n in DataRecorded(emitted, received + {n}); }
  }

  /** Packets sent later have not been recorded. */
  lemma RecordedLater(emitted: seq<Emission>, later: seq<Emission>, next: nat, received: set<nat>)
    requires emitted <= later && NumbersUsed(later, next) && forall n :: n in received ==> Runs.Emitted(emitted, n)
    ensures DataRecorded(later, received) == DataRecorded(emitted, received)
  {
    hide NumbersUsed;
    forall n ensures n in DataRecorded(later, received) <==> n in DataRecorded(emitted, received) {
      if n in DataRecorded(later, received) {
        var i :| 0 <= i < |later| && later[i].frame.StreamData? && later[i].packetNumber == n;
        SameLater(emitted, later, next, n);
        assert later[i] in emitted;
        var j :| 0 <= j < |emitted| && emitted[j] == later[i];
      }
      if n in DataRecorded(emitted, received) {
        var i :| 0 <= i < |emitted| && emitted[i].frame.StreamData? && emitted[i].packetNumber == n;
        assert later[i] == emitted[i];
      }
    }
  }

  /** The peer holds what it did, however much is sent meanwhile. */
  lemma SentLater(x: Peer, b: Book, emitted: seq<Emission>, later: seq<Emission>, next: nat)
    requires PeerOk(x, b, emitted) && emitted <= later && NumbersUsed(later, next)
    requires forall n :: n in x.met ==> Runs.Emitted(emitted, n)
    ensures AllArrived(x, later) && AllCaused(x, later)
  {
    hide Arrived, NumbersUsed, AllFollow, AllCaused;
    AllCausedMore(x, emitted, later, x.met);
    assert x.(met := x.met) == x;
    forall e | e in later && e.packetNumber in x.met ensures e in emitted {
      SameLater(emitted, later, next, e.packetNumber);
    }
  }

  // ---- The sender's steps ----

  /** What has been written after this step, given what was before. */
  function WrittenTexts(sender: Connection, act: Runs.Action, texts: map<u64, seq<byte>>): map<u64, seq<byte>>
    reads sender
  {
    if Runs.Takes(sender, act) then texts[act.id := (if act.id in texts then texts[act.id] else []) + act.data]
    else if act.OpenStream? && act.id !in sender.queues then texts[act.id := []]
    else texts
  }

  function EndedTexts(sender: Connection, act: Runs.Action, ended: set<u64>): set<u64>
    reads sender
  {
    if Runs.Takes(sender, act) && act.fin then ended + {act.id} else ended
  }

  /** What the reader has still agrees with what was written, and every byte written is still in
      one chunk, whatever the sender does next. */
  lemma SenderStepKeeps(sender: Connection, act: Runs.Action, x: Peer, c: Book)
    requires sender.Valid() && AllFollow(x, sender.book) && Complete(sender.book) && Tiles(sender.book)
    requires Still(Runs.BookAfter(sender, act), c)
    ensures AllFollow(x, c) && Complete(c) && Tiles(c)
    ensures c.texts == WrittenTexts(sender, act, sender.book.texts)
    ensures c.ended == EndedTexts(sender, act, sender.book.ended)
  {
    hide AllFollow, Complete, Tiles, LogOk, TimerState.Valid, Cut, Written, FlowOk, ControlOnly, NumbersUsed, LedgerOk;
    if Runs.Takes(sender, act) {
      WriteKeeps(sender, act, x, c);
    } else {
      if act.OpenStream? && act.id !in sender.queues { UnknownText(sender.Bounded(), sender.View(), act.id); }
      hide Sound, Runs.Takes;
      AllFollowSame(x, sender.book, c);
      CompleteSame(sender.book, c);
    }
  }

  lemma WriteKeeps(sender: Connection, act: Runs.Action, x: Peer, c: Book)
    requires sender.Valid() && AllFollow(x, sender.book) && Complete(sender.book) && Tiles(sender.book)
    requires Runs.Takes(sender, act) && Still(Runs.BookAfter(sender, act), c)
    ensures AllFollow(x, c) && Complete(c) && Tiles(c)
    ensures c.texts == WrittenTexts(sender, act, sender.book.texts)
    ensures c.ended == EndedTexts(sender, act, sender.book.ended)
  {
    hide AllFollow, Complete, Tiles, LogOk, TimerState.Valid, Cut, Written, FlowOk, ControlOnly, NumbersUsed, LedgerOk;
    var b, s := sender.book, sender.View();
    KnownText(sender.Bounded(), s, act.id);
    hide Sound;
    WrittenComplete(sender.Bounded(), s, act.id, act.data, act.fin);
    WriteTexts(b, act.id, act.data, act.fin, Runs.CutAt(sender, act.id, act.data, act.fin));
    AllFollowWrite(x, b, c, act.id, act.data, act.fin);
    CompleteSame(Runs.BookAfter(sender, act), c);
  }

  lemma KnownText(limits: Bounds, s: Sender, id: u64)
    requires Sound(limits, s, None) && id in s.queues
    ensures id in s.book.texts && (id in s.book.ended <==> s.queues[id].finRequested)
  {
  }

  lemma UnknownText(limits: Bounds, s: Sender, id: u64)
    requires Sound(limits, s, None) && id !in s.queues
    ensures id !in s.book.texts
  {
  }

  // ---- Both sides ----

  function WithMet(x: Peer, number: nat): Peer
  {
    x.(met := x.met + {number})
  }

  datatype Step =
    | Transport(act: Runs.Action)   // on the sender, and on acknowledgements; packets arrive in any order
    | OpenAtPeer(id: StreamId, window: u64, parity: nat)
    | Read(id: StreamId, maxLen: nat)
    | ResetAtPeer(id: StreamId, errorCode: nat)

  class DataLink {
    const link: Runs.AckLink
    const streams: ConnectionReceiver
    /** What was written to each stream, and the streams that were ended. */
    var written: map<u64, seq<byte>>
    var finished: set<u64>
    /** What reads returned from each stream, and the streams whose end a read has reported. */
    var taken: map<StreamId, seq<byte>>
    var ended: set<StreamId>
    /** The packets that the peer recorded although it could not take their data. */
    var refused: set<nat>
    /** Every data packet that the peer recorded, in order, and whether it could be taken then. */
    ghost var arrivals: seq<Arrival>
    /** Every step so far kept to what the peer had granted. */
    ghost var kept: bool

    ghost predicate Valid()
      reads this, link, link.sender, link.sender.received, link.sender.timers, link.sender.timers.wheel,
        link.sender.timers.wheel.tasks, link.sender.timers.wheel.heap, link.peer,
        streams, set id | id in streams.streams :: streams.streams[id],
        set id | id in streams.streams :: streams.streams[id].recv
    {
      && link.Valid() && streams.Valid()
      && written == link.sender.book.texts && finished == link.sender.book.ended
      && PeerOk(Reader(), link.sender.book, link.sender.emitted)
      && Complete(link.sender.book) && Tiles(link.sender.book)
      && Judged(link.sender.emitted, link.peer.received, arrivals, refused)
      && (kept ==> refused == {} && WithinGrants(link.sender.book))
    }

    ghost function Reader(): Peer
      reads this, streams, set id | id in streams.streams :: streams.streams[id],
        set id | id in streams.streams :: streams.streams[id].recv
    {
      Peer(Inboxes(streams.streams), taken, ended, Met(arrivals))
    }

    ghost predicate WithinGrants(b: Book)
      reads streams, set id | id in streams.streams :: streams.streams[id],
        set id | id in streams.streams :: streams.streams[id].recv
    {
      Grants.Within(Inboxes(streams.streams), streams.connection, streams.maxReceiveBuffer, b)
    }

    ghost function NumberOf(index: nat): nat
      reads link, link.sender
    {
      if index < |link.sender.emitted| then link.sender.emitted[index].packetNumber else 0
    }

    /** The peer will record the packet. */
    ghost predicate Records(index: nat)
      reads link, link.sender, link.peer
    {
      index < |link.sender.emitted| && !Covers(link.peer.ranges, link.sender.emitted[index].packetNumber)
    }

    /** It carries data. */
    ghost predicate CarriesData(index: nat)
      reads link, link.sender
    {
      index < |link.sender.emitted| && link.sender.emitted[index].frame.StreamData?
    }

    /** Whether the peer can take the packet's data now. */
    ghost function Judgement(index: nat): seq<Arrival>
      reads link, link.sender, streams, set id | id in streams.streams :: streams.streams[id],
        set id | id in streams.streams :: streams.streams[id].recv
    {
      if CarriesData(index) then [Arrival(NumberOf(index), CanTake(link.sender.emitted[index].frame))] else []
    }

    /** The packet's data cannot be taken. */
    ghost predicate Refuses(index: nat)
      reads link, link.sender, streams, set id | id in streams.streams :: streams.streams[id],
        set id | id in streams.streams :: streams.streams[id].recv
    {
      CarriesData(index) && !CanTake(link.sender.emitted[index].frame)
    }

    /** The peer can take the frame now. */
    ghost predicate CanTake(f: Frame)
      reads streams, set id | id in streams.streams :: streams.streams[id],
        set id | id in streams.streams :: streams.streams[id].recv
    {
      && f.StreamData?
      && Admits(Inboxes(streams.streams), streams.connection, streams.maxReceiveBuffer, f.streamId, f.offset, f.data,
           f.fin)
    }

    /** The step keeps to what the peer has granted: data arrives after its stream was opened, the
        sender's windows never end past the peer's, and no stream's window exceeds the buffer. */
    ghost predicate Granted(step: Step)
      reads link, link.sender, link.peer,
        streams, set id | id in streams.streams :: streams.streams[id],
        set id | id in streams.streams :: streams.streams[id].recv
    {
      var boxes := Inboxes(streams.streams);
      match step
      case Transport(DeliverToPeer(index)) =>
        Records(index) && CarriesData(index) ==> link.sender.emitted[index].frame.streamId in streams.streams
      case Transport(OpenStream(id, window)) =>
        id !in link.sender.queues && id in boxes ==> window <= WindowEnd(boxes[id])
      case Transport(WidenStream(id, maxOffset)) => id in boxes ==> maxOffset <= WindowEnd(boxes[id])
      case Transport(WidenConnection(maxOffset)) => maxOffset <= streams.connection.maxOffset
      case OpenAtPeer(id, window, _) => id !in streams.streams ==>
        && window <= streams.maxReceiveBuffer
        && (id <= U64_MAX && id in link.sender.queues ==> link.sender.queues[id].maxOffset <= window)
      case _ => true
    }

    constructor (link: Runs.AckLink, streams: ConnectionReceiver)
      requires link.Valid() && link.sender.book == EmptyBook(link.sender.book.granted) && link.peer.received == {}
      requires streams.Valid() && streams.streams == map[]
      requires streams.connection.maxOffset == streams.connection.advertisedOffset
      ensures Valid() && this.link == link && this.streams == streams && arrivals == []
      ensures kept <==> link.sender.book.granted <= streams.connection.maxOffset
      ensures taken == map[] && written == map[]
    {
      hide ConnectionReceiver.Valid, Runs.AckLink.Valid, PeerOk, Complete, Tiles;
      Initially(link.sender.emitted, link.sender.book.granted);
      this.link, this.streams := link, streams;
      written, finished, taken, ended, refused := map[], {}, map[], {}, {};
      arrivals, kept := [], link.sender.book.granted <= streams.connection.maxOffset;
    }

    /** What `Granted` asks can be found out before the step. */
    method Check(step: Step) returns (granted: bool)
      requires Valid()
      ensures granted == Granted(step)
    {
      hide PeerOk, Complete, Tiles, Runs.AckLink.Valid, Judged, Grants.Within, Inboxes, Met, ConnectionReceiver.Valid;
      hide WindowEnd, Covers;
      granted := true;
      match step {
        case Transport(DeliverToPeer(index)) =>
          if index < |link.sender.emitted| && link.sender.emitted[index].frame.StreamData? {
            var held := link.peer.Holds(link.sender.emitted[index].packetNumber);
            granted := held || link.sender.emitted[index].frame.streamId in streams.streams;
          }
        case Transport(OpenStream(id, window)) =>
          if id !in link.sender.queues && id in streams.streams {
            WindowIs(streams, id);
            granted := window <= streams.streams[id].recv.maxOffset;
          }
        case Transport(WidenStream(id, maxOffset)) =>
          if id in streams.streams {
            WindowIs(streams, id);
            granted := maxOffset <= streams.streams[id].recv.maxOffset;
          }
        case Transport(WidenConnection(maxOffset)) => granted := maxOffset <= streams.connection.maxOffset;
        case OpenAtPeer(id, window, _) =>
          if id !in streams.streams {
            granted := window <= streams.maxReceiveBuffer
              && (id <= U64_MAX && id in link.sender.queues ==> link.sender.queues[id].maxOffset <= window);
          }
        case _ =>
      }
    }

    /** Whether the step that comes next keeps to the grants. */
    ghost method Weigh(step: Step)
      requires Valid()
      modifies this`kept
      ensures Valid() && kept == (old(kept) && Granted(step))
    {
      hide PeerOk, Complete, Tiles, ConnectionReceiver.Valid, Runs.AckLink.Valid, Judged, Grants.Within, Inboxes, Met;
      kept := kept && Granted(step);
    }

    /** A step of the sender. */
    method SenderStep(act: Runs.Action, now: nat) returns (r: Done)
      requires Valid() && !act.DeliverToPeer? && !act.PeerAcknowledges? && !act.DeliverAck?
      requires kept ==> Granted(Transport(act))
      modifies this`written, this`finished, link.sender, link.sender.received, link.sender.timers,
        link.sender.timers.wheel, link.sender.timers.wheel.tasks, link.sender.timers.wheel.heap
      ensures r.Ok? ==> Valid()
      ensures written == old(WrittenTexts(link.sender, act, written))
      ensures finished == old(EndedTexts(link.sender, act, finished))
      ensures Runs.Acts(act, link.sender.settings, old(Runs.LookAt(link.sender)), Runs.LookAt(link.sender), r.Ok?)
    {
      hide PeerOk, Complete, Tiles, ConnectionReceiver.Valid, Runs.AckLink.Valid, Judged, Grants.Within;
      hide Inboxes, Runs.BookAfter, Still, WrittenTexts, EndedTexts, Runs.Acts, Runs.LookAt, Met;
      ghost var x, b, log := Reader(), link.sender.book, link.sender.emitted;
      AnyStepKeeps(this, act);
      ReceivedEmitted(link);
      written, finished := WrittenTexts(link.sender, act, written), EndedTexts(link.sender, act, finished);
      r := link.SenderStep(act, now);
      if r.Ok? { SenderMoved(link, b, log, x, arrivals, refused); }
    }

    /** A packet arrives; if it is new to the peer, its data goes to the stream. */
    method Deliver(index: nat, now: nat)
      requires Valid()
      requires kept ==> Granted(Transport(Runs.DeliverToPeer(index)))
      modifies this`refused, this`arrivals, link.peer, streams,
        set id | id in streams.streams :: streams.streams[id],
        set id | id in streams.streams :: streams.streams[id].recv
      ensures Valid() && streams.streams == old(streams.streams)
      ensures arrivals == old(if Records(index) then arrivals + Judgement(index) else arrivals)
      ensures old(!Records(index) || Refuses(index)) ==>
        Inboxes(streams.streams) == old(Inboxes(streams.streams)) && streams.connection == old(streams.connection)
      ensures if old(Records(index))
        then Keeps(old(link.peer.ranges), old(link.peer.floor), link.peer.ranges, link.peer.floor, old(NumberOf(index)))
        else link.peer.ranges == old(link.peer.ranges)
    {
      hide PeerOk, Complete, Tiles, ConnectionReceiver.Valid, Runs.AckLink.Valid, Judged, Grants.Within, Inboxes;
      hide Admits, Covers, Keeps, Met, Unmet, DataRecorded, CountsOf, DataLink.CanTake, DataLink.Granted;
      hide DataLink.WithinGrants;
      ghost var received := link.peer.received;
      CanTakeGranted(this, index);
      var accepted := link.DeliverToPeer(index, now);
      if accepted {
        if link.sender.emitted[index].frame.StreamData? {
          Receive(index, received);
        } else {
          SenderValid(link);
          JudgedMore(link.sender.emitted, link.sender.nextPacketNumber, received, index, arrivals, refused, false);
        }
      }
    }

    /** The packet has just been recorded, and brings data. */
    method Receive(index: nat, ghost received: set<nat>)
      requires link.Valid() && streams.Valid()
      requires written == link.sender.book.texts && finished == link.sender.book.ended
      requires PeerOk(Reader(), link.sender.book, link.sender.emitted)
      requires Complete(link.sender.book) && Tiles(link.sender.book)
      requires Judged(link.sender.emitted, received, arrivals, refused)
      requires kept ==> refused == {} && WithinGrants(link.sender.book)
      requires index < |link.sender.emitted|
      requires CarriesData(index) && (kept ==> !Refuses(index))
      requires link.peer.received == received + {link.sender.emitted[index].packetNumber}
      modifies this`refused, this`arrivals, streams, set id | id in streams.streams :: streams.streams[id],
        set id | id in streams.streams :: streams.streams[id].recv
      ensures Valid() && streams.streams == old(streams.streams)
      ensures arrivals == old(arrivals + Judgement(index))
      ensures old(Refuses(index)) ==>
        Inboxes(streams.streams) == old(Inboxes(streams.streams)) && streams.connection == old(streams.connection)
    {
      hide PeerOk, Complete, Tiles, ConnectionReceiver.Valid, Runs.AckLink.Valid, Judged, Grants.Within, Inboxes;
      hide Admits, Met, Unmet, Piece, NumbersUsed;
      hide Connection.Valid, TextOf, EndedIn, DataLink.CanTake, CountsOf, DataRecorded, DataLink.WithinGrants;
      var e := link.sender.emitted[index];
      SenderValid(link);
      ghost var taking := CanTake(e.frame);
      JudgedMore(link.sender.emitted, link.sender.nextPacketNumber, received, index, arrivals, refused, taking);
      EmissionPiece(link.sender, index);
      Take(e, index, link.sender.book, link.sender.emitted, link.sender.nextPacketNumber);
    }

    /** The data goes to its stream, and the arrival is noted. */
    method Take(e: Emission, ghost index: nat, ghost b: Book, ghost emitted: seq<Emission>, ghost next: nat)
      requires streams.Valid() && e.frame.StreamData? && NumbersUsed(emitted, next)
      requires index < |emitted| && emitted[index] == e
      requires PeerOk(Reader(), b, emitted)
      requires Piece(PendingData(e.frame.offset, e.frame.data, e.frame.fin, 0), TextOf(b.texts, e.frame.streamId),
          EndedIn(b.ended, e.frame.streamId))
      modifies this`refused, this`arrivals, streams, set id | id in streams.streams :: streams.streams[id],
        set id | id in streams.streams :: streams.streams[id].recv
      ensures streams.Valid() && streams.streams == old(streams.streams)
      ensures arrivals == old(arrivals) + [Arrival(e.packetNumber, old(CanTake(e.frame)))]
      ensures refused == if old(CanTake(e.frame)) then old(refused) else old(refused) + {e.packetNumber}
      ensures PeerOk(Reader(), b, emitted)
      ensures old(WithinGrants(b)) ==> WithinGrants(b)
      ensures !old(CanTake(e.frame)) ==>
        Inboxes(streams.streams) == old(Inboxes(streams.streams)) && streams.connection == old(streams.connection)
    {
      hide PeerOk, ConnectionReceiver.Valid, Inboxes, Piece, TextOf, EndedIn, Grants.Within, NumbersUsed, Met;
      hide Admits;
      ghost var taking := CanTake(e.frame);
      var stored := Store(e.frame, index, b, emitted, next);
      if !stored { refused := refused + {e.packetNumber}; }
      OneMore(arrivals, Arrival(e.packetNumber, taking));
      assert !taking ==> Met(arrivals) + {} == Met(arrivals);
      arrivals := arrivals + [Arrival(e.packetNumber, taking)];
    }

    /** The data of a packet goes to its stream. */
    method Store(f: Frame, ghost index: nat, ghost b: Book, ghost emitted: seq<Emission>, ghost next: nat)
      returns (stored: bool)
      requires streams.Valid() && f.StreamData? && NumbersUsed(emitted, next)
      requires index < |emitted| && emitted[index].frame == f
      requires PeerOk(Reader(), b, emitted)
      requires Piece(PendingData(f.offset, f.data, f.fin, 0), TextOf(b.texts, f.streamId), EndedIn(b.ended, f.streamId))
      modifies streams, set id | id in streams.streams :: streams.streams[id],
        set id | id in streams.streams :: streams.streams[id].recv
      ensures streams.Valid() && streams.streams == old(streams.streams)
      ensures stored <==> old(CanTake(f))
      ensures stored ==> PeerOk(WithMet(Reader(), emitted[index].packetNumber), b, emitted)
      ensures !stored ==> PeerOk(Reader(), b, emitted)
      ensures old(WithinGrants(b)) ==> WithinGrants(b)
      ensures !stored ==>
        Inboxes(streams.streams) == old(Inboxes(streams.streams)) && streams.connection == old(streams.connection)
    {
      hide PeerOk, ConnectionReceiver.Valid, Inboxes, Took, Piece, TextOf, EndedIn, Grants.Within, NumbersUsed, Met;
      hide Admits, CountsOf, BoxOk, NewIn;
      ghost var x, connection := Reader(), streams.connection;
      if f.streamId in streams.streams { BoxFacts(streams, f.streamId); }
      var r := streams.ProcessStreamData(f.streamId, f.offset, f.data, f.fin);
      stored := r.Ok?;
      ghost var now := Inboxes(streams.streams);
      if r.Ok? {
        PacketTaken(x, b, emitted, next, index, now);
        if Grants.Within(x.boxes, connection, streams.maxReceiveBuffer, b) {
          StoredWithin(x.boxes, connection, streams.maxReceiveBuffer, b, now, f, streams.connection);
        }
      }
    }

    /** The peer acknowledges what it has recorded. */
    method Acknowledge(now: nat, delay: nat)
      requires Valid()
      modifies link`acks
      ensures Valid()
      ensures link.acks == old(link.acks) + AckOf(link.peer.ranges, link.peer.largestReceivedAt, now, delay)
    {
      hide PeerOk, Complete, Tiles, ConnectionReceiver.Valid, Runs.AckLink.Valid, Inboxes, Judged, Grants.Within;
      link.PeerAcknowledges(now, delay);
    }

    /** An acknowledgement arrives at the sender. */
    method DeliverAck(index: nat) returns (r: Done)
      requires Valid()
      modifies link.sender`sent, link.sender`congestion, link.sender`book, link.sender`expired,
        link.sender`pendingFrames, link.sender`queues,
        link.sender.timers.wheel, link.sender.timers.wheel.tasks, link.sender.timers.wheel.heap
      ensures r.Ok? ==> Valid()
      ensures index < |link.acks| ==>
        var ranges, threshold := link.acks[index].ranges, link.sender.settings.fastLossThreshold;
        && (r.Err? <==> AnyLimited(old(link.sender.sent), OvertakenBy(old(link.sender.sent), ranges, threshold),
                         link.sender.settings))
        && (r.Ok? ==> AckApplied(old(link.sender.sent), old(link.sender.Waiting()), ranges, threshold,
                        link.sender.sent, link.sender.Waiting()))
    {
      hide PeerOk, Complete, Tiles, ConnectionReceiver.Valid, Runs.AckLink.Valid, Inboxes, Judged, Grants.Within;
      hide AckApplied, AnyLimited, OvertakenBy, Met;
      ghost var b := link.sender.book;
      r := link.DeliverAck(index);
      if r.Ok? { StillOk(Reader(), b, link.sender.book, link.sender.emitted, this); }
    }

    /** A stream is opened at the peer. */
    method OpenAtPeer(id: StreamId, window: u64, parity: nat) returns (r: Result<(), CoreError>)
      requires Valid() && (kept ==> Granted(Step.OpenAtPeer(id, window, parity)))
      modifies this`taken, streams
      ensures Valid()
      ensures forall k :: k in streams.streams && k !in old(streams.streams) ==>
        && fresh(streams.streams[k]) && fresh(streams.streams[k].recv)
      ensures forall k :: k in old(streams.streams) ==>
        && k in streams.streams && streams.streams[k] == old(streams.streams)[k]
      ensures id !in old(streams.streams) && id % 2 == parity ==>
        && Inboxes(streams.streams) == old(Inboxes(streams.streams))[id := EmptyInbox(window)]
        && taken == old(taken)[id := []]
    {
      hide PeerOk, Complete, Tiles, ConnectionReceiver.Valid, Runs.AckLink.Valid, Inboxes, Judged, Grants.Within, Met;
      hide CountsOf, DataLink.Granted;
      ghost var x := Reader();
      var known := id in streams.streams;
      if !known && id % 2 == parity {
        StreamOpened(x, link.sender.book, link.sender.emitted, id, window);
        OpenGranted(this, id, window, parity);
      }
      r := streams.OpenStream(id, window, parity);
      if !known && r.Ok? { taken := taken[id := []]; }
    }

    /** A read at the peer. */
    method Read(id: StreamId, maxLen: nat)
      requires Valid()
      modifies this`taken, this`ended, streams, set k | k in streams.streams :: streams.streams[k],
        set k | k in streams.streams :: streams.streams[k].recv
      ensures Valid() && streams.streams == old(streams.streams)
    {
      hide PeerOk, Complete, Tiles, ConnectionReceiver.Valid, Runs.AckLink.Valid, Inboxes, Judged, Grants.Within, Met;
      Fetch(id, maxLen, link.sender.book, link.sender.emitted);
    }

    method Fetch(id: StreamId, maxLen: nat, ghost b: Book, ghost emitted: seq<Emission>)
      requires streams.Valid() && PeerOk(Reader(), b, emitted)
      modifies this`taken, this`ended, streams, set k | k in streams.streams :: streams.streams[k],
        set k | k in streams.streams :: streams.streams[k].recv
      ensures streams.Valid() && streams.streams == old(streams.streams)
      ensures PeerOk(Reader(), b, emitted)
      ensures old(WithinGrants(b)) ==> WithinGrants(b)
    {
      hide PeerOk, ConnectionReceiver.Valid, Inboxes, WasRead, Consume, Grants.Within, Met, CountsOf, BoxOk;
      ghost var x, connection := Reader(), streams.connection;
      if id in streams.streams { BoxFacts(streams, id); }
      var r, update := streams.ReadStream(id, maxLen);
      if r.Ok? {
        ghost var now := Inboxes(streams.streams);
        DataRead(x, b, emitted, id, now[id], r.value.0, r.value.1);
        if Grants.Within(x.boxes, connection, streams.maxReceiveBuffer, b) {
          Grants.ReadWithin(x.boxes, connection, streams.maxReceiveBuffer, b, id, now[id], r.value.0, r.value.1);
        }
        taken := taken[id := taken[id] + r.value.0];
        if r.value.1 { ended := ended + {id}; }
      }
    }

    /** A stream is reset at the peer. */
    method ResetAtPeer(id: StreamId, errorCode: nat)
      requires Valid()
      modifies set k | k in streams.streams :: streams.streams[k]
      ensures Valid()
    {
      hide PeerOk, Complete, Tiles, ConnectionReceiver.Valid, Runs.AckLink.Valid, Inboxes, Judged, Grants.Within, Met;
      ghost var x := Reader();
      var r := streams.ResetStream(id, errorCode);
      if r.Ok? {
        StreamWasReset(x, link.sender.book, link.sender.emitted, id, errorCode);
        if kept {
          Grants.ResetWithin(x.boxes, streams.connection, streams.maxReceiveBuffer, link.sender.book, id, errorCode);
        }
      }
    }
  }

  // ---- What the steps need ----

  lemma WindowIs(streams: ConnectionReceiver, id: StreamId)
    requires streams.Valid() && id in streams.streams
    ensures WindowEnd(Inboxes(streams.streams)[id]) == streams.streams[id].recv.maxOffset
  {
    var stream := streams.streams[id];
    assert stream.Fits(stream.recv.Accepted(), streams.maxReceiveBuffer);
    stream.WindowFacts();
  }

  lemma StoredWithin(boxes: Boxes, connection: ReceiveFlow, limit: nat, b: Book, now: Boxes, f: Frame,
          after: ReceiveFlow)
    requires Grants.Within(boxes, connection, limit, b) && f.StreamData? && f.streamId in boxes && f.streamId in now
    requires BoxOk(boxes[f.streamId])
    requires if boxes[f.streamId].state == Open
      then Took(boxes[f.streamId], now[f.streamId], f.offset, f.data, f.fin)
          && now == boxes[f.streamId as nat := now[f.streamId]]
      else now == boxes
    requires after.maxOffset == connection.maxOffset && after.advertisedOffset == connection.advertisedOffset
    ensures Grants.Within(now, after, limit, b)
  {
    if boxes[f.streamId].state == Open {
      Grants.TookWithin(boxes, connection, limit, b, f.streamId, now[f.streamId], f, after);
    }
    hide Took, BoxOk, WindowEnd;
  }

  lemma Initially(emitted: seq<Emission>, granted: nat)
    ensures PeerOk(Peer(map[], map[], {}, Met([])), EmptyBook(granted), emitted)
    ensures Complete(EmptyBook(granted)) && Tiles(EmptyBook(granted)) && Judged(emitted, {}, [], {})
  {
  }

  lemma SenderValid(link: Runs.AckLink)
    requires link.Valid()
    ensures link.sender.Valid() && NumbersUsed(link.sender.emitted, link.sender.nextPacketNumber)
  {
    hide NumbersUsed, Sound, LogOk;
  }

  lemma EmissionPiece(sender: Connection, index: nat)
    requires sender.Valid() && index < |sender.emitted| && sender.emitted[index].frame.StreamData?
    ensures var f := sender.emitted[index].frame;
      Piece(PendingData(f.offset, f.data, f.fin, 0), TextOf(sender.book.texts, f.streamId),
          EndedIn(sender.book.ended, f.streamId))
  {
    hide Sound, LogOk, NumbersUsed, Piece, TextOf, EndedIn, TimerState.Valid;
    FramePiece(sender.Bounded(), sender.View(), sender.emitted, sender.emitted[index]);
  }

  lemma ReceivedEmitted(link: Runs.AckLink)
    requires link.Valid()
    ensures link.peer != link.sender.received
    ensures forall n :: n in link.peer.received ==> Runs.Emitted(link.sender.emitted, n)
  {
    hide Connection.Valid;
  }

  lemma MetRecorded(emitted: seq<Emission>, received: set<nat>, arrivals: seq<Arrival>, refused: set<nat>)
    requires Judged(emitted, received, arrivals, refused)
    ensures Met(arrivals) <= received
  {
    hide Met, Unmet;
    assert DataRecorded(emitted, received) <= received;
  }

  /** Sending more changes nothing at the peer. */
  lemma SenderMoved(link: Runs.AckLink, b: Book, log: seq<Emission>, x: Peer, arrivals: seq<Arrival>,
          refused: set<nat>)
    requires link.Valid() && log <= link.sender.emitted && PeerOk(x, b, log) && x.met == Met(arrivals)
    requires Judged(log, link.peer.received, arrivals, refused) && AllFollow(x, link.sender.book)
    requires forall n :: n in link.peer.received ==> Runs.Emitted(log, n)
    ensures PeerOk(x, link.sender.book, link.sender.emitted)
    ensures Judged(link.sender.emitted, link.peer.received, arrivals, refused)
  {
    hide Runs.AckLink.Valid, AllFollow, AllArrived, AllCaused, NumbersUsed, Met, Unmet, DataRecorded, Runs.Emitted;
    SenderValid(link);
    MetRecorded(log, link.peer.received, arrivals, refused);
    SentLater(x, b, log, link.sender.emitted, link.sender.nextPacketNumber);
    RecordedLater(log, link.sender.emitted, link.sender.nextPacketNumber, link.peer.received);
  }

  lemma StillOk(x: Peer, b: Book, c: Book, emitted: seq<Emission>, data: DataLink)
    requires PeerOk(x, b, emitted) && Complete(b) && Tiles(b) && Still(b, c)
    ensures PeerOk(x, c, emitted) && Complete(c) && Tiles(c)
    ensures data.WithinGrants(b) ==> data.WithinGrants(c)
  {
    CompleteSame(b, c);
    AllFollowSame(x, b, c);
    hide AllFollow, AllArrived, AllCaused, Complete, Tiles;
  }

  /** Whatever the sender does next, its book still fits what the peer has. */
  lemma AnyStepKeeps(data: DataLink, act: Runs.Action)
    requires data.Valid() && (data.kept ==> data.Granted(Transport(act)))
    ensures forall c :: Still(Runs.BookAfter(data.link.sender, act), c) ==>
      && AllFollow(data.Reader(), c) && Complete(c) && Tiles(c) && (data.kept ==> data.WithinGrants(c))
      && c.texts == WrittenTexts(data.link.sender, act, data.link.sender.book.texts)
      && c.ended == EndedTexts(data.link.sender, act, data.link.sender.book.ended)
  {
    hide AllFollow, AllArrived, AllCaused, Complete, Tiles, Runs.AckLink.Valid, Connection.Valid, Runs.BookAfter;
    hide Still, WrittenTexts, EndedTexts, ConnectionReceiver.Valid, Inboxes, Judged, Met, Grants.Within;
    SenderValid(data.link);
    var sender := data.link.sender;
    forall c | Still(Runs.BookAfter(sender, act), c)
      ensures AllFollow(data.Reader(), c) && Complete(c) && Tiles(c) && (data.kept ==> data.WithinGrants(c))
      ensures c.texts == WrittenTexts(sender, act, sender.book.texts)
      ensures c.ended == EndedTexts(sender, act, sender.book.ended)
    {
      SenderStepKeeps(sender, act, data.Reader(), c);
      if data.kept { BookWithin(data, act, c); }
    }
  }

  lemma WindowsOf(sender: Connection)
    requires sender.Valid()
    ensures sender.book.windows.Keys == sender.queues.Keys && sender.flow.maxOffset == sender.book.granted
    ensures forall id :: id in sender.queues ==> sender.book.windows[id] == sender.queues[id].maxOffset
  {
    hide QueuesOk, FlightsOk, BookOk, BytesOk, WindowOk, TimersOk, LogOk, LedgerOk, NumbersUsed, TimerState.Valid;
  }

  lemma BookWithin(data: DataLink, act: Runs.Action, c: Book)
    requires data.link.sender.Valid() && data.WithinGrants(data.link.sender.book) && data.Granted(Transport(act))
    requires Still(Runs.BookAfter(data.link.sender, act), c)
    ensures data.WithinGrants(c)
  {
    hide Inboxes, Connection.Valid, Registered, Runs.CutAt, Runs.Takes, WindowEnd;
    WindowsOf(data.link.sender);
    WrittenWindows(data.link.sender, act);
    OnlyWrites(data.link.sender, act);
  }

  lemma OnlyWrites(sender: Connection, act: Runs.Action)
    ensures Runs.Takes(sender, act) ==> act.Write?
  {
  }

  lemma WrittenWindows(sender: Connection, act: Runs.Action)
    ensures act.Write? ==>
      var c := Written(sender.book, act.id, act.data, act.fin, Runs.CutAt(sender, act.id, act.data, act.fin));
      c.windows == sender.book.windows && c.granted == sender.book.granted
  {
    if act.Write? { SameWindows(sender.book, act.id, Runs.CutAt(sender, act.id, act.data, act.fin)); }
  }

  lemma {:induction false} SameWindows(b: Book, id: u64, items: seq<PendingData>)
    ensures Registered(b, id, items).windows == b.windows && Registered(b, id, items).granted == b.granted
  {
    if |items| > 0 { SameWindows(b, id, items[..|items| - 1]); }
  }

  lemma OpenGranted(data: DataLink, id: StreamId, window: u64, parity: nat)
    requires data.Valid() && (data.kept ==> data.Granted(Step.OpenAtPeer(id, window, parity)))
    requires id !in data.streams.streams
    ensures data.kept ==> Grants.Within(Inboxes(data.streams.streams)[id := EmptyInbox(window)],
      data.streams.connection, data.streams.maxReceiveBuffer, data.link.sender.book)
  {
    hide Connection.Valid, ConnectionReceiver.Valid, PeerOk, Complete, Tiles, Judged, Grants.Within, Inboxes;
    SenderValid(data.link);
    WindowsOf(data.link.sender);
    if data.kept {
      Grants.OpenedWithin(Inboxes(data.streams.streams), data.streams.connection, data.streams.maxReceiveBuffer,
        data.link.sender.book, id, window);
    }
  }

  /** As long as the sender keeps to the grants, whatever arrives can be taken. */
  lemma CanTakeGranted(data: DataLink, index: nat)
    requires data.Valid() && (data.kept ==> data.Granted(Transport(Runs.DeliverToPeer(index))))
    ensures data.kept && data.Records(index) ==> !data.Refuses(index)
  {
    hide PeerOk, Complete, Tiles, Judged, Grants.Within, Inboxes, Admits, Covers, ConnectionReceiver.Valid;
    hide Sound, LogOk, FlowOk, CountsOf, Sums.Sum, BoxOk;
    if data.kept && data.Records(index) && data.CarriesData(index) {
      SenderValid(data.link);
      var sender := data.link.sender;
      var counts := CountsOf(data.streams.streams);
      CountsFacts(data.streams);
      SenderFacts(sender);
      Grants.GrantedAdmits(data.Reader(), sender.Bounded(), sender.View(), sender.emitted, sender.flow,
        data.streams.connection, data.streams.maxReceiveBuffer, counts, sender.emitted[index]);
    }
  }

  lemma SenderFacts(sender: Connection)
    requires sender.Valid()
    ensures Sound(sender.Bounded(), sender.View(), None) && LogOk(sender.emitted, sender.book)
    ensures FlowOk(sender.book, sender.flow)
  {
    hide Sound, LogOk, FlowOk, LedgerOk, TimerState.Valid, NumbersUsed;
  }

  lemma CountsFacts(streams: ConnectionReceiver)
    requires streams.Valid()
    ensures Grants.CountsIn(Inboxes(streams.streams), CountsOf(streams.streams))
    ensures streams.connection.uniqueReceived == Sums.Sum<StreamId>(CountsOf(streams.streams))
  {
    forall id | id in streams.streams
      ensures BoxOk(Inboxes(streams.streams)[id])
      ensures var box := Inboxes(streams.streams)[id];
        CountsOf(streams.streams)[id] == |box.passed| + Segments.TotalLength(box.segments)
    {
      BoxFacts(streams, id);
    }
    hide BoxOk, AllFit, Filed;
  }

  /** One more packet is on record, and has been judged. */
  lemma JudgedMore(emitted: seq<Emission>, next: nat, received: set<nat>, index: nat, arrivals: seq<Arrival>,
          refused: set<nat>, taking: bool)
    requires NumbersUsed(emitted, next) && index < |emitted| && Judged(emitted, received, arrivals, refused)
    ensures var e, more := emitted[index], received + {emitted[index].packetNumber};
      if e.frame.StreamData?
      then Judged(emitted, more, arrivals + [Arrival(e.packetNumber, taking)],
             if taking then refused else refused + {e.packetNumber})
      else Judged(emitted, more, arrivals, refused)
  {
    hide NumbersUsed, Met, Unmet, DataRecorded;
    var e := emitted[index];
    RecordedMore(emitted, next, received, index);
    OneMore(arrivals, Arrival(e.packetNumber, taking));
  }

  // ---- Conclusions ----

  ghost predicate AllAcked(b: Book)
  {
    forall t :: t in b.chunks ==> t in b.place && b.place[t] == Acknowledged
  }

  lemma FlushedAcked(sender: Connection)
    requires Sound(sender.Bounded(), sender.View(), None) && sender.Flushed()
    ensures AllAcked(sender.book)
  {
    hide Sound;
    FlushedMeansAcked(sender.Bounded(), sender.View());
  }

  lemma LinkFacts(link: Runs.AckLink)
    requires link.Valid()
    ensures Sound(link.sender.Bounded(), link.sender.View(), None)
    ensures Truthful(link.sender.emitted, link.sender.book) && ChunksOfTexts(link.sender.book)
    ensures Runs.AckedCarried(link.sender.book, link.sender.emitted, link.peer.received)
  {
    hide QueuesOk, FlightsOk, BookOk, BytesOk, WindowOk, TimersOk, ChunkOf, LedgerOk, FlowOk;
    hide Truthful, EmissionsFit, Counted, FlightsLogged, NumbersUsed, TimerState.Valid, Runs.AckedCarried, Runs.Honest;
  }

  /** Acknowledged chunks went out in packets that could be taken, if all on record could. */
  lemma AckedBrought(b: Book, emitted: seq<Emission>, received: set<nat>, met: set<nat>, id: u64)
    requires AllAcked(b) && Runs.AckedCarried(b, emitted, received) && DataRecorded(emitted, received) <= met
    ensures ChunksBrought(b, emitted, met, id)
  {
    forall t | t in b.chunks && t.stream == id ensures ChunkBrought(emitted, met, t) {
      var pn :| pn in received && Carried(emitted, pn, t);
      var e :| e in emitted && e.packetNumber == pn && HandOf(e.frame) == Some(t);
      var i :| 0 <= i < |emitted| && emitted[i] == e;
      assert pn in DataRecorded(emitted, received);
    }
  }

  /** What holds in every state of every run, for each stream written to. */
  lemma RunDelivered(data: DataLink)
    requires data.Valid()
    ensures InOrder(data.written, data.finished, data.taken, data.ended)
    // Nothing was refused exactly if every data packet could be taken when it was recorded,
    ensures data.refused == {} <==> AllAdmitted(data.arrivals)
    // as in any run that keeps to what the peer granted.
    ensures data.kept ==> data.refused == {}
    // A stream is delivered exactly if each of its chunks went out in such a packet;
    ensures forall id :: id in data.written && !ResetAt(data.Reader(), id) ==>
      (DeliveredAll(data.Reader(), data.written, data.finished, id)
       <==> ChunksBrought(data.link.sender.book, data.link.sender.emitted, Met(data.arrivals), id))
    // once the sender is reliably flushed, each did, unless a packet was refused.
    ensures data.link.sender.Flushed() && data.refused == {} ==> forall id :: id in data.written ==>
      DeliveredAll(data.Reader(), data.written, data.finished, id)
  {
    hide PeerOk, Complete, Tiles, ConnectionReceiver.Valid, Runs.AckLink.Valid, Judged, Grants.Within;
    hide Inboxes, AllAcked, Truthful, Runs.AckedCarried, ChunksOfTexts, BoxOk, Met, DataRecorded, AllAdmitted;
    hide InOrder, DeliveredAll, ChunksBrought, Sound, Connection.Flushed;
    var x, b, emitted := data.Reader(), data.link.sender.book, data.link.sender.emitted;
    FollowInOrderOf(x, b, emitted);
    NoneRefused(emitted, data.link.peer.received, data.arrivals, data.refused);
    LinkFacts(data.link);
    forall id | id in data.streams.streams ensures BoxOk(x.boxes[id]) { BoxFacts(data.streams, id); }
    forall id | id in data.written && !ResetAt(x, id)
      ensures DeliveredAll(x, b.texts, b.ended, id) <==> ChunksBrought(b, emitted, x.met, id)
    {
      DeliveredIff(x, b, emitted, id);
    }
    if data.link.sender.Flushed() && data.refused == {} {
      FlushedAcked(data.link.sender);
      forall id | id in data.written ensures DeliveredAll(x, data.written, data.finished, id) {
        AckedBrought(b, emitted, data.link.peer.received, x.met, id);
        StreamDelivered(x, b, emitted, id);
      }
    }
  }

  predicate ResetAt(x: Peer, id: u64)
  {
    id in x.boxes && x.boxes[id].state.Reset?
  }

  lemma FollowInOrderOf(x: Peer, b: Book, emitted: seq<Emission>)
    requires PeerOk(x, b, emitted)
    ensures InOrder(b.texts, b.ended, x.taken, x.ended)
  {
    hide AllFollow, AllArrived, AllCaused;
    FollowInOrder(x, b);
  }

  /** One step of either side. */
  method OneStep(data: DataLink, step: Step, now: nat) returns (r: Done)
    requires data.Valid()
    modifies data, data.link, data.link.peer, data.link.sender, data.link.sender.received, data.link.sender.timers,
      data.link.sender.timers.wheel, data.link.sender.timers.wheel.tasks, data.link.sender.timers.wheel.heap,
      data.streams, set id | id in data.streams.streams :: data.streams.streams[id],
      set id | id in data.streams.streams :: data.streams.streams[id].recv
    ensures r.Ok? ==> data.Valid()
    ensures data.kept == (old(data.kept) && old(data.Granted(step)))
    ensures forall k :: k in data.streams.streams && k !in old(data.streams.streams) ==>
      fresh(data.streams.streams[k]) && fresh(data.streams.streams[k].recv)
    ensures forall k :: k in old(data.streams.streams) && k in data.streams.streams ==>
      data.streams.streams[k] == old(data.streams.streams)[k]
  {
    hide DataLink.Valid, DataLink.Granted, Runs.Acts, Runs.LookAt, AckApplied, AnyLimited, OvertakenBy, AckOf, Inboxes;
    hide DataLink.Judgement, DataLink.Records, DataLink.Refuses, Keeps, WrittenTexts, EndedTexts;
    data.Weigh(step);
    match step {
      case Transport(DeliverToPeer(index)) => data.Deliver(index, now);
      case Transport(PeerAcknowledges(delay)) => data.Acknowledge(now, delay);
      case Transport(DeliverAck(index)) => r := data.DeliverAck(index); return;
      case Transport(act) => r := data.SenderStep(act, now); return;
      case OpenAtPeer(id, window, parity) => var known := data.OpenAtPeer(id, window, parity);
      case Read(id, maxLen) => data.Read(id, maxLen);
      case ResetAtPeer(id, errorCode) => data.ResetAtPeer(id, errorCode);
    }
    r := Ok(true);
  }

  /** Any run whatsoever, up to the first error of a call at the sender: reads return what was
      written, in order and without gaps, and report the end only at the end. A stream is
      delivered exactly if each of its chunks went out in a packet that the peer could take when
      it recorded it. In a run that keeps to what the peer granted the peer can take every packet,
      and once the sender is reliably flushed, everything written has been delivered. */
  method RunData(link: Runs.AckLink, script: seq<Step>, connectionWindow: nat, maxReceiveBuffer: nat)
    returns (data: DataLink, failed: Option<TransportError>)
    requires link.Valid() && link.sender.book == EmptyBook(link.sender.book.granted) && link.peer.received == {}
    modifies link, link.peer, link.sender, link.sender.received, link.sender.timers,
      link.sender.timers.wheel, link.sender.timers.wheel.tasks, link.sender.timers.wheel.heap
    ensures data.link == link
    ensures failed.None? ==> InOrder(data.written, data.finished, data.taken, data.ended)
    ensures failed.None? ==> (data.refused == {} <==> AllAdmitted(data.arrivals)) && (data.kept ==> data.refused == {})
    ensures failed.None? ==> forall id :: id in data.written && !ResetAt(data.Reader(), id) ==>
      (DeliveredAll(data.Reader(), data.written, data.finished, id)
       <==> ChunksBrought(link.sender.book, link.sender.emitted, Met(data.arrivals), id))
    ensures failed.None? && link.sender.Flushed() && data.refused == {} ==> forall id :: id in data.written ==>
      DeliveredAll(data.Reader(), data.written, data.finished, id)
  {
    hide DataLink.Valid, Runs.AckLink.Valid, ConnectionReceiver.Valid, InOrder, DataLink.Granted, AllAdmitted, Met;
    hide DeliveredAll, ChunksBrought, Inboxes, Connection.Flushed;
    var streams := new ConnectionReceiver(connectionWindow, maxReceiveBuffer);
    data := new DataLink(link, streams);
    var now: nat := 0;
    for i := 0 to |script|
      invariant data.Valid() && data.link == link && data.streams == streams && fresh(data) && fresh(streams)
      invariant forall k :: k in streams.streams ==> fresh(streams.streams[k]) && fresh(streams.streams[k].recv)
    {
      if script[i].Transport? && script[i].act.Advance? { now := now + script[i].act.elapsed; }
      var done := OneStep(data, script[i], now);
      if done.Err? { return data, Some(done.error); }
    }
    RunDelivered(data);
    failed := None;
  }

  /** A run in which every step is checked first, and is taken only if it keeps to what the peer
      granted: nothing is refused, and once the sender is reliably flushed, everything written to
      any stream has been delivered. */
  method RunGranted(link: Runs.AckLink, script: seq<Step>, connectionWindow: nat, maxReceiveBuffer: nat)
    returns (data: DataLink, failed: Option<TransportError>)
    requires link.Valid() && link.sender.book == EmptyBook(link.sender.book.granted) && link.peer.received == {}
    requires link.sender.flow.maxOffset <= connectionWindow
    modifies link, link.peer, link.sender, link.sender.received, link.sender.timers,
      link.sender.timers.wheel, link.sender.timers.wheel.tasks, link.sender.timers.wheel.heap
    ensures data.link == link
    ensures failed.None? ==>
      data.refused == {} && InOrder(data.written, data.finished, data.taken, data.ended)
    ensures failed.None? && link.sender.Flushed() ==> forall id :: id in data.written ==>
      DeliveredAll(data.Reader(), data.written, data.finished, id)
  {
    hide DataLink.Valid, Runs.AckLink.Valid, ConnectionReceiver.Valid, InOrder, DataLink.Granted, AllAdmitted, Met;
    hide DeliveredAll, ChunksBrought, Inboxes, Connection.Flushed;
    GrantedFirst(link);
    var streams := new ConnectionReceiver(connectionWindow, maxReceiveBuffer);
    data := new DataLink(link, streams);
    var now: nat := 0;
    for i := 0 to |script|
      invariant data.Valid() && data.link == link && data.streams == streams && fresh(data) && fresh(streams)
      invariant data.kept
      invariant forall k :: k in streams.streams ==> fresh(streams.streams[k]) && fresh(streams.streams[k].recv)
    {
      var granted := data.Check(script[i]);
      if granted {
        if script[i].Transport? && script[i].act.Advance? { now := now + script[i].act.elapsed; }
        var done := OneStep(data, script[i], now);
        if done.Err? { return data, Some(done.error); }
      }
    }
    RunDelivered(data);
    failed := None;
  }

  lemma GrantedFirst(link: Runs.AckLink)
    requires link.Valid()
    ensures link.sender.flow.maxOffset == link.sender.book.granted
  {
    SenderValid(link);
    WindowsOf(link.sender);
  }
}
