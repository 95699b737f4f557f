/** A sender and its peer over a network that loses, duplicates and reorders packets and
    acknowledgements: what holds in every run until the first error. */
module TransportRuns {
  import opened Wrappers
  import opened Bytes
  import Sums
  import opened Varint
  import opened AckRanges
  import opened Frames
  import Packets
  import opened SendStream
  import opened Timers
  import TimerModel
  import opened TransportModel
  import opened Ledger
  import opened Transport

  /** Whether packets are encrypted by now, and the timeouts the RTT estimate gives at the time,
      come with each step. */
  datatype Action =
    | StartTimers
    | Establish
    | OpenStream(id: u64, window: nat)
    | QueueControl(frame: Frame)
    | Write(id: u64, data: seq<byte>, fin: bool)
    | ShutStream(id: u64)
    | WidenStream(id: u64, maxOffset: nat)
    | WidenConnection(maxOffset: nat)
    | PacketArrives(number: u64, eliciting: bool, encrypt: bool, rto: nat)
    | CloseConnection(errorCode: u32, encrypt: bool, rto: nat)
    | Flush(encrypt: bool, rto: nat)
    | Advance(elapsed: nat, encrypt: bool, rtos: nat -> nat)
    | DeliverToPeer(index: nat)
    | PeerAcknowledges(delay: nat)
    | DeliverAck(index: nat)

  /** An acknowledgement by a peer that recorded everything it acknowledges. */
  ghost predicate Honest(ack: AckFrame, received: set<nat>)
  {
    FrameOk(ack) && ack.largest in received && forall n: nat :: AckCovers(ack.ranges, n) ==> n in received
  }

  /** Every acknowledged chunk went out in a packet that the peer recorded. */
  ghost predicate AckedCarried(b: Book, emitted: seq<Emission>, received: set<nat>)
  {
    forall t :: t in b.place && b.place[t].Acknowledged? ==> exists pn :: pn in received && Carried(emitted, pn, t)
  }

  lemma CarriedGrows(b: Book, emitted: seq<Emission>, received: set<nat>, c: Book, later: seq<Emission>, more: set<nat>)
    requires AckedCarried(b, emitted, received) && emitted <= later && NoneAcked(b, c) && received <= more
    ensures AckedCarried(c, later, more)
  {
    forall t | t in c.place && c.place[t].Acknowledged? ensures exists pn :: pn in more && Carried(later, pn, t) {
      var pn :| pn in received && Carried(emitted, pn, t);
      var e :| e in emitted && e.packetNumber == pn && HandOf(e.frame) == Some(t);
      assert e in later;
      assert Carried(later, pn, t);
    }
  }

  lemma CarriedByAck(was: Book, emitted: seq<Emission>, received: set<nat>, now: Book, ack: AckFrame)
    requires AckedCarried(was, emitted, received) && FlightsLogged(emitted, was)
    requires Settles(was, now, ack.ranges) && Honest(ack, received)
    ensures AckedCarried(now, emitted, received) && Still(was, now)
  {
    forall t | t in now.place && now.place[t].Acknowledged?
      ensures exists pn :: pn in received && Carried(emitted, pn, t)
    {
      if !was.place[t].Acknowledged? {
        assert AckCovers(ack.ranges, was.place[t].packetNumber);
        assert Carried(emitted, was.place[t].packetNumber, t);
      }
    }
  }

  /** Honest acknowledgements stay so as the peer records more. */
  lemma HonestStays(acks: seq<AckFrame>, received: set<nat>, more: set<nat>)
    requires received <= more && forall a :: a in acks ==> Honest(a, received)
    ensures forall a :: a in acks ==> Honest(a, more)
  {
    forall a | a in acks ensures Honest(a, more) { assert Honest(a, received); }
  }

  /** What the peer's record puts in a frame is honest. */
  lemma FrameHonest(ranges: seq<AckRange>, received: set<nat>, floor: nat, ack: AckFrame)
    requires Remembers(ranges, received, floor) && |ranges| > 0
    requires ack.ranges == ranges && ack.largest == ranges[0].end && FrameOk(ack)
    ensures Honest(ack, received)
  {
    RemembersFacts(ranges, received, floor, ranges[0].end);
    forall n: nat | AckCovers(ack.ranges, n) ensures n in received {
      assert Covers(ranges, n);
    }
  }

  // ---- What a step of the sender does ----

  /** What the steps of the sender change, timers and the book aside. */
  datatype Look = Look(state: ConnectionState, shut: set<u64>, ackDue: bool, mail: Mail, clock: TimerModel.Clock)

  ghost function LookAt(sender: Connection): Look
    reads sender, sender.timers, sender.timers.wheel
  {
    Look(sender.state, sender.shut, sender.ackPending && sender.ackReady, sender.Outgoing(), sender.timers.wheel.Now())
  }

  function WithQueue(l: Look, id: u64, q: SendQueue): Look
  {
    l.(mail := l.mail.(box := l.mail.box.(queues := l.mail.box.queues[id := q])))
  }

  /** Frames are sent in turn until none may go, or until one fails. */
  ghost predicate Flushes(was: Look, now: Look, frames: seq<QueuedFrame>, w: Wire, rto: nat, ok: bool)
  {
    var mail := AllPosted(was.mail, frames, w);
    && InTurn(was.mail, frames, w)
    && (if ok then Stopped(mail, w) && Restored(mail, now.mail) && now == was.(mail := now.mail)
        else Stuck(mail, w, was.clock, rto))
  }

  /** Exactly what a step does that sends no acknowledgement and handles no timer. */
  ghost predicate Acts(act: Action, settings: Settings, was: Look, now: Look, ok: bool)
  {
    var queues := was.mail.box.queues;
    match act
    case Establish => ok && now == if was.state == Idle then was.(state := Established) else was
    case OpenStream(id, window) =>
      ok && now == if id in queues then was else WithQueue(was, id, SendQueue(window, 0, 0, false, false, []))
    case Write(id, data, fin) =>
      && ok
      && now == if id <= MAX_VALUE && id in queues && queues[id].nextOffset + |data| <= MAX_VALUE
           && WriteAnswer(was.state, was.shut, queues, id, |data|, settings.maxSendBuffer).Ok?
         then WithQueue(was, id, Lengthened(queues[id], data, fin, Packets.ChunkLimit(settings.maxDatagramSize)))
         else was
    case ShutStream(id) => ok && now == was.(shut := was.shut + {id})
    case WidenStream(id, maxOffset) => ok && now == if id !in queues then was
      else WithQueue(was, id, queues[id].(maxOffset := Max(queues[id].maxOffset, maxOffset)))
    case WidenConnection(maxOffset) =>
      ok && now == was.(mail := was.mail.(flow := was.mail.flow.(maxOffset := Max(was.mail.flow.maxOffset, maxOffset))))
    case Flush(encrypt, rto) => was.ackDue ||
      exists frames :: Flushes(was, now, frames, Wire(was.state, encrypt, settings.maxDatagramSize), rto, ok)
    case _ => true
  }

  class AckLink {
    const sender: Connection
    const peer: ReceivedPackets
    var acks: seq<AckFrame>

    ghost predicate Valid()
      reads this, sender, sender.received, sender.timers, sender.timers.wheel, sender.timers.wheel.tasks,
        sender.timers.wheel.heap, peer
    {
      && sender.Valid() && sender.received.Valid() && peer.Valid() && peer != sender.received
      && (sender.state == Closed || sender.expired == {})
      && (forall n :: n in peer.received ==> Emitted(sender.emitted, n))
      && (forall a :: a in acks ==> Honest(a, peer.received))
      && AckedCarried(sender.book, sender.emitted, peer.received)
    }

    constructor (sender: Connection, peer: ReceivedPackets)
      requires sender.Valid() && sender.received.Valid() && peer.Valid()
      requires peer != sender.received && peer.received == {}
      requires sender.book == EmptyBook(sender.book.granted) && sender.expired == {}
      ensures Valid() && this.sender == sender && this.peer == peer && acks == []
    {
      this.sender, this.peer, acks := sender, peer, [];
    }

    /** The network hands the peer any packet ever emitted. */
    method DeliverToPeer(index: nat, now: nat) returns (accepted: bool)
      requires Valid()
      modifies peer
      ensures Valid()
      ensures accepted ==>
        && index < |sender.emitted| && peer.received == old(peer.received) + {sender.emitted[index].packetNumber}
      ensures !accepted ==> peer.received == old(peer.received) && peer.ranges == old(peer.ranges)
      ensures accepted <==>
        index < |sender.emitted| && !old(Covers(peer.ranges, sender.emitted[index].packetNumber))
      ensures accepted ==>
        Keeps(old(peer.ranges), old(peer.floor), peer.ranges, peer.floor, sender.emitted[index].packetNumber)
    {
      hide Connection.Valid, Remembers, AckedCarried, Honest;
      if index >= |sender.emitted| { return false; }
      ghost var before := peer.received;
      var number := sender.emitted[index].packetNumber;
      assert Emitted(sender.emitted, number) by { assert sender.emitted[index] in sender.emitted; }
      RemembersFacts(peer.ranges, peer.received, peer.floor, number);
      accepted := peer.Record(number, now);
      HonestStays(acks, before, peer.received);
      CarriedGrows(sender.book, sender.emitted, before, sender.book, sender.emitted, peer.received);
    }

    method PeerAcknowledges(now: nat, delay: nat)
      requires Valid()
      modifies this`acks
      ensures Valid()
      ensures acks == old(acks) + AckOf(peer.ranges, peer.largestReceivedAt, now, delay)
    {
      hide Connection.Valid, AckedCarried, Honest;
      var frame := peer.Frame(now, delay);
      hide Remembers;
      if frame.Ok? && frame.value.Some? {
        FrameHonest(peer.ranges, peer.received, peer.floor, frame.value.value);
        acks := acks + [frame.value.value];
      }
    }

    /** The network hands the sender any acknowledgement ever made: it is never taken for one of
        an unsent packet. */
    method DeliverAck(index: nat) returns (r: Done)
      requires Valid()
      modifies sender`sent, sender`congestion, sender`book, sender`expired, sender`pendingFrames, sender`queues,
        sender.timers.wheel, sender.timers.wheel.tasks, sender.timers.wheel.heap
      ensures r.Ok? ==> Valid() && Still(old(sender.book), sender.book)
      ensures r != Err(AckForUnsentPacket)
      ensures if index >= |acks|
          then r.Ok? && sender.sent == old(sender.sent) && sender.Waiting() == old(sender.Waiting())
        else
          var ranges, threshold := acks[index].ranges, sender.settings.fastLossThreshold;
          && (r.Err? <==> AnyLimited(old(sender.sent), OvertakenBy(old(sender.sent), ranges, threshold),
                sender.settings))
          && (r.Ok? ==> AckApplied(old(sender.sent), old(sender.Waiting()), ranges, threshold, sender.sent,
                          sender.Waiting()))
    {
      hide Remembers, AckedCarried, Honest, Sound, TimerState.Valid, TimerState.Retransmits, Settles;
      hide AckApplied, AnyLimited, OvertakenBy, LogOk, LedgerOk, FlowOk, NumbersUsed;
      if index >= |acks| { return Ok(true); }
      var ack := acks[index];
      ghost var b := sender.book;
      AckInRange(ack, peer.received, sender.emitted, sender.nextPacketNumber);
      LoggedFlights(sender.emitted, sender.book);
      r := sender.ApplyAck(ack);
      if r.Ok? { CarriedByAck(b, sender.emitted, peer.received, sender.book, ack); }
    }

    /** A step of the sender itself. */
    method SenderStep(act: Action, now: nat) returns (r: Done)
      requires Valid()
      modifies sender, sender.received, sender.timers, sender.timers.wheel, sender.timers.wheel.tasks,
        sender.timers.wheel.heap
      ensures r.Ok? ==>
        && Valid() && old(sender.emitted) <= sender.emitted && Still(old(BookAfter(sender, act)), sender.book)
      ensures Acts(act, sender.settings, old(LookAt(sender)), LookAt(sender), r.Ok?)
      ensures r != Err(AckForUnsentPacket)
    {
      hide Acts, LookAt, Remembers, AckedCarried, Honest, Connection.Holding, NoneAcked, BookAfter;
      ghost var b, log := sender.book, sender.emitted;
      r := Perform(sender, act, now);
      if r.Ok? {
        CarriedGrows(b, log, peer.received, sender.book, sender.emitted, peer.received);
        EmittedGrows(log, sender.emitted, peer.received);
      }
    }
  }

  ghost predicate Emitted(emitted: seq<Emission>, n: nat)
  {
    exists e :: e in emitted && e.packetNumber == n
  }

  lemma EmittedGrows(emitted: seq<Emission>, later: seq<Emission>, received: set<nat>)
    requires emitted <= later && forall n :: n in received ==> Emitted(emitted, n)
    ensures forall n :: n in received ==> Emitted(later, n)
  {
    forall n | n in received ensures Emitted(later, n) {
      var e :| e in emitted && e.packetNumber == n;
      assert e in later;
    }
  }

  lemma AckInRange(ack: AckFrame, received: set<nat>, emitted: seq<Emission>, next: nat)
    requires Honest(ack, received) && NumbersUsed(emitted, next) && forall n :: n in received ==> Emitted(emitted, n)
    ensures FrameOk(ack) && ack.largest < next
  {
    assert Emitted(emitted, ack.largest);
    var e :| e in emitted && e.packetNumber == ack.largest;
  }

  lemma LoggedFlights(emitted: seq<Emission>, b: Book)
    requires LogOk(emitted, b)
    ensures FlightsLogged(emitted, b)
  {
  }

  /** The connection takes all of the data; otherwise it takes none. */
  predicate Takes(sender: Connection, act: Action)
    reads sender
  {
    && act.Write? && act.id <= MAX_VALUE && act.id in sender.queues
    && sender.queues[act.id].nextOffset + |act.data| <= MAX_VALUE
    && WriteAnswer(sender.state, sender.shut, sender.queues, act.id, |act.data|, sender.settings.maxSendBuffer).Ok?
  }

  /** Chunks, texts and windows change when data is taken, a stream is opened or a window moves,
      and at no other time. */
  ghost function BookAfter(sender: Connection, act: Action): Book
    reads sender
  {
    if Takes(sender, act) then
      Written(sender.book, act.id, act.data, act.fin, CutAt(sender, act.id, act.data, act.fin))
    else match act
      case OpenStream(id, window) => if id in sender.queues then sender.book else Opened(sender.book, id, window)
      case WidenStream(id, maxOffset) =>
        if id in sender.queues then Widened(sender.book, id, Max(sender.queues[id].maxOffset, maxOffset))
            else sender.book
      case WidenConnection(maxOffset) => sender.book.(granted := Max(sender.flow.maxOffset, maxOffset))
      case _ => sender.book
  }

  method TryWrite(sender: Connection, act: Action)
    requires sender.Valid() && act.Write?
    modifies sender`queues, sender`book
    ensures sender.Valid() && NoneAcked(old(sender.book), sender.book)
    ensures Still(old(BookAfter(sender, act)), sender.book)
    ensures Acts(act, sender.settings, old(LookAt(sender)), LookAt(sender), true)
  {
    hide Connection.Holding, Cut, WriteAnswer, Written, Lengthened, FlowOk, FramesOf;
    var id := act.id;
    if id <= MAX_VALUE && (id in sender.queues ==> sender.queues[id].nextOffset + |act.data| <= MAX_VALUE) {
      NoneAckedWritten(sender.book, id, act.data, act.fin, CutAt(sender, id, act.data, act.fin));
      var done := sender.Write(id, act.data, act.fin);
    }
  }

  /** A call that sends nothing. */
  method Prepare(sender: Connection, act: Action)
    requires sender.Valid()
    modifies sender`state, sender`queues, sender`book, sender`pendingFrames, sender`tries, sender`shut, sender`flow
    ensures sender.Valid() && NoneAcked(old(sender.book), sender.book)
    ensures sender.state == old(sender.state) || old(sender.state) == Idle
    ensures !Sends(act) ==> Still(old(BookAfter(sender, act)), sender.book)
    ensures !Sends(act) ==> Acts(act, sender.settings, old(LookAt(sender)), LookAt(sender), true)
  {
    hide Connection.Holding, WriteAnswer, CutAt, Written, FlowOk, FramesOf, Lengthened, LedgerOk, Connection.Valid;
    match act {
      case Establish => if sender.state == Idle { sender.Establish(); }
      case OpenStream(id, window) => if id !in sender.queues { sender.OpenStream(id, window); }
      case QueueControl(frame) => if !frame.StreamData? { sender.QueueFrame(frame); }
      case Write(id, data, fin) => TryWrite(sender, act);
      case ShutStream(id) => sender.ShutStream(id);
      case WidenStream(id, maxOffset) => var done := sender.WidenStream(id, maxOffset);
      case WidenConnection(maxOffset) => sender.WidenConnection(maxOffset);
      case _ =>
    }
  }

  /** The calls that send packets or set timers. */
  predicate Sends(act: Action)
  {
    act.StartTimers? || act.PacketArrives? || act.CloseConnection? || act.Flush? || act.Advance?
  }

  method FlushNow(sender: Connection, encrypt: bool, now: nat, rto: nat) returns (r: Done)
    requires sender.Valid() && sender.received.Valid()
    modifies sender, sender.timers, sender.timers.wheel, sender.timers.wheel.tasks, sender.timers.wheel.heap
    ensures r.Ok? ==> sender.Valid() && sender.expired == old(sender.expired) && sender.state == old(sender.state)
    ensures r.Ok? ==> Progress(old(sender.book), old(sender.emitted), sender.book, sender.emitted)
    ensures r != Err(AckForUnsentPacket)
    ensures Acts(Flush(encrypt, rto), sender.settings, old(LookAt(sender)), LookAt(sender), r.Ok?)
  {
    hide Connection.Holding, FlowOk, Progress, InTurn, AllPosted, Stopped, Stuck, Restored, FramesOf;
    hide Connection.Exhausted, LedgerOk, Connection.Valid;
    ghost var was := LookAt(sender);
    ghost var ack, frames;
    r, ack, frames := sender.Flush(encrypt, now, rto);
    assert was.ackDue ||
      Flushes(was, LookAt(sender), frames, Wire(was.state, encrypt, sender.settings.maxDatagramSize), rto, r.Ok?);
  }

  /** Sending changes no text and no window; what else it does is said for `Flush`. */
  lemma SendingKeeps(sender: Connection, act: Action)
    requires Sends(act)
    ensures BookAfter(sender, act) == sender.book
    ensures !act.Flush? ==> forall settings, was, now, ok :: Acts(act, settings, was, now, ok)
  {
  }

  /** One call on the connection. */
  method Perform(sender: Connection, act: Action, now: nat) returns (r: Done)
    requires sender.Valid() && sender.received.Valid() && (sender.state == Closed || sender.expired == {})
    modifies sender, sender.received, sender.timers, sender.timers.wheel, sender.timers.wheel.tasks,
      sender.timers.wheel.heap
    ensures r.Ok? ==> sender.Valid() && sender.received.Valid() && (sender.state == Closed || sender.expired == {})
    ensures r.Ok? ==> old(sender.emitted) <= sender.emitted && NoneAcked(old(sender.book), sender.book)
    ensures r.Ok? ==> Still(old(BookAfter(sender, act)), sender.book)
    ensures Acts(act, sender.settings, old(LookAt(sender)), LookAt(sender), r.Ok?)
    ensures r != Err(AckForUnsentPacket)
  {
    hide Connection.Valid, ReceivedPackets.Valid, BookAfter, LookAt, Acts, Connection.Exhausted;
    if Sends(act) { SendingKeeps(sender, act); }
    match act {
      case StartTimers => r := sender.StartTimers();
      case PacketArrives(number, eliciting, encrypt, rto) =>
        var accepted := sender.OnPacket(number, eliciting, encrypt, now, rto);
        r := if accepted.Ok? then Ok(true) else Err(accepted.error);
      case CloseConnection(errorCode, encrypt, rto) => r := sender.Close(errorCode, [], encrypt, now, rto);
      case Flush(encrypt, rto) => r := FlushNow(sender, encrypt, now, rto);
      case Advance(elapsed, encrypt, rtos) => r := sender.AdvanceTime(elapsed, encrypt, now, rtos);
      case _ =>
        Prepare(sender, act);
        r := Ok(true);
    }
  }

  /** What a write on stream `id` would queue. */
  ghost function CutAt(sender: Connection, id: u64, data: seq<byte>, fin: bool): seq<PendingData>
    reads sender
  {
    if id in sender.queues
    then Cut(sender.queues[id].nextOffset, data, fin, Packets.ChunkLimit(sender.settings.maxDatagramSize))
    else []
  }

  lemma NoneAckedWritten(b: Book, id: u64, data: seq<byte>, fin: bool, items: seq<PendingData>)
    ensures NoneAcked(b, Written(b, id, data, fin, items))
  {
    NoneAckedRegistered(b, id, items);
  }

  /** What every run establishes about the chunks of stream data. */
  ghost predicate Kept(limits: Bounds, s: Sender, emitted: seq<Emission>, received: set<nat>, t: Tag)
  {
    && t in s.book.place
    // in exactly one of its queue, the sent table and the acknowledged chunks
    && (InQueue(s.queues, t) <==> s.book.place[t] == Queued) && (OnTheWay(s.sent, t) <==> s.book.place[t].InFlight?)
    // and acknowledged only if the peer recorded a packet with it
    && (s.book.place[t] == Acknowledged ==> exists pn :: pn in received && Carried(emitted, pn, t))
    // after at most the allowed number of transmissions
    && (limits.maxRetransmissions < U32_MAX ==> Count(emitted, t) <= limits.maxRetransmissions + 1)
  }

  lemma ChunkKept(limits: Bounds, s: Sender, emitted: seq<Emission>, received: set<nat>, t: Tag)
    requires Sound(limits, s, None) && LogOk(emitted, s.book)
    requires AckedCarried(s.book, emitted, received) && t in s.book.chunks
    ensures Kept(limits, s, emitted, received, t)
  {
    ExactlyOnePlace(limits, s, t);
    TransmissionsBounded(limits, s, None, t);
    hide Sound, InQueue, OnTheWay, Count, Carried;
  }

  /** Timers, bytes in flight and the window, in every state of every run. */
  ghost predicate Accounted(s: Sender, emitted: seq<Emission>)
  {
    && (s.congestion.maxCwnd < U64_MAX ==> s.congestion.bytesInFlight == Sums.Sum(Lengths(s.sent)))
    && WindowOk(s.congestion)
    && (forall pn :: pn in s.sent ==> pn < s.next)
    && EmissionsFit(emitted)
    && (!s.closed ==>
          && (forall pn :: pn in s.sent ==>
                s.sent[pn].timerId in s.live && s.live[s.sent[pn].timerId] == Retransmit(pn, s.sent[pn].generation))
          && (forall k :: k in s.live ==>
                exists pn :: pn in s.sent && s.sent[pn].timerId == k
                    && s.live[k] == Retransmit(pn, s.sent[pn].generation)))
  }

  lemma SenderAccounted(limits: Bounds, s: Sender, emitted: seq<Emission>)
    requires Sound(limits, s, None) && LogOk(emitted, s.book) && (s.closed || s.expired == {})
    ensures Accounted(s, emitted)
  {
    if !s.closed { TimersMatch(limits, s, None); }
    hide QueuesOk, FlightsOk, BookOk, OffsetsOk, TimersOk, WindowOk, Counted, FlightsLogged;
  }

  /** Any run whatsoever, up to the first error of a call: no chunk is lost, doubled or sent too
      often, no control frame is sent too often, acknowledgements are true, timers and window keep
      their accounts, and the peer's connection window covers every byte that was sent, counted
      once. */
  method RunAcks(link: AckLink, script: seq<Action>) returns (failed: Option<TransportError>)
    requires link.Valid()
    modifies link, link.peer, link.sender, link.sender.received, link.sender.timers,
      link.sender.timers.wheel, link.sender.timers.wheel.tasks, link.sender.timers.wheel.heap
    ensures failed != Some(AckForUnsentPacket)
    ensures failed.None? ==>
      && link.Valid() && Accounted(link.sender.View(), link.sender.emitted)
      && FlowOk(link.sender.book, link.sender.flow)
      && ControlsCounted(link.sender.pendingFrames, link.sender.sent, link.sender.emitted,
           link.sender.settings.maxRetransmissions)
    ensures failed.None? ==> forall t :: t in link.sender.book.chunks ==>
      Kept(link.sender.Bounded(), link.sender.View(), link.sender.emitted, link.peer.received, t)
  {
    hide AckLink.Valid, Kept, Accounted, FlowOk, ControlsCounted;
    var now: nat := 0;
    for i := 0 to |script|
      invariant link.Valid()
    {
      var act := script[i];
      if act.Advance? { now := now + act.elapsed; }
      var done := OneStep(link, act, now);
      if done.Err? { return Some(done.error); }
    }
    RunFacts(link);
    failed := None;
  }

  method OneStep(link: AckLink, act: Action, now: nat) returns (r: Done)
    requires link.Valid()
    modifies link, link.peer, link.sender, link.sender.received, link.sender.timers,
      link.sender.timers.wheel, link.sender.timers.wheel.tasks, link.sender.timers.wheel.heap
    ensures r.Ok? ==> link.Valid()
    ensures r != Err(AckForUnsentPacket)
  {
    hide AckLink.Valid;
    match act {
      case DeliverToPeer(index) => var accepted := link.DeliverToPeer(index, now);
      case PeerAcknowledges(delay) => link.PeerAcknowledges(now, delay);
      case DeliverAck(index) => r := link.DeliverAck(index); return;
      case _ => r := link.SenderStep(act, now); return;
    }
    r := Ok(true);
  }

  lemma RunFacts(link: AckLink)
    requires link.Valid()
    ensures Accounted(link.sender.View(), link.sender.emitted)
    ensures FlowOk(link.sender.book, link.sender.flow)
    ensures ControlsCounted(link.sender.pendingFrames, link.sender.sent, link.sender.emitted,
        link.sender.settings.maxRetransmissions)
    ensures forall t :: t in link.sender.book.chunks ==>
      Kept(link.sender.Bounded(), link.sender.View(), link.sender.emitted, link.peer.received, t)
  {
    hide Sound, LogOk, FlowOk, LedgerOk, ControlsCounted, AckedCarried;
    hide Kept, Accounted, TimerState.Valid, Remembers, Honest;
    SenderAccounted(link.sender.Bounded(), link.sender.View(), link.sender.emitted);
    AllCounted(link.sender.pendingFrames, link.sender.sent, link.sender.tries, link.sender.emitted,
      link.sender.settings.maxRetransmissions);
    forall t | t in link.sender.book.chunks
      ensures Kept(link.sender.Bounded(), link.sender.View(), link.sender.emitted, link.peer.received, t)
    {
      ChunkKept(link.sender.Bounded(), link.sender.View(), link.sender.emitted, link.peer.received, t);
    }
  }
}
