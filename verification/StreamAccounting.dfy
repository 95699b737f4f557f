/** The receiving side of a connection: a map of streams, per-stream and connection-level
    flow control, and the accounting that ties them together. */
module StreamAccounting {
  import opened Wrappers
  import opened Sums
  import opened Bytes
  import opened Segments
  import opened ReceiveStream

  type StreamId = nat

  /** `ReceiveFlowControl`, a plain copied record. */
  datatype ReceiveFlow = ReceiveFlow(maxOffset: nat, uniqueReceived: nat, consumed: nat, windowSize: nat,
          advertisedOffset: nat)

  function NewFlow(window: nat): ReceiveFlow
  {
    ReceiveFlow(window, 0, 0, window, window)
  }

  /** `consume`: the window opens by what was read; returns the new limit to advertise. */
  function Consume(f: ReceiveFlow, amount: nat): (ReceiveFlow, Option<nat>)
  {
    var consumed := SatAdd(f.consumed, amount);
    var desired := SatAdd(consumed, f.windowSize);
    if desired > f.advertisedOffset
    then (f.(consumed := consumed, advertisedOffset := desired, maxOffset := desired), Some(desired))
    else (f.(consumed := consumed), None)
  }

  datatype StreamState = Open | Reset(errorCode: nat) | Finished

  datatype CoreError =
    | UnknownStream
    | InvalidStreamId
    | StreamReset(errorCode: nat)
    | ReceiveBufferFull
    | ConnectionFlowViolation
    | Refused(error: StreamError)

  /** What a stream holds: delivered and waiting bytes, what of it is unread, and how it ended;
      and the size of its window. */
  datatype Inbox = Inbox(
    passed: seq<byte>, segments: seq<Segment>, ready: seq<byte>, finalOffset: Option<nat>, state: StreamState,
    size: nat)

  function EmptyInbox(size: nat): Inbox
  {
    Inbox([], [], [], None, Open, size)
  }

  /** The window ends one window size past what was read. */
  function WindowEnd(box: Inbox): nat
  {
    SatAdd(SatSub(|box.passed|, |box.ready|), box.size)
  }

  function BufferedIn(box: Inbox): nat
  {
    |box.ready| + TotalLength(box.segments)
  }

  /** How many bytes of the frame are new: none once the stream is closed. */
  function NewIn(box: Inbox, offset: nat, data: seq<byte>): nat
  {
    if box.state == Open then FreeCount(box.segments, Max(offset, |box.passed|), offset + |data|) else 0
  }

  /** An open stream has room for the frame: it is within the window, agrees with the end if that
      is known, and its new bytes fit the buffer. A closed stream drops whatever comes. */
  predicate Room(box: Inbox, offset: nat, data: seq<byte>, fin: bool, limit: nat)
  {
    box.state == Open ==>
      && Refusal(WindowEnd(box), box.finalOffset, offset + |data|, fin).None?
      && NewIn(box, offset, data) + BufferedIn(box) <= limit
  }

  /** The stream is open, has room, and the new bytes are within the connection's window. */
  predicate Admits(boxes: map<StreamId, Inbox>, connection: ReceiveFlow, limit: nat, id: StreamId, offset: nat,
          data: seq<byte>, fin: bool)
  {
    && id in boxes && Room(boxes[id], offset, data, fin, limit)
    && connection.uniqueReceived + NewIn(boxes[id], offset, data) <= Min(connection.maxOffset, U64_MAX)
  }

  /** An open stream stored a frame: no held byte changed, what became contiguous is ready, and
      the stream is finished only if everything up to its end was delivered. */
  ghost predicate Took(was: Inbox, now: Inbox, offset: nat, data: seq<byte>, fin: bool)
  {
    && Merged(was.passed, was.segments, now.passed, now.segments, offset, data)
    && was.passed <= now.passed && now.ready == was.ready + now.passed[|was.passed|..]
    && now.finalOffset == (if fin then Some(offset + |data|) else was.finalOffset) && now.size == was.size
    && (now.state == was.state || (now.state == Finished && now.finalOffset == Some(|now.passed|)))
  }

  /** A read took `data` off the front of what is ready, and finished the stream if it was at the end. */
  ghost predicate WasRead(was: Inbox, now: Inbox, data: seq<byte>, eof: bool)
  {
    && !was.state.Reset? && was.ready == data + now.ready
    && now == was.(ready := now.ready, state := if eof then Finished else was.state)
    && (eof <==> now.finalOffset == Some(|now.passed|) && now.ready == [])
  }

  class StreamRecord {
    const id: StreamId
    var state: StreamState
    const recv: ReceiveStream
    var flow: ReceiveFlow

    /** The stream's window always lies exactly one window size past what was read. */
    ghost predicate Valid()
      reads this, recv
    {
      && recv.Valid()
      && flow.consumed == recv.nextOffset - |recv.ready|
      && flow.maxOffset == flow.advertisedOffset == recv.maxOffset == SatAdd(flow.consumed, flow.windowSize)
    }

    constructor (id: StreamId, window: nat)
      requires window <= U64_MAX
      ensures Valid() && fresh(recv) && this.id == recv.streamId == id && state == Open && flow == NewFlow(window)
      ensures recv.Accepted() == 0 && Contents() == EmptyInbox(window)
    {
      this.id := id;
      recv := new ReceiveStream(id, window);
      state := Open;
      flow := NewFlow(window);
    }

    /** What is buffered never exceeds the stream's window. */
    lemma BufferedWithinWindow()
      requires Valid()
      ensures |recv.ready| + TotalLength(recv.segments) <= flow.windowSize
    {
      TotalFits(recv.segments, recv.nextOffset, recv.maxOffset);
    }

    ghost function Contents(): Inbox
      reads this, recv
    {
      Inbox(recv.passed, recv.segments, recv.ready, recv.finalOffset, state, flow.windowSize)
    }

    ghost function Buffered(): nat
      reads this, recv
    {
      BufferedIn(Contents())
    }

    /** Valid, holding `accepted` distinct bytes, and buffering at most `limit`. */
    ghost predicate Fits(accepted: nat, limit: nat)
      reads this, recv
    {
      Valid() && recv.Accepted() == accepted && Buffered() <= limit
    }

    lemma WindowFacts()
      requires Valid()
      ensures WindowEnd(Contents()) == recv.maxOffset
      ensures forall offset: nat, data: seq<byte> :: state == Open ==>
        NewIn(Contents(), offset, data) == recv.Fresh(offset, offset + |data|)
    {
    }

    /** The per-stream part of `new_data_bytes`. */
    method NewDataBytes(offset: nat, data: seq<byte>, limit: nat, ghost accepted: nat)
      returns (r: Result<nat, CoreError>)
      requires Fits(accepted, limit)
      ensures r.Ok? ==> r.value == NewIn(Contents(), offset, data)
      ensures r.Ok? <==> state == Open ==>
        && offset + |data| <= Min(WindowEnd(Contents()), U64_MAX)
        && NewIn(Contents(), offset, data) + Buffered() <= limit
    {
      hide FreeCount, TotalLength;
      if state != Open { return Ok(0); }
      WindowFacts();
      var newBytes := recv.NewBytes(offset, data);
      if newBytes.Err? { return Err(Refused(newBytes.error)); }
      var buffered := recv.BufferedLen();
      if newBytes.value > SatSub(limit, buffered) { return Err(ReceiveBufferFull); }
      r := Ok(newBytes.value);
    }

    /** The per-stream part of `insert_data`: a closed stream drops the frame. Returns
        whether the stream is readable, finished, and how much it buffers. */
    method InsertData(offset: nat, data: seq<byte>, fin: bool, limit: nat, ghost accepted: nat)
      returns (r: Result<(), CoreError>, readable: bool, finished: bool, buffered: nat)
      requires Fits(accepted, limit)
      requires state == Open ==> NewIn(Contents(), offset, data) + Buffered() <= limit
      modifies recv
      ensures r.Ok? <==> old(Room(Contents(), offset, data, fin, limit))
      ensures r.Err? ==> Fits(accepted, limit)
      ensures r.Ok? ==> Fits(accepted + old(NewIn(Contents(), offset, data)), limit) && buffered <= limit
      ensures r.Ok? && state == Open ==> Took(old(Contents()), Contents(), offset, data, fin)
      ensures r.Err? || state != Open ==> Contents() == old(Contents())
      ensures finished ==> recv.finalOffset == Some(|recv.passed|)
      ensures state != Open ==> r.Ok? && !finished
    {
      hide FreeCount, Merged, SegmentsOk, TotalLength, WindowEnd, Refusal;
      if state != Open {
        buffered := recv.BufferedLen();
        return Ok(()), false, false, buffered;
      }
      WindowFacts();
      var inserted := recv.Insert(offset, data, fin);
      if inserted.Err? { return Err(Refused(inserted.error)), false, false, 0; }
      buffered := recv.BufferedLen();
      readable, finished := recv.Readable(), recv.IsFinished();
      r := Ok(());
    }

    /** `StreamManager::read` on a stream that was not reset. */
    method Read(maxLen: nat) returns (data: seq<byte>, eof: bool, windowUpdate: Option<nat>)
      requires Valid() && !state.Reset?
      modifies this, recv
      ensures Valid() && flow.windowSize == old(flow.windowSize)
      ensures |data| == Min(maxLen, |old(recv.ready)|)
      ensures recv.Accepted() == old(recv.Accepted())
      ensures windowUpdate == if recv.maxOffset > old(recv.maxOffset) then Some(recv.maxOffset) else None
      ensures WasRead(old(Contents()), Contents(), data, eof)
    {
      data := recv.Read(maxLen);
      var consumed := Consume(flow, |data|);
      flow := consumed.0;
      windowUpdate := consumed.1;
      if windowUpdate.Some? { recv.SetMaxOffset(windowUpdate.value); }
      eof := recv.IsFinished();
      if eof { state := Finished; }
    }

    /** The body of `process_stream_data` once the stream is found: predict the new bytes,
        check the connection's window, store the frame, close a finished stream. */
    method Accept(offset: nat, data: seq<byte>, fin: bool, limit: nat, connection: ReceiveFlow, ghost accepted: nat)
      returns (r: Result<nat, CoreError>)
      requires Fits(accepted, limit)
      modifies this`state, recv
      ensures r.Ok? <==>
        && old(Room(Contents(), offset, data, fin, limit))
        && connection.uniqueReceived + old(NewIn(Contents(), offset, data)) <= Min(connection.maxOffset, U64_MAX)
      ensures r.Err? ==> Fits(accepted, limit)
      ensures r.Ok? ==> r.value == old(NewIn(Contents(), offset, data)) && Fits(accepted + r.value, limit)
      ensures r.Ok? && old(Contents()).state == Open ==> Took(old(Contents()), Contents(), offset, data, fin)
      ensures r.Err? || old(Contents()).state != Open ==> Contents() == old(Contents())
    {
      hide Fits, NewIn, Merged, Valid, WindowEnd, BufferedIn;
      var newBytes := NewDataBytes(offset, data, limit, accepted);
      if newBytes.Err? { return newBytes; }
      var connectionEnd := connection.uniqueReceived + newBytes.value;
      if connectionEnd > U64_MAX || connectionEnd > connection.maxOffset { return Err(ConnectionFlowViolation); }
      var inserted, readable, finished, buffered := InsertData(offset, data, fin, limit, accepted);
      if inserted.Err? { return Err(inserted.error); }
      if buffered > limit { return Err(ReceiveBufferFull); }
      if finished && !readable { Finish(limit, accepted + newBytes.value); }
      r := newBytes;
    }

    /** `read`, keeping the accounting: reading moves no byte in or out of what was accepted. */
    method ReadWithin(maxLen: nat, limit: nat, ghost accepted: nat)
      returns (data: seq<byte>, eof: bool, windowUpdate: Option<nat>)
      requires Fits(accepted, limit) && !state.Reset?
      modifies this, recv
      ensures Fits(accepted, limit)
      ensures |data| == Min(maxLen, |old(recv.ready)|) && WasRead(old(Contents()), Contents(), data, eof)
    {
      data, eof, windowUpdate := Read(maxLen);
    }

    method Finish(limit: nat, ghost accepted: nat)
      requires Fits(accepted, limit)
      modifies this`state
      ensures Fits(accepted, limit) && state == Finished
    {
      state := Finished;
    }

    method MarkReset(errorCode: nat, limit: nat, ghost accepted: nat)
      requires Fits(accepted, limit)
      modifies this`state
      ensures Fits(accepted, limit) && state == Reset(errorCode)
    {
      state := Reset(errorCode);
    }
  }

  /** Segments wait past what was delivered, within the window. */
  ghost predicate BoxOk(box: Inbox)
  {
    && |box.ready| <= |box.passed| <= WindowEnd(box)
    && SegmentsOk(box.segments, |box.passed| + 1)
    && forall i :: 0 <= i < |box.segments| ==> End(box.segments[i]) <= WindowEnd(box)
  }

  // ---- All streams together ----

  type Streams = map<StreamId, StreamRecord>

  /** Records carry the id they are filed under, so no two ids share a record or its bytes. */
  ghost predicate Filed(m: Streams)
  {
    forall id :: id in m ==> m[id].id == id == m[id].recv.streamId
  }

  ghost predicate AllFit(m: Streams, limit: nat)
    reads set id | id in m :: m[id], set id | id in m :: m[id].recv
  {
    forall id :: id in m ==> m[id].Fits(m[id].recv.Accepted(), limit)
  }

  /** The distinct bytes accepted on each stream. */
  ghost function CountsOf(m: Streams): map<StreamId, nat>
    reads set id | id in m :: m[id], set id | id in m :: m[id].recv
  {
    map id | id in m :: m[id].recv.Accepted()
  }

  ghost function Inboxes(m: Streams): (boxes: map<StreamId, Inbox>)
    reads set id | id in m :: m[id], set id | id in m :: m[id].recv
    ensures boxes.Keys == m.Keys
  {
    map id | id in m :: m[id].Contents()
  }

  lemma FitsCount(stream: StreamRecord, n: nat, limit: nat)
    requires stream.Fits(n, limit)
    ensures stream.recv.Accepted() == n
  {
  }

  /** Each stream fits its own count. */
  ghost predicate FitCounts(m: Streams, counts: map<StreamId, nat>, limit: nat)
    reads set id | id in m :: m[id], set id | id in m :: m[id].recv
  {
    counts.Keys == m.Keys && forall id :: id in m ==> m[id].Fits(counts[id], limit)
  }

  lemma AllCounted(m: Streams, limit: nat)
    requires AllFit(m, limit)
    ensures FitCounts(m, CountsOf(m), limit)
  {
    hide StreamRecord.Fits;
  }

  lemma CountedAll(m: Streams, counts: map<StreamId, nat>, limit: nat)
    requires FitCounts(m, counts, limit)
    ensures AllFit(m, limit) && CountsOf(m) == counts
  {
    hide StreamRecord.Fits;
    forall id | id in m ensures m[id].Fits(m[id].recv.Accepted(), limit) && m[id].recv.Accepted() == counts[id] {
      FitsCount(m[id], counts[id], limit);
    }
  }

  lemma StreamAdded(m: Streams, limit: nat, stream: StreamRecord)
    requires Filed(m) && AllFit(m, limit) && stream.id !in m
    requires stream.id == stream.recv.streamId && stream.Fits(0, limit)
    ensures var now := m[stream.id := stream];
      Filed(now) && AllFit(now, limit) && CountsOf(now) == CountsOf(m)[stream.id := 0] && stream.id !in CountsOf(m)
  {
    hide StreamRecord.Fits;
    FitsCount(stream, 0, limit);
  }

  /** The streams of a connection and its receive accounting. */
  class ConnectionReceiver {
    var connection: ReceiveFlow
    const maxReceiveBuffer: nat
    var streams: Streams

    /** Every stream is sound, and the connection has counted the distinct bytes of all of them. */
    ghost predicate Valid()
      reads this, set id | id in streams :: streams[id], set id | id in streams :: streams[id].recv
    {
      && Filed(streams) && AllFit(streams, maxReceiveBuffer)
      && connection.uniqueReceived == Sum<StreamId>(CountsOf(streams)) <= U64_MAX
    }

    constructor (connectionWindow: nat, maxReceiveBuffer: nat)
      ensures Valid() && streams == map[] && connection == NewFlow(connectionWindow)
      ensures this.maxReceiveBuffer == maxReceiveBuffer
    {
      streams := map[];
      connection := NewFlow(connectionWindow);
      this.maxReceiveBuffer := maxReceiveBuffer;
    }

    /** `insert`: a new stream starts with nothing accepted, if its id has the parity of the side
        that opens it; a known one stays as it is. */
    method OpenStream(id: StreamId, window: nat, parity: nat) returns (r: Result<(), CoreError>)
      requires Valid() && window <= U64_MAX
      modifies this`streams
      ensures Valid() && connection == old(connection)
      ensures r == if id in old(streams) || id % 2 == parity then Ok(()) else Err(InvalidStreamId)
      ensures id in old(streams) || r.Err? ==> streams == old(streams)
      ensures id !in old(streams) && r.Ok? ==>
        && id in streams && fresh(streams[id]) && fresh(streams[id].recv)
        && streams == old(streams)[id := streams[id]] && CountsOf(streams) == old(CountsOf(streams))[id := 0]
        && Inboxes(streams) == old(Inboxes(streams))[id := EmptyInbox(window)] && streams[id].flow == NewFlow(window)
    {
      hide StreamRecord.Fits, StreamRecord.Valid, CountsOf, AllFit, Filed, Sum;
      if id in streams { return Ok(()); }
      if id % 2 != parity { return Err(InvalidStreamId); }
      var stream := new StreamRecord(id, window);
      NewFits(stream, maxReceiveBuffer);
      StreamAdded(streams, maxReceiveBuffer, stream);
      SumInsert<StreamId>(CountsOf(streams), id, 0);
      streams := streams[id := stream];
      r := Ok(());
    }

    /** `process_stream_data`. On success the stream holds the frame's bytes in addition to
        its own, and the stream's and the connection's counter grew by exactly the bytes
        that were new; on failure every count is as before. */
    method ProcessStreamData(id: StreamId, offset: nat, data: seq<byte>, fin: bool) returns (r: Result<(), CoreError>)
      requires Valid()
      modifies this`connection, if id in streams then {streams[id], streams[id].recv} else {}
      ensures Valid()
      ensures id !in streams ==> r == Err(UnknownStream)
      ensures r.Err? ==> connection == old(connection) && CountsOf(streams) == old(CountsOf(streams))
      ensures r.Ok? <==> old(Admits(Inboxes(streams), connection, maxReceiveBuffer, id, offset, data, fin))
      ensures r.Ok? ==> id in streams && var added := NewIn(old(Inboxes(streams))[id], offset, data);
        && CountsOf(streams) == old(CountsOf(streams))[id := old(CountsOf(streams)[id]) + added]
        && connection == old(connection).(uniqueReceived := old(connection.uniqueReceived) + added)
      ensures r.Ok? && old(Inboxes(streams))[id].state == Open ==>
        && Took(old(Inboxes(streams))[id], Inboxes(streams)[id], offset, data, fin)
        && Inboxes(streams) == old(Inboxes(streams))[id := Inboxes(streams)[id]]
      ensures r.Err? || old(Inboxes(streams))[id].state != Open ==> Inboxes(streams) == old(Inboxes(streams))
    {
      hide StreamRecord.Fits, NewIn, Took, StreamRecord.Contents, Inboxes;
      hide StreamRecord.Valid, CountsOf, AllFit, Sum;
      if id !in streams { return Err(UnknownStream); }
      ghost var counts := CountsOf(streams);
      assert id in counts by { AllCounted(streams, maxReceiveBuffer); }
      var added := AcceptOn(id, offset, data, fin);
      if added.Err? { return Err(added.error); }
      SumReplace<StreamId>(counts, id, counts[id] + added.value);
      connection := connection.(uniqueReceived := connection.uniqueReceived + added.value);
      r := Ok(());
    }

    /** The part that concerns the stream: its count and its inbox move, and no other stream's. */
    method AcceptOn(id: StreamId, offset: nat, data: seq<byte>, fin: bool) returns (r: Result<nat, CoreError>)
      requires Filed(streams) && AllFit(streams, maxReceiveBuffer) && id in streams
      modifies streams[id], streams[id].recv
      ensures AllFit(streams, maxReceiveBuffer) && id in old(CountsOf(streams))
      ensures r.Ok? <==> old(Admits(Inboxes(streams), connection, maxReceiveBuffer, id, offset, data, fin))
      ensures r.Ok? ==>
        && r.value == NewIn(old(Inboxes(streams))[id], offset, data)
        && CountsOf(streams) == old(CountsOf(streams))[id := old(CountsOf(streams)[id]) + r.value]
      ensures r.Err? ==> CountsOf(streams) == old(CountsOf(streams))
      ensures r.Ok? && old(Inboxes(streams))[id].state == Open ==>
        && Took(old(Inboxes(streams))[id], Inboxes(streams)[id], offset, data, fin)
        && Inboxes(streams) == old(Inboxes(streams))[id := Inboxes(streams)[id]]
      ensures r.Err? || old(Inboxes(streams))[id].state != Open ==> Inboxes(streams) == old(Inboxes(streams))
    {
      hide StreamRecord.Fits, NewIn, Room, Took, StreamRecord.Contents, StreamRecord.Valid, CountsOf, AllFit;
      ghost var counts := CountsOf(streams);
      AllCounted(streams, maxReceiveBuffer);
      r := streams[id].Accept(offset, data, fin, maxReceiveBuffer, connection, counts[id]);
      ghost var n := if r.Ok? then counts[id] + r.value else counts[id];
      CountedAll(streams, counts[id := n], maxReceiveBuffer);
      assert r.Err? ==> counts[id := n] == counts;
    }

    /** `read_stream` without the frames it queues. Reading changes no count. */
    method ReadStream(id: StreamId, maxLen: nat)
      returns (r: Result<(seq<byte>, bool), CoreError>, windowUpdate: Option<nat>)
      requires Valid()
      modifies this`connection, if id in streams then {streams[id], streams[id].recv} else {}
      ensures Valid() && CountsOf(streams) == old(CountsOf(streams))
      ensures connection.uniqueReceived == old(connection.uniqueReceived)
      ensures id !in streams ==> r == Err(UnknownStream)
      ensures r.Err? ==> Inboxes(streams) == old(Inboxes(streams)) && connection == old(connection)
      ensures id in streams && old(streams[id].state).Reset? ==> r == Err(StreamReset(old(streams[id].state).errorCode))
      ensures id in streams && !old(streams[id].state).Reset? ==>
        && r.Ok? && |r.value.0| == Min(maxLen, |old(streams[id].recv.ready)|)
        && WasRead(old(Inboxes(streams))[id], Inboxes(streams)[id], r.value.0, r.value.1)
        && Inboxes(streams) == old(Inboxes(streams))[id := Inboxes(streams)[id]]
        && connection == if |r.value.0| > 0 then Consume(old(connection), |r.value.0|).0 else old(connection)
    {
      hide StreamRecord.Fits, StreamRecord.Valid, StreamRecord.Contents, CountsOf, AllFit, Sum;
      windowUpdate := None;
      if id !in streams { return Err(UnknownStream), None; }
      if streams[id].state.Reset? { return Err(StreamReset(streams[id].state.errorCode)), None; }
      ghost var counts := CountsOf(streams);
      AllCounted(streams, maxReceiveBuffer);
      var data, eof;
      data, eof, windowUpdate := streams[id].ReadWithin(maxLen, maxReceiveBuffer, counts[id]);
      CountedAll(streams, counts, maxReceiveBuffer);
      if |data| > 0 { connection := Consume(connection, |data|).0; }
      r := Ok((data, eof));
    }

    /** `reset`. */
    method ResetStream(id: StreamId, errorCode: nat) returns (r: Result<(), CoreError>)
      requires Valid()
      modifies if id in streams then {streams[id]} else {}
      ensures Valid() && CountsOf(streams) == old(CountsOf(streams))
      ensures id !in streams ==> r == Err(UnknownStream)
      ensures id in streams ==>
        && r.Ok?
        && Inboxes(streams) == old(Inboxes(streams))[id := old(Inboxes(streams))[id].(state := Reset(errorCode))]
    {
      hide StreamRecord.Fits, StreamRecord.Valid, CountsOf, AllFit, Sum;
      if id !in streams { return Err(UnknownStream); }
      ghost var counts := CountsOf(streams);
      AllCounted(streams, maxReceiveBuffer);
      streams[id].MarkReset(errorCode, maxReceiveBuffer, counts[id]);
      CountedAll(streams, counts, maxReceiveBuffer);
      r := Ok(());
    }

    /** No stream ever buffers more than its window. */
    lemma EveryStreamWithinWindow()
      requires Valid()
      ensures forall id :: id in streams ==> streams[id].Buffered() <= streams[id].flow.windowSize
    {
      forall id | id in streams ensures streams[id].Buffered() <= streams[id].flow.windowSize {
        assert streams[id].Fits(streams[id].recv.Accepted(), maxReceiveBuffer);
        streams[id].BufferedWithinWindow();
      }
    }
  }

  /** What the values say of a valid receiver. */
  lemma BoxFacts(receiver: ConnectionReceiver, id: StreamId)
    requires receiver.Valid() && id in receiver.streams
    ensures BoxOk(Inboxes(receiver.streams)[id])
    ensures var box := Inboxes(receiver.streams)[id];
      CountsOf(receiver.streams)[id] == |box.passed| + TotalLength(box.segments)
  {
    var stream := receiver.streams[id];
    assert stream.Fits(stream.recv.Accepted(), receiver.maxReceiveBuffer);
    hide ConnectionReceiver.Valid;
    stream.WindowFacts();
  }

  lemma NewFits(stream: StreamRecord, limit: nat)
    requires stream.Valid() && stream.recv.segments == [] && stream.recv.ready == [] && stream.recv.Accepted() == 0
    ensures stream.Fits(0, limit)
  {
  }

  // ---- Any sequence of calls ----

  datatype Incoming =
    | OpenStream(id: StreamId, window: u64, parity: nat)
    | Data(id: StreamId, offset: nat, data: seq<byte>, fin: bool)
    | Read(id: StreamId, maxLen: nat)
    | ResetStream(id: StreamId, errorCode: nat)

  /** Whatever frames arrive and whatever is read, in any order and on any streams: the
      connection's counter is the number of distinct positions accepted, over all streams, and no
      stream buffers more than its window. */
  method RunReceiver(script: seq<Incoming>, connectionWindow: nat, maxReceiveBuffer: nat)
    returns (receiver: ConnectionReceiver)
    ensures receiver.Valid()
    ensures receiver.connection.uniqueReceived == Sum<StreamId>(Positions(receiver.streams))
    ensures forall id :: id in receiver.streams ==>
      receiver.streams[id].Buffered() <= receiver.streams[id].flow.windowSize
  {
    hide ConnectionReceiver.Valid, StreamRecord.Buffered, Positions, Inboxes;
    hide CountsOf, Took, NewIn, Consume;
    receiver := new ConnectionReceiver(connectionWindow, maxReceiveBuffer);
    for i := 0 to |script|
      invariant fresh(receiver) && receiver.Valid()
      invariant forall id :: id in receiver.streams ==> fresh(receiver.streams[id]) && fresh(receiver.streams[id].recv)
    {
      match script[i]
      case OpenStream(id, window, parity) => var r := receiver.OpenStream(id, window, parity);
      case Data(id, offset, data, fin) => var r := receiver.ProcessStreamData(id, offset, data, fin);
      case Read(id, maxLen) => var r, update := receiver.ReadStream(id, maxLen);
      case ResetStream(id, errorCode) => var r := receiver.ResetStream(id, errorCode);
    }
    receiver.EveryStreamWithinWindow();
    CountsArePositions(receiver);
  }

  /** How many positions of each stream hold a byte. */
  ghost function Positions(m: Streams): map<StreamId, nat>
    reads set id | id in m :: m[id], set id | id in m :: m[id].recv
  {
    map id | id in m :: |HeldBelow(m[id].recv.passed, m[id].recv.segments, m[id].recv.maxOffset)|
  }

  ghost function HeldBelow(passed: seq<byte>, segs: seq<Segment>, high: nat): set<nat>
  {
    set p: nat | p < high && Held(passed, segs, p).Some?
  }

  lemma CountsArePositions(receiver: ConnectionReceiver)
    requires receiver.Valid()
    ensures receiver.connection.uniqueReceived == Sum<StreamId>(Positions(receiver.streams))
  {
    hide HeldBelow;
    var m := receiver.streams;
    forall id | id in m
      ensures |HeldBelow(m[id].recv.passed, m[id].recv.segments, m[id].recv.maxOffset)| == m[id].recv.Accepted()
    {
      assert m[id].Fits(m[id].recv.Accepted(), receiver.maxReceiveBuffer);
      HeldCount(m[id].recv);
    }
    assert Positions(m) == CountsOf(m);
  }

  /** `Accepted` is the number of distinct positions that hold a byte. */
  lemma HeldCount(recv: ReceiveStream)
    requires recv.Valid()
    ensures |HeldBelow(recv.passed, recv.segments, recv.maxOffset)| == recv.Accepted()
  {
    HeldSize(recv.passed, recv.segments, recv.maxOffset);
  }

  lemma HeldSize(passed: seq<byte>, segs: seq<Segment>, high: nat)
    requires SegmentsOk(segs, |passed|) && |passed| <= high && forall i :: 0 <= i < |segs| ==> End(segs[i]) <= high
    ensures |HeldBelow(passed, segs, high)| == |passed| + TotalLength(segs)
  {
    SpanSize(0, |passed|);
    InSegmentsSize(segs, |passed|, high);
    assert HeldBelow(passed, segs, high) == Span(0, |passed|) + InSegments(segs, |passed|, high);
    assert Span(0, |passed|) !! InSegments(segs, |passed|, high);
  }

  ghost function Span(lo: nat, hi: nat): (s: set<nat>)
    ensures forall p: nat :: p in s <==> lo <= p < hi
    decreases hi - lo
  {
    if lo >= hi then {} else {lo} + Span(lo + 1, hi)
  }

  lemma {:induction false} SpanSize(lo: nat, hi: nat)
    requires lo <= hi
    ensures |Span(lo, hi)| == hi - lo
    decreases hi - lo
  {
    if lo < hi { SpanSize(lo + 1, hi); }
  }

  ghost function InSegments(segs: seq<Segment>, lo: nat, hi: nat): set<nat>
  {
    set p: nat | lo <= p < hi && ByteAt(segs, p).Some?
  }

  lemma {:induction false} InSegmentsSize(segs: seq<Segment>, low: nat, high: nat)
    requires SegmentsOk(segs, low) && forall i :: 0 <= i < |segs| ==> End(segs[i]) <= high
    ensures |InSegments(segs, low, high)| == TotalLength(segs)
    decreases |segs|
  {
    if |segs| == 0 {
      assert InSegments(segs, low, high) == {};
    } else {
      var first, rest := segs[0], segs[1..];
      InSegmentsSize(rest, End(first), high);
      SpanSize(first.start, End(first));
      FirstPositions(segs, low, high);
      assert Span(first.start, End(first)) !! InSegments(rest, End(first), high);
    }
  }

  lemma FirstPositions(segs: seq<Segment>, low: nat, high: nat)
    requires |segs| > 0 && SegmentsOk(segs, low) && forall i :: 0 <= i < |segs| ==> End(segs[i]) <= high
    ensures InSegments(segs, low, high) == Span(segs[0].start, End(segs[0])) + InSegments(segs[1..], End(segs[0]), high)
  {
    forall p: nat | p < segs[0].start ensures ByteAt(segs, p).None? {
      ByteOutside(segs, p);
    }
    assert End(segs[0]) <= high;
  }
}
