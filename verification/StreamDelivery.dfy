/** One stream end to end: a sender, a network that loses, duplicates and reorders frames,
    and a receiver. Any script of events may drive the link. */
module StreamDelivery {
  import opened Wrappers
  import opened Bytes
  import opened Segments
  import opened SendStream
  import opened ReceiveStream

  datatype Action =
    | Write(data: seq<byte>, fin: bool, maxBuffer: nat, maxChunk: nat)
    | Transmit                  // pop the next frame and put it on the network
    | Requeue(index: nat)       // declare a transmitted frame lost
    | Deliver(index: nat)       // let a transmitted frame arrive: any one, any number of times
    | Read(maxLen: nat)
    | WidenSender(maxOffset: nat)
    | WidenReceiver(maxOffset: nat)

  class Link {
    const sender: SendStream
    const receiver: ReceiveStream
    /** Every frame ever transmitted. */
    var net: seq<PendingData>
    /** All bytes returned by reads so far, and whether a read reported the end. */
    var taken: seq<byte>
    var eof: bool
    /** Whether the receiver ever refused an arriving frame as inconsistent. */
    var inconsistent: bool

    ghost predicate Valid()
      reads this, sender, receiver
    {
      && sender.Valid() && receiver.Valid()
      && Pieces(net, sender.written, sender.finRequested)
      && taken + receiver.ready == receiver.passed
      && Agrees(receiver.passed, receiver.segments, sender.written)
      && (receiver.finalOffset.Some? ==> sender.finRequested && receiver.finalOffset.value == |sender.written|)
      && (eof ==> sender.finRequested && taken == sender.written)
      && !inconsistent
    }

    constructor (sendWindow: nat, receiveWindow: nat)
      requires receiveWindow <= U64_MAX
      ensures Valid() && fresh(sender) && fresh(receiver) && sender.written == [] && taken == [] && !eof
    {
      sender := new SendStream(sendWindow);
      receiver := new ReceiveStream(0, receiveWindow);
      net, taken, eof, inconsistent := [], [], false, false;
    }

    /** What reads have returned is always a prefix of what was written; the end is reported
        only after all of it was read and FIN was requested. */
    lemma DeliveredPrefix()
      requires Valid()
      ensures taken <= sender.written
      ensures eof ==> taken == sender.written && sender.finRequested
      ensures !inconsistent
    {
      PassedPrefix(receiver.passed, receiver.segments, sender.written);
    }

    method Do(action: Action)
      requires Valid()
      modifies this, sender, receiver
      ensures Valid() && old(taken) <= taken && old(sender.written) <= sender.written && (old(eof) ==> eof)
    {
      match action {
        case Write(data, fin, maxBuffer, maxChunk) => WriteMore(data, fin, maxBuffer, maxChunk);
        case Transmit =>
          hide Agrees, Piece;
          var r := sender.PopSendable();
          if r.Some? { net := net + [r.value]; }
        case Requeue(index) =>
          hide Agrees, Piece;
          if index < |net| { sender.Requeue(net[index]); }
        case Deliver(index) =>
          if index < |net| { Arrive(net[index]); }
        case Read(maxLen) => Take(maxLen);
        case WidenSender(maxOffset) =>
          sender.UpdateWindow(maxOffset);
        case WidenReceiver(maxOffset) =>
          if receiver.maxOffset <= maxOffset <= U64_MAX { receiver.SetMaxOffset(maxOffset); }
      }
    }

    method WriteMore(data: seq<byte>, fin: bool, maxBuffer: nat, maxChunk: nat)
      requires Valid()
      modifies sender
      ensures Valid() && old(sender.written) <= sender.written
    {
      ghost var text := sender.written;
      hide Pieces, Agrees;
      var r := sender.Write(data, fin, maxBuffer, maxChunk);
      if r.Ok? {
        StillPieces(net, text, data, fin);
        StillAgrees(receiver.passed, receiver.segments, text, data);
      }
    }

    method Take(maxLen: nat)
      requires Valid()
      modifies this`taken, this`eof, receiver
      ensures Valid() && old(taken) <= taken && (old(eof) ==> eof)
    {
      PassedPrefix(receiver.passed, receiver.segments, sender.written);
      hide Pieces, Agrees;
      var data := receiver.Read(maxLen);
      taken := taken + data;
      if receiver.IsFinished() { eof := true; }
    }

    method Arrive(frame: PendingData)
      requires Valid() && Piece(frame, sender.written, sender.finRequested)
      modifies this`inconsistent, receiver
      ensures Valid()
    {
      ghost var passed, segments := receiver.passed, receiver.segments;
      hide Pieces, Agrees;
      var r := receiver.Insert(frame.offset, frame.data, frame.fin);
      inconsistent := inconsistent || r == Err(InvalidOffset);
      if r.Ok? { InsertAgrees(passed, segments, receiver.passed, receiver.segments, sender.written, frame); }
    }
  }

  /** Every byte held by the receiver is the byte written at its position. */
  ghost predicate Agrees(passed: seq<byte>, segs: seq<Segment>, written: seq<byte>)
  {
    forall p: nat :: Held(passed, segs, p).Some? ==> p < |written| && Held(passed, segs, p).value == written[p]
  }

  lemma PassedPrefix(passed: seq<byte>, segs: seq<Segment>, written: seq<byte>)
    requires Agrees(passed, segs, written)
    ensures passed <= written
  {
    forall p: nat | p < |passed| ensures p < |written| && passed[p] == written[p] {
      assert Held(passed, segs, p) == Some(passed[p]);
    }
    if |passed| > 0 { assert Held(passed, segs, |passed| - 1).Some?; }
  }

  lemma StillPieces(items: seq<PendingData>, text: seq<byte>, data: seq<byte>, fin: bool)
    requires Pieces(items, text, false)
    ensures Pieces(items, text + data, fin)
  {
    forall i | 0 <= i < |items| ensures Piece(items[i], text + data, fin) { assert Piece(items[i], text, false); }
  }

  lemma StillAgrees(passed: seq<byte>, segs: seq<Segment>, text: seq<byte>, data: seq<byte>)
    requires Agrees(passed, segs, text)
    ensures Agrees(passed, segs, text + data)
  {
    hide Held;
  }

  lemma InsertAgrees(passed: seq<byte>, segs: seq<Segment>, passed': seq<byte>, segs': seq<Segment>,
          written: seq<byte>, frame: PendingData)
    requires Agrees(passed, segs, written)
    requires frame.offset + |frame.data| <= |written|
    requires frame.data == written[frame.offset..frame.offset + |frame.data|]
    requires Merged(passed, segs, passed', segs', frame.offset, frame.data)
    ensures Agrees(passed', segs', written)
  {
    hide Held;
  }

  /** The end-to-end guarantee, for every script of events. */
  method RunLink(script: seq<Action>, sendWindow: nat, receiveWindow: nat)
    returns (link: Link)
    requires receiveWindow <= U64_MAX
    ensures link.taken <= link.sender.written
    ensures link.eof ==> link.taken == link.sender.written && link.sender.finRequested
    ensures !link.inconsistent
  {
    link := new Link(sendWindow, receiveWindow);
    for n := 0 to |script|
      invariant link.Valid() && fresh(link) && fresh(link.sender) && fresh(link.receiver)
    {
      link.Do(script[n]);
    }
    link.DeliveredPrefix();
  }
}
