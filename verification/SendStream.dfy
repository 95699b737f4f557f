/** The sending half of a stream: written bytes cut into chunks, queued, sent and requeued. */
module SendStream {
  import opened Wrappers
  import opened Bytes
  import opened ReceiveStream

  datatype PendingData = PendingData(offset: nat, data: seq<byte>, fin: bool, retransmitCount: nat)

  /** `item` is a piece of the bytes written, and carries FIN only at their requested end. */
  ghost predicate Piece(item: PendingData, written: seq<byte>, finRequested: bool)
  {
    && item.offset + |item.data| <= |written|
    && item.data == written[item.offset..item.offset + |item.data|]
    && (item.fin ==> finRequested && item.offset + |item.data| == |written|)
  }

  ghost predicate Pieces(items: seq<PendingData>, written: seq<byte>, finRequested: bool)
  {
    forall i :: 0 <= i < |items| ==> Piece(items[i], written, finRequested)
  }

  function ChunksOf(offset: nat, data: seq<byte>, size: nat): seq<PendingData>
    requires size > 0
    decreases |data|
  {
    if |data| == 0 then [] else
    var n := Min(size, |data|);
    [PendingData(offset, data[..n], false, 0)] + ChunksOf(offset + n, data[n..], size)
  }

  function MarkLast(items: seq<PendingData>): seq<PendingData>
  {
    if |items| == 0 then [] else items[|items| - 1 := items[|items| - 1].(fin := true)]
  }

  /** What one write adds to the queue. */
  function Cut(offset: nat, data: seq<byte>, fin: bool, size: nat): seq<PendingData>
    requires size > 0
  {
    if !fin then ChunksOf(offset, data, size)
    else if |data| == 0 then [PendingData(offset, [], true, 0)]
    else MarkLast(ChunksOf(offset, data, size))
  }

  function Joined(items: seq<PendingData>): seq<byte>
  {
    if |items| == 0 then [] else items[0].data + Joined(items[1..])
  }

  /** The items follow each other without gap or overlap from `offset` on, each of at most
      `size` bytes and not empty. */
  ghost predicate Tiled(items: seq<PendingData>, offset: nat, size: nat)
  {
    |items| > 0 ==>
      && items[0].offset == offset
      && 0 < |items[0].data| <= size
      && Tiled(items[1..], offset + |items[0].data|, size)
  }

  lemma {:induction false} ChunksTile(offset: nat, data: seq<byte>, size: nat)
    requires size > 0
    ensures Tiled(ChunksOf(offset, data, size), offset, size)
    ensures Joined(ChunksOf(offset, data, size)) == data
    ensures |data| > 0 ==> |ChunksOf(offset, data, size)| > 0
    ensures forall c :: c in ChunksOf(offset, data, size) ==> !c.fin && c.retransmitCount == 0
    decreases |data|
  {
    if |data| > 0 {
      var n := Min(size, |data|);
      ChunksTile(offset + n, data[n..], size);
    }
  }

  /** Each tile is a piece of whatever was written with these bytes at `offset`. */
  lemma {:induction false} TilesArePieces(items: seq<PendingData>, offset: nat, size: nat, before: seq<byte>,
          finRequested: bool)
    requires Tiled(items, offset, size) && offset == |before|
    requires forall i :: 0 <= i < |items| ==> !items[i].fin
    ensures Pieces(items, before + Joined(items), finRequested)
    ensures forall i :: 0 <= i < |items| ==>
      offset <= items[i].offset && 0 < |items[i].data| <= size
          && items[i].offset + |items[i].data| <= offset + |Joined(items)|
    ensures forall i, j :: 0 <= i < j < |items| ==> items[i].offset + |items[i].data| <= items[j].offset
    ensures |items| > 0 ==> items[|items| - 1].offset + |items[|items| - 1].data| == offset + |Joined(items)|
    decreases |items|
  {
    if |items| > 0 {
      TilesArePieces(items[1..], offset + |items[0].data|, size, before + items[0].data, finRequested);
      assert before + Joined(items) == before + items[0].data + Joined(items[1..]);
      forall i | 0 <= i < |items| ensures Piece(items[i], before + Joined(items), finRequested) {
        if i > 0 { assert Piece(items[1..][i - 1], before + Joined(items), finRequested); }
      }
    }
  }

  /** What a write adds: pieces of the longer text, in order, apart in offset, of at most
      `size` bytes; FIN on the last of them exactly if requested. */
  ghost predicate CutOk(items: seq<PendingData>, before: seq<byte>, data: seq<byte>, fin: bool, size: nat)
  {
    && Joined(items) == data
    && Pieces(items, before + data, fin)
    && (forall i :: 0 <= i < |items| ==>
          |before| <= items[i].offset && |items[i].data| <= size && items[i].retransmitCount == 0)
    && (forall i, j :: 0 <= i < j < |items| ==>
          items[i].offset < items[j].offset && items[i].offset + |items[i].data| <= items[j].offset)
    && (forall i :: 0 <= i < |items| ==> (items[i].fin <==> fin && i == |items| - 1))
    && (fin ==> |items| > 0)
    && (forall i :: 0 <= i < |items| ==> (|items[i].data| == 0 <==> fin && |data| == 0))
  }

  lemma CutIsOk(before: seq<byte>, data: seq<byte>, fin: bool, size: nat)
    requires size > 0
    ensures CutOk(Cut(|before|, data, fin, size), before, data, fin, size)
  {
    var chunks := ChunksOf(|before|, data, size);
    ChunksTile(|before|, data, size);
    TilesArePieces(chunks, |before|, size, before, fin);
    hide CutOk, Pieces, Joined, Tiled, ChunksOf, MarkLast;
    if fin && |data| > 0 {
      MarkedIsOk(chunks, before, data, size);
    } else if fin {
      EmptyFinIsOk(before, data, size);
    } else {
      PlainIsOk(chunks, before, data, size);
    }
  }

  lemma EmptyFinIsOk(before: seq<byte>, data: seq<byte>, size: nat)
    requires |data| == 0
    ensures CutOk([PendingData(|before|, [], true, 0)], before, data, true, size)
  {
    var items := [PendingData(|before|, [], true, 0)];
    assert items[0].data + Joined(items[1..]) == [];
  }

  lemma PlainIsOk(chunks: seq<PendingData>, before: seq<byte>, data: seq<byte>, size: nat)
    requires Joined(chunks) == data && Pieces(chunks, before + data, false)
    requires forall c :: c in chunks ==> !c.fin && c.retransmitCount == 0
    requires forall i :: 0 <= i < |chunks| ==> |before| <= chunks[i].offset && 0 < |chunks[i].data| <= size
    requires forall i, j :: 0 <= i < j < |chunks| ==> chunks[i].offset + |chunks[i].data| <= chunks[j].offset
    ensures CutOk(chunks, before, data, false, size)
  {
    hide Piece, Joined;
    assert forall i :: 0 <= i < |chunks| ==> chunks[i] in chunks;
  }

  lemma MarkedIsOk(chunks: seq<PendingData>, before: seq<byte>, data: seq<byte>, size: nat)
    requires |chunks| > 0 && |data| > 0 && Joined(chunks) == data && Pieces(chunks, before + data, true)
    requires forall c :: c in chunks ==> !c.fin && c.retransmitCount == 0
    requires forall i :: 0 <= i < |chunks| ==> |before| <= chunks[i].offset && 0 < |chunks[i].data| <= size
    requires forall i, j :: 0 <= i < j < |chunks| ==> chunks[i].offset + |chunks[i].data| <= chunks[j].offset
    requires chunks[|chunks| - 1].offset + |chunks[|chunks| - 1].data| == |before + data|
    ensures CutOk(MarkLast(chunks), before, data, true, size)
  {
    MarkLastJoined(chunks);
    hide Joined;
    var items := MarkLast(chunks);
    assert forall i :: 0 <= i < |chunks| ==> chunks[i] in chunks;
    forall i | 0 <= i < |items|
      ensures Piece(items[i], before + data, true)
    {
      assert Piece(chunks[i], before + data, true);
    }
  }

  lemma {:induction false} MarkLastJoined(items: seq<PendingData>)
    ensures Joined(MarkLast(items)) == Joined(items)
    decreases |items|
  {
    if |items| > 1 {
      assert MarkLast(items)[1..] == MarkLast(items[1..]);
      MarkLastJoined(items[1..]);
    }
  }

  /** Some item holds the byte at position `p`. */
  ghost predicate HoldsAt(items: seq<PendingData>, p: nat)
  {
    exists i :: 0 <= i < |items| && items[i].offset <= p < items[i].offset + |items[i].data|
  }

  lemma {:induction false} TilesCover(items: seq<PendingData>, offset: nat, size: nat, p: nat)
    requires Tiled(items, offset, size) && offset <= p < offset + |Joined(items)|
    ensures HoldsAt(items, p)
    decreases |items|
  {
    if p >= offset + |items[0].data| {
      TilesCover(items[1..], offset + |items[0].data|, size, p);
      var i :| 0 <= i < |items[1..]| && items[1..][i].offset <= p < items[1..][i].offset + |items[1..][i].data|;
      assert items[i + 1] == items[1..][i];
    }
  }

  /** A write queues every byte it took. */
  lemma CutCovers(offset: nat, data: seq<byte>, fin: bool, size: nat, p: nat)
    requires size > 0 && offset <= p < offset + |data|
    ensures HoldsAt(Cut(offset, data, fin, size), p)
  {
    var chunks, items := ChunksOf(offset, data, size), Cut(offset, data, fin, size);
    ChunksTile(offset, data, size);
    TilesCover(chunks, offset, size, p);
    var i :| 0 <= i < |chunks| && chunks[i].offset <= p < chunks[i].offset + |chunks[i].data|;
    assert items[i].offset == chunks[i].offset && items[i].data == chunks[i].data;
  }

  /** Why a write is refused, if it is. */
  function WriteRefusal(closed: bool, length: nat, available: nat, nextOffset: nat, maxOffset: nat): Option<StreamError>
  {
    if closed then Some(WriteAfterFin)
    else if length > available then Some(SendBufferFull)
    else if nextOffset + length > U64_MAX then Some(InvalidOffset)
    else if nextOffset + length > maxOffset then Some(FlowControlViolation)
    else None
  }

  // ---- The send half as a value ----

  datatype SendQueue = SendQueue(maxOffset: nat, nextOffset: nat, queuedBytes: nat, finRequested: bool, finSent: bool,
          queue: seq<PendingData>)

  predicate WriteAllowed(q: SendQueue, length: nat, maxBuffer: nat)
  {
    WriteRefusal(q.finRequested || q.finSent, length, SatSub(maxBuffer, q.queuedBytes), q.nextOffset, q.maxOffset).None?
  }

  function Popped(q: SendQueue): SendQueue
    requires |q.queue| > 0
  {
    q.(queue := q.queue[1..], queuedBytes := SatSub(q.queuedBytes, |q.queue[0].data|),
        finSent := q.finSent || q.queue[0].fin)
  }

  function Requeued(q: SendQueue, item: PendingData): SendQueue
  {
    q.(queue := [item] + q.queue, queuedBytes := SatAdd(q.queuedBytes, |item.data|), finSent := q.finSent && !item.fin)
  }

  function Lengthened(q: SendQueue, data: seq<byte>, fin: bool, size: nat): SendQueue
    requires size > 0
  {
    q.(queue := q.queue + Cut(q.nextOffset, data, fin, size), nextOffset := q.nextOffset + |data|,
       queuedBytes := SatAdd(q.queuedBytes, |data|), finRequested := fin)
  }

  class SendStream {
    var maxOffset: nat
    var nextOffset: nat
    var queuedBytes: nat
    var finRequested: bool
    var finSent: bool
    var queue: seq<PendingData>
    /** Every byte written so far. */
    ghost var written: seq<byte>

    function View(): SendQueue
      reads this
    {
      SendQueue(maxOffset, nextOffset, queuedBytes, finRequested, finSent, queue)
    }

    ghost predicate Valid()
      reads this
    {
      && |written| == nextOffset <= U64_MAX
      && Pieces(queue, written, finRequested)
      && (finSent ==> finRequested)
    }

    constructor (maxOffset: nat)
      ensures Valid() && written == [] && queue == [] && !finRequested && this.maxOffset == maxOffset
    {
      this.maxOffset := maxOffset;
      nextOffset := 0;
      queuedBytes := 0;
      finRequested := false;
      finSent := false;
      queue := [];
      written := [];
    }

    /** `write`: all of the data is queued, in chunks, or none of it is. */
    method Write(data: seq<byte>, fin: bool, maxBuffer: nat, maxChunk: nat) returns (r: Result<nat, StreamError>)
      requires Valid()
      modifies this
      ensures Valid() && maxOffset == old(maxOffset) && finSent == old(finSent)
      ensures var refusal := WriteRefusal(old(finRequested || finSent), |data|, SatSub(maxBuffer, old(queuedBytes)),
          old(nextOffset), maxOffset);
        r == if refusal.Some? then Err(refusal.value) else Ok(|data|)
      ensures r.Ok? <==> WriteAllowed(old(View()), |data|, maxBuffer)
      ensures r.Ok? ==> View() == Lengthened(old(View()), data, fin, Max(maxChunk, 1))
      ensures r.Err? ==> unchanged(this)
      ensures r.Ok? ==>
        && written == old(written) + data
        && finRequested == fin
        && queue == old(queue) + Cut(old(nextOffset), data, fin, Max(maxChunk, 1))
        && queuedBytes == SatAdd(old(queuedBytes), |data|)
    {
      if finRequested || finSent { return Err(WriteAfterFin); }
      var available := SatSub(maxBuffer, queuedBytes);
      var accepted := Min(|data|, available);
      if accepted != |data| { return Err(SendBufferFull); }
      var chunkSize := Max(maxChunk, 1);
      var end := nextOffset + |data|;
      if end > U64_MAX { return Err(InvalidOffset); }
      if end > maxOffset { return Err(FlowControlViolation); }
      ghost var text, items := written, queue;
      hide Pieces, CutOk, Piece, Cut, ChunksOf;
      var offset := nextOffset;
      QueueChunks(offset, data, chunkSize);
      FinishCut(items, offset, data, chunkSize);
      nextOffset := offset + |data|;
      queuedBytes := SatAdd(queuedBytes, accepted);
      if fin {
        finRequested := true;
        if |data| == 0 {
          queue := queue + [PendingData(nextOffset, [], true, 0)];
        } else if |queue| > 0 {
          queue := queue[|queue| - 1 := queue[|queue| - 1].(fin := true)];
        }
      }
      written := written + data;
      CutIsOk(text, data, fin, chunkSize);
      Extended(items, Cut(offset, data, fin, chunkSize), text, data, fin, chunkSize);
      r := Ok(accepted);
    }

    /** The chunk loop of `write`. */
    method QueueChunks(start: nat, data: seq<byte>, chunkSize: nat)
      requires chunkSize > 0
      modifies this`queue
      ensures queue == old(queue) + ChunksOf(start, data, chunkSize)
    {
      var offset: nat, rest := start, data;
      while |rest| > 0
        invariant queue + ChunksOf(offset, rest, chunkSize) == old(queue) + ChunksOf(start, data, chunkSize)
        decreases |rest|
      {
        var n := Min(chunkSize, |rest|);
        ghost var q := queue;
        queue := queue + [PendingData(offset, rest[..n], false, 0)];
        assert queue + ChunksOf(offset + n, rest[n..], chunkSize) == q + ChunksOf(offset, rest, chunkSize);
        rest, offset := rest[n..], offset + n;
      }
    }

    /** `pop_sendable`. */
    method PopSendable() returns (r: Option<PendingData>)
      requires Valid()
      modifies this
      ensures Valid() && written == old(written) && finRequested == old(finRequested) && maxOffset == old(maxOffset)
      ensures old(queue) == [] ==> r == None && unchanged(this)
      ensures old(queue) != [] ==>
        && r == Some(old(queue)[0]) && queue == old(queue)[1..]
        && Piece(r.value, written, finRequested) && View() == Popped(old(View()))
        && queuedBytes == SatSub(old(queuedBytes), |r.value.data|)
        && finSent == (old(finSent) || r.value.fin)
    {
      if |queue| == 0 { return None; }
      var item := queue[0];
      queue := queue[1..];
      queuedBytes := SatSub(queuedBytes, |item.data|);
      if item.fin { finSent := true; }
      r := Some(item);
    }

    /** `requeue`: a piece popped earlier goes back to the front. */
    method Requeue(item: PendingData)
      requires Valid() && Piece(item, written, finRequested)
      modifies this
      ensures Valid() && written == old(written) && finRequested == old(finRequested) && maxOffset == old(maxOffset)
      ensures queue == [item] + old(queue) && View() == Requeued(old(View()), item)
      ensures queuedBytes == SatAdd(old(queuedBytes), |item.data|)
      ensures finSent == (old(finSent) && !item.fin)
    {
      queue := [item] + queue;
      queuedBytes := SatAdd(queuedBytes, |item.data|);
      if item.fin { finSent := false; }
    }

    /** `update_window`: the window never shrinks. */
    method UpdateWindow(maxOffset: nat)
      requires Valid()
      modifies this`maxOffset
      ensures Valid() && this.maxOffset == Max(old(this.maxOffset), maxOffset)
    {
      this.maxOffset := Max(this.maxOffset, maxOffset);
    }
  }

  /** Setting FIN on the last queued item, or queueing an empty one, completes the cut. */
  lemma FinishCut(items: seq<PendingData>, offset: nat, data: seq<byte>, size: nat)
    requires size > 0
    ensures var q := items + ChunksOf(offset, data, size);
      && q == items + Cut(offset, data, false, size)
      && (|data| == 0 ==> q + [PendingData(offset, [], true, 0)] == items + Cut(offset, data, true, size))
      && (|data| > 0 ==> |q| > 0 && q[|q| - 1 := q[|q| - 1].(fin := true)] == items + Cut(offset, data, true, size))
  {
    ChunksTile(offset, data, size);
  }

  lemma Extended(items: seq<PendingData>, more: seq<PendingData>, text: seq<byte>, data: seq<byte>, fin: bool,
          size: nat)
    requires Pieces(items, text, false) && CutOk(more, text, data, fin, size)
    ensures Pieces(items + more, text + data, fin)
  {
    forall i | 0 <= i < |items + more| ensures Piece((items + more)[i], text + data, fin) {
      if i < |items| { assert Piece(items[i], text, false); }
          else { assert Piece(more[i - |items|], text + data, fin); }
    }
  }
}
