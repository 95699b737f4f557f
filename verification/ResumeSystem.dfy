/** An offerer fed the true bytes, an accepter with its file store, and a network that loses,
    duplicates and reorders controls and chunks, over any number of reconnects. */
module ResumeSystem {
  import opened Wrappers
  import opened Bytes
  import opened Manifest
  import opened SessionModel
  import opened Storage
  import opened Session

  type Source = map<FileId, seq<byte>>

  // ---- What the offerer says is true ----

  /** The manifest announces the sizes of the source files. */
  ghost predicate Announced(source: Source, o: Core)
  {
    && o.role == Offerer && o.manifest.Some?
    && forall e :: e in o.manifest.value.entries ==> e.fileId in source && |source[e.fileId]| == e.size
  }

  /** A chunk carries the source bytes of the place it names. */
  ghost predicate TrueChunk(source: Source, o: Core, d: DataChunk)
  {
    && ChunkOk(o, d) && d.fileId in source
    && var at := o.begins[d.streamId].baseOffset + d.offset;
       && at + |d.bytes| <= |source[d.fileId]| && d.bytes == source[d.fileId][at..at + |d.bytes|]
       && (d.fin ==> at + |d.bytes| == |source[d.fileId]|)
  }

  ghost predicate TrueChunks(source: Source, o: Core, chunks: seq<DataChunk>)
  {
    forall d :: d in chunks ==> TrueChunk(source, o, d)
  }

  // ---- What the accepter believes and holds ----

  ghost predicate Known(o: Core, entries: seq<Entry>)
    requires o.manifest.Some?
  {
    forall e :: e in entries ==> e in o.manifest.value.entries
  }

  ghost predicate FileKnown(o: Core, id: FileId, f: FileRuntime)
    requires o.manifest.Some?
  {
    && f.entry in o.manifest.value.entries && f.entry.fileId == id
    && (f.activeStream.Some? ==>
          f.activeStream.value in o.begins && o.begins[f.activeStream.value] == Begin(id, f.baseOffset))
  }

  /** Its entries are the offerer's, and its streams were begun for it at its base. */
  ghost predicate AccepterOk(o: Core, a: Core)
  {
    && a.role == Accepter && o.manifest.Some?
    && (a.assembly.Some? ==> Known(o, a.assembly.value))
    && forall id :: id in a.files ==> FileKnown(o, id, a.files[id])
  }

  /** The stored file is a prefix of the source. */
  ghost predicate RecordTrue(src: seq<byte>, r: Record)
  {
    && RecordOk(r) && r.size == |src| && Content(r) <= src
  }

  /** Reception and durability have not got ahead of the file. */
  predicate Reached(f: FileRuntime, r: Record)
  {
    f.receivedOffset <= |Content(r)| && f.durableOffset <= |Content(r)| && (r.complete ==> f.complete)
  }

  ghost predicate StoreOk(source: Source, a: Core, records: map<FileId, Record>)
  {
    && (forall id :: id in source ==> id in records && RecordTrue(source[id], records[id]))
    && (forall id :: id in source && records[id].complete ==> id in a.files)
    && (forall id :: id in a.files ==> id in source && id in records && Reached(a.files[id], records[id]))
  }

  // ---- Steps ----

  lemma OffererMoves(source: Source, o: Core, now: Core, a: Core, controls: seq<Control>, chunks: seq<DataChunk>)
    requires Follows(o, now) && Announced(source, o) && ControlsOk(o, controls)
    requires TrueChunks(source, o, chunks) && AccepterOk(o, a)
    ensures Announced(source, now) && ControlsOk(now, controls) && TrueChunks(source, now, chunks) && AccepterOk(now, a)
  {
    ControlsStay(o, now, controls);
    forall d | d in chunks ensures TrueChunk(source, now, d) {
      assert TrueChunk(source, o, d);
      assert FileFollows(Offerer, o.files[d.fileId], now.files[d.fileId]);
    }
    forall id | id in a.files ensures FileKnown(now, id, a.files[id]) { assert FileKnown(o, id, a.files[id]); }
  }

  lemma Heard(source: Source, o: Core, a: Core, m: Control, now: Core, records: map<FileId, Record>)
    requires AccepterHeard(a, m, now) && now.role == Accepter && Announced(source, o) && ControlOk(o, m)
    requires AccepterOk(o, a) && StoreOk(source, a, records)
    ensures AccepterOk(o, now) && StoreOk(source, now, records)
  {
    if now.files == ResetAll(Accepter, a.files) {
      HeardReset(source, o, a, now.files, records);
    } else if now.files != a.files && m.FileBegin? && m.fileId in a.files {
      HeardBegin(source, o, a, m, now.files, records);
    } else if now.files != a.files {
      HeardManifest(source, o, a, now.files, records);
    }
  }

  /** The files part of both conditions. */
  ghost predicate FilesTrue(source: Source, o: Core, files: Files, records: map<FileId, Record>)
    requires o.manifest.Some?
  {
    && (forall id :: id in files ==> FileKnown(o, id, files[id]))
    && (forall id :: id in source && id in records && records[id].complete ==> id in files)
    && (forall id :: id in files ==> id in source && id in records && Reached(files[id], records[id]))
  }

  lemma HeardReset(source: Source, o: Core, a: Core, files: Files, records: map<FileId, Record>)
    requires AccepterOk(o, a) && StoreOk(source, a, records) && files == ResetAll(Accepter, a.files)
    ensures FilesTrue(source, o, files, records)
  {
    forall id | id in files
      ensures FileKnown(o, id, files[id]) && id in source && id in records && Reached(files[id], records[id])
    {
      assert FileKnown(o, id, a.files[id]) && Reached(a.files[id], records[id]);
    }
  }

  lemma HeardBegin(source: Source, o: Core, a: Core, m: Control, files: Files, records: map<FileId, Record>)
    requires AccepterOk(o, a) && StoreOk(source, a, records) && ControlOk(o, m) && m.FileBegin? && m.fileId in a.files
    requires m.baseOffset == a.files[m.fileId].durableOffset
    requires files == a.files[m.fileId := Begun(a.files[m.fileId], m.streamId, m.baseOffset, m.remainingSize == 0)]
    ensures FilesTrue(source, o, files, records)
  {
    assert FileKnown(o, m.fileId, a.files[m.fileId]) && Reached(a.files[m.fileId], records[m.fileId]);
  }

  lemma HeardManifest(source: Source, o: Core, a: Core, files: Files, records: map<FileId, Record>)
    requires Announced(source, o) && AccepterOk(o, a) && StoreOk(source, a, records)
    requires a.files == map[] && a.assembly.Some? && files == Installed(a.assembly.value)
    ensures FilesTrue(source, o, files, records)
  {
    InstalledFresh(a.assembly.value);
    forall id | id in files
      ensures FileKnown(o, id, files[id]) && id in source && id in records && Reached(files[id], records[id])
    {
      assert files[id].entry in a.assembly.value;
    }
  }

  /** A true chunk the accepter takes goes to a place its file has reached, agrees with what is
      there and keeps the file a prefix; FIN never comes early. */
  lemma ChunkTrue(source: Source, o: Core, a: Core, records: map<FileId, Record>, d: DataChunk)
    requires Announced(source, o) && AccepterOk(o, a) && StoreOk(source, a, records) && TrueChunk(source, o, d)
    requires forall id :: id in a.files && a.files[id].complete ==> a.files[id].activeStream.None?
    requires Expects(a, d)
    ensures FinOk(a.files[d.fileId], d)
    ensures Stores(records, d.fileId, a.files[d.fileId].receivedOffset, d.bytes)
    ensures var f := a.files[d.fileId]; var r := Written(records[d.fileId], f.receivedOffset, d.bytes);
      RecordTrue(source[d.fileId], r) && Reached(Taken(f, d), r) && !r.complete
    ensures d.bytes == source[d.fileId][a.files[d.fileId].receivedOffset..a.files[d.fileId].receivedOffset + |d.bytes|]
  {
    var id := d.fileId;
    var f, r := a.files[id], records[id];
    assert FileKnown(o, id, f) && Reached(f, r) && RecordTrue(source[id], r);
    TrueBytes(Content(r), f.receivedOffset, d.bytes, source[id]);
    AppendedHolds(Content(r), f.receivedOffset, d.bytes);
    hide Agrees, Appended;
  }

  // ---- The system ----

  datatype Action =
    | StartOfferer | StartAccepter | Accept(accepted: bool)
    | OffererSends | AccepterSends
    | ControlToAccepter(index: nat) | ControlToOfferer(index: nat) | ChunkToAccepter(index: nat)
    | Respond(index: nat)
    | Feed(fileId: FileId, length: nat, fin: bool)
    | StoreCheckpoint(fileId: FileId, durable: DurableState)
    | StoreComplete(fileId: FileId, finalSize: u64, contentHash: Digest)
    | ReconnectOfferer | ReconnectAccepter

  /** A write the store performed. */
  datatype Write = Write(fileId: FileId, offset: nat, bytes: seq<byte>)

  ghost predicate TrueWrite(source: Source, w: Write)
  {
    && w.fileId in source && w.offset + |w.bytes| <= |source[w.fileId]|
    && w.bytes == source[w.fileId][w.offset..w.offset + |w.bytes|]
  }

  class ResumeLink {
    const source: Source
    const offerer: TransferSession
    const accepter: TransferSession
    const storage: FileStorage
    /** Everything ever sent; the network may deliver any of it at any time, again and again. */
    var toAccepter: seq<Control>
    var toOfferer: seq<Control>
    var chunks: seq<DataChunk>
    var writes: seq<Write>

    ghost predicate Valid()
      reads this, offerer, accepter, storage
    {
      && offerer != accepter && offerer.Valid() && accepter.Valid() && storage.Valid()
      && Truth(source, offerer.State(), accepter.State(), toAccepter, chunks, offerer.data, storage.records)
      && (forall w :: w in writes ==> TrueWrite(source, w))
    }

    constructor (source: Source, offerer: TransferSession, accepter: TransferSession, storage: FileStorage)
      requires offerer != accepter && offerer.Valid() && accepter.Valid() && storage.Valid()
      requires offerer.role == Offerer && offerer.data == [] && offerer.manifest.Some?
      requires forall e :: e in offerer.manifest.value.entries ==> e.fileId in source && |source[e.fileId]| == e.size
      requires accepter.role == Accepter && accepter.files == map[] && accepter.assembly.None?
      requires forall id :: id in source ==> Registered(source[id], storage.records, id)
      ensures Valid() && writes == []
      ensures this.source == source && this.offerer == offerer && this.accepter == accepter && this.storage == storage
    {
      this.source, this.offerer, this.accepter, this.storage := source, offerer, accepter, storage;
      toAccepter, toOfferer, chunks, writes := [], [], [], [];
    }

    // ---- The offerer's side ----

    method OffererStep(act: Action)
      requires Valid()
      modifies this`toAccepter, this`chunks, offerer
      ensures Valid() && Follows(old(offerer.State()), offerer.State())
    {
      hide Sound, Follows, Truth, CoreOk;
      ghost var o := offerer.State();
      FollowsSame(o);
      match act {
        case StartOfferer => var r := offerer.Start();
        case ReconnectOfferer => var r := offerer.Reconnect();
        case ControlToOfferer(index) => if index < |toOfferer| { var r := offerer.HandleControl(toOfferer[index]); }
        case OffererSends => OffererSends();
        case Feed(id, length, fin) => FeedOfferer(id, length, fin);
        case _ =>
      }
      if !act.Feed? && !act.OffererSends? {
        TruthOfferer(source, o, offerer.State(), accepter.State(), toAccepter, chunks, old(offerer.data),
            offerer.data, storage.records);
      }
    }

    method OffererSends()
      requires Valid()
      modifies this`toAccepter, this`chunks, offerer
      ensures Valid() && offerer.State() == old(offerer.State())
    {
      hide Sound, Follows, CoreOk, Announced, TrueChunk, AccepterOk, StoreOk;
      var controls := offerer.DrainControl();
      var data := offerer.DrainData();
      toAccepter, chunks := toAccepter + controls, chunks + data;
    }

    /** The application hands over the next true bytes of a file. */
    method FeedOfferer(id: FileId, length: nat, fin: bool)
      requires Valid()
      modifies offerer
      ensures Valid() && Follows(old(offerer.State()), offerer.State())
    {
      hide Sound, Follows, Truth, CoreOk, ChunkOk, Announced;
      ghost var o := offerer.State();
      FollowsSame(o);
      if id !in offerer.files || id !in source { return; }
      var at: nat := offerer.files[id].baseOffset + offerer.files[id].sendOffset;
      if at + length > |source[id]| { return; }
      ghost var queued := offerer.data;
      var r := offerer.QueueData(id, source[id][at..at + length], fin);
      TruthOfferer(source, o, offerer.State(), accepter.State(), toAccepter, chunks, queued, queued, storage.records);
      if r.Ok? {
        QueuedSound(offerer.State(), offerer.controls, offerer.data, r.value);
        TruthFed(source, offerer.State(), accepter.State(), toAccepter, chunks, queued, r.value, storage.records);
      }
    }

    // ---- The accepter's side ----

    method AccepterStep(act: Action)
      requires Valid()
      modifies this`toOfferer, accepter, storage
      ensures Valid() && Follows(old(accepter.State()), accepter.State())
    {
      hide Sound, Follows, Truth, CoreOk;
      ghost var a := accepter.State();
      FollowsSame(a);
      match act
      case StartAccepter =>
        var r := accepter.Start();
        TruthSame(source, offerer.State(), a, accepter.State(), toAccepter, chunks, offerer.data, storage.records);
      case Accept(accepted) =>
        var r := accepter.AcceptOffer(accepted);
        TruthSame(source, offerer.State(), a, accepter.State(), toAccepter, chunks, offerer.data, storage.records);
      case ReconnectAccepter =>
        var r := accepter.Reconnect();
        TruthReset(source, offerer.State(), a, accepter.State(), toAccepter, chunks, offerer.data, storage.records);
      case AccepterSends =>
        var controls := accepter.DrainControl();
        toOfferer := toOfferer + controls;
      case ControlToAccepter(index) =>
        if index < |toAccepter| {
          var r := accepter.HandleControl(toAccepter[index]);
          TruthHeard(source, offerer.State(), a, toAccepter[index], accepter.State(), toAccepter, chunks,
              offerer.data, storage.records);
        }
      case Respond(index) => if index < |toAccepter|
          && toAccepter[index].ResumeQuery? { RespondToQuery(toAccepter[index]); }
      case StoreCheckpoint(id, durable) => CheckpointFile(id, durable);
      case StoreComplete(id, size, hash) => CompleteFile(id, size, hash);
      case _ =>
    }

    method RespondToQuery(m: Control)
      requires Valid() && m.ResumeQuery?
      modifies accepter
      ensures Valid() && Follows(old(accepter.State()), accepter.State())
    {
      hide Sound, Follows, Truth, CoreOk;
      ghost var a := accepter.State();
      TruthRole(source, offerer.State(), a, toAccepter, chunks, offerer.data, storage.records);
      var r := accepter.RespondWithStorage(storage, m.fileId, m.contentHash, m.size);
      TruthDurable(source, offerer.State(), a, accepter.State(), toAccepter, chunks, offerer.data, storage.records,
          m.fileId);
    }

    method CheckpointFile(id: FileId, durable: DurableState)
      requires Valid()
      modifies accepter, storage
      ensures Valid() && Follows(old(accepter.State()), accepter.State())
    {
      hide Sound, Follows, Truth, CoreOk, CheckpointStored;
      ghost var a, records := accepter.State(), storage.records;
      var r := accepter.CheckpointWithStorage(storage, id, durable);
      TruthCheckpoint(source, offerer.State(), a, accepter.State(), toAccepter, chunks, offerer.data, records,
          storage.records, id);
    }

    method CompleteFile(id: FileId, size: u64, hash: Digest)
      requires Valid()
      modifies accepter, storage
      ensures Valid() && Follows(old(accepter.State()), accepter.State())
    {
      hide Sound, Follows, Truth, CoreOk;
      ghost var a, records := accepter.State(), storage.records;
      TruthRole(source, offerer.State(), a, toAccepter, chunks, offerer.data, records);
      var r := accepter.CompleteWithStorage(storage, id, size, hash);
      assert forall k :: k in storage.records ==> RecordOk(storage.records[k]);
      TruthComplete(source, offerer.State(), a, accepter.State(), toAccepter, chunks, offerer.data, records,
          storage.records, id);
    }

    /** A chunk arrives. Whenever the accepter takes its bytes the store writes them: no data
        conflict, no gap and no other storage error can occur, and FIN never comes early. */
    method ChunkArrives(d: DataChunk) returns (r: Outcome)
      requires Valid() && d in chunks
      modifies this`writes, accepter, storage
      ensures Valid() && Follows(old(accepter.State()), accepter.State())
      ensures !(r.Err? && r.error.Stored?)
      ensures Expects(old(accepter.State()), d) ==>
        && r.Ok? && writes == old(writes) + [Write(d.fileId, old(accepter.files)[d.fileId].receivedOffset, d.bytes)]
      ensures !Expects(old(accepter.State()), d) ==> writes == old(writes) && storage.records == old(storage.records)
    {
      hide Sound, Follows, Truth, CoreOk, Expects, FinOk, Taken, Written, Stores, TrueWrite, RecordTrue, Reached;
      ghost var a, records := accepter.State(), storage.records;
      var taken := Expectation(accepter, d);
      assert taken == Expects(a, d);
      TruthChunk(source, offerer.State(), a, toAccepter, chunks, offerer.data, records, d, accepter.controls,
          accepter.data);
      assert taken ==> d.fileId in accepter.files by { ExpectsFile(a, d); }
      var offset := if d.fileId in accepter.files then accepter.files[d.fileId].receivedOffset else 0;
      r := accepter.HandleDataWithStorage(storage, d);
      if taken {
        writes := writes + [Write(d.fileId, offset, d.bytes)];
        TruthTaken(source, offerer.State(), a, accepter.State(), toAccepter, chunks, offerer.data, records, d,
            storage.records);
      } else {
        TruthSame(source, offerer.State(), a, accepter.State(), toAccepter, chunks, offerer.data, storage.records);
      }
    }
  }

  lemma ExpectsFile(a: Core, d: DataChunk)
    ensures Expects(a, d) ==> d.fileId in a.files
  {
  }

  /** Whether the accepter will take the chunk, as it stands. */
  method Expectation(accepter: TransferSession, d: DataChunk) returns (taken: bool)
    requires accepter.Valid()
    ensures taken == Expects(accepter.State(), d)
  {
    hide Sound;
    if accepter.role != Accepter || d.fileId !in accepter.files { return false; }
    var f := accepter.files[d.fileId];
    taken := f.activeStream == Some(d.streamId) && f.baseOffset + d.offset == f.receivedOffset
        && f.receivedOffset + |d.bytes| <= f.entry.size;
  }

  /** Any run whatsoever: whatever the network does and however often either side reconnects,
      every byte written is the source's byte at that place, every stored file is a prefix of
      its source and equals it once complete, and the store never refuses a write. */
  method RunResume(link: ResumeLink, script: seq<Action>) returns (refusedWrites: nat)
    requires link.Valid()
    modifies link, link.offerer, link.accepter, link.storage
    ensures link.Valid() && refusedWrites == 0
    ensures forall w :: w in link.writes ==> TrueWrite(link.source, w)
    ensures forall id :: id in link.source ==>
      && id in link.storage.records && Restored(link.source[id], link.storage.records[id])
    ensures Follows(old(link.accepter.State()), link.accepter.State())
    ensures Follows(old(link.offerer.State()), link.offerer.State())
  {
    hide Sound, Follows, Truth, CoreOk, Expects, Restored;
    ghost var o, a := link.offerer.State(), link.accepter.State();
    FollowsSame(o);
    FollowsSame(a);
    refusedWrites := 0;
    for i := 0 to |script|
      invariant link.Valid() && refusedWrites == 0
      invariant Follows(o, link.offerer.State()) && Follows(a, link.accepter.State())
    {
      ghost var o1, a1 := link.offerer.State(), link.accepter.State();
      FollowsSame(o1);
      FollowsSame(a1);
      var act := script[i];
      if act.ChunkToAccepter? {
        if act.index < |link.chunks| {
          var r := link.ChunkArrives(link.chunks[act.index]);
          refusedWrites := refusedWrites + Refusals(r);
        }
      } else if OffererActs(act) {
        link.OffererStep(act);
      } else {
        link.AccepterStep(act);
      }
      FollowsTransitive(o, o1, link.offerer.State());
      FollowsTransitive(a, a1, link.accepter.State());
    }
    forall id | id in link.source
      ensures id in link.storage.records && Restored(link.source[id], link.storage.records[id])
    {
      RestoredFile(link.source, link.offerer.State(), link.accepter.State(), link.toAccepter, link.chunks,
          link.offerer.data, link.storage.records, id);
    }
  }

  predicate OffererActs(act: Action)
  {
    act.StartOfferer? || act.ReconnectOfferer? || act.ControlToOfferer? || act.OffererSends? || act.Feed?
  }

  function Refusals(r: Outcome): nat
  {
    if r.Err? && r.error.Stored? then 1 else 0
  }

  ghost predicate Restored(src: seq<byte>, r: Record)
  {
    Content(r) <= src && (r.complete ==> r.installed == Some(src))
  }

  lemma RestoredFile(source: Source, o: Core, a: Core, controls: seq<Control>, chunks: seq<DataChunk>,
          queued: seq<DataChunk>,
                     records: map<FileId, Record>, id: FileId)
    requires Truth(source, o, a, controls, chunks, queued, records) && id in source
    ensures id in records && Restored(source[id], records[id])
  {
    var src, r := source[id], records[id];
    assert RecordTrue(src, r);
    if r.complete { assert r.installed.value == src[..|src|] == src; }
  }

  /** The file is registered, and what an earlier session stored of it is a prefix of the source. */
  ghost predicate Registered(src: seq<byte>, records: map<FileId, Record>, id: FileId)
  {
    id in records && records[id].size == |src| && !records[id].complete && Content(records[id]) <= src
  }

  /** The file is in place in the store and complete in the session, or was before. */
  ghost predicate FileMoved(files: Files, now: Files, records: map<FileId, Record>, after: map<FileId, Record>,
          id: FileId)
  {
    && id in files && id in records && id in after && after.Keys == records.Keys
    && (forall k :: k in after && k != id ==> after[k] == records[k])
    && Content(after[id]) == Content(records[id]) && after[id].size == records[id].size
    && now.Keys == files.Keys && (forall k :: k in now && k != id ==> now[k] == files[k])
    && now[id] == files[id].(complete := true,
          activeStream := if files[id].complete then files[id].activeStream else None)
  }

  // ---- The truth of the whole system, step by step ----

  ghost predicate Truth(source: Source, o: Core, a: Core, controls: seq<Control>, chunks: seq<DataChunk>,
          queued: seq<DataChunk>, records: map<FileId, Record>)
  {
    && Announced(source, o) && ControlsOk(o, controls) && TrueChunks(source, o, chunks) && TrueChunks(source, o, queued)
    && AccepterOk(o, a) && StoreOk(source, a, records)
  }

  lemma TruthOfferer(source: Source, o: Core, now: Core, a: Core, controls: seq<Control>, chunks: seq<DataChunk>,
                     queued: seq<DataChunk>, requeued: seq<DataChunk>, records: map<FileId, Record>)
    requires Truth(source, o, a, controls, chunks, queued, records) && Follows(o, now)
    requires requeued == queued || requeued == []
    ensures Truth(source, now, a, controls, chunks, requeued, records)
  {
    hide Announced, AccepterOk, StoreOk, Follows, TrueChunk, ControlsOk;
    OffererMoves(source, o, now, a, controls, chunks);
    OffererMoves(source, o, now, a, controls, queued);
  }

  lemma QueuedSound(o: Core, controls: seq<Control>, data: seq<DataChunk>, d: DataChunk)
    requires Sound(o, controls, data) && d in data
    ensures ChunkOk(o, d) && d.fileId in o.files && o.files[d.fileId].entry.fileId == d.fileId
    ensures o.manifest.Some? ==> o.files[d.fileId].entry in o.manifest.value.entries
  {
    assert ChunkOk(o, d);
  }

  lemma TruthFed(source: Source, o: Core, a: Core, controls: seq<Control>, chunks: seq<DataChunk>,
                 queued: seq<DataChunk>, d: DataChunk, records: map<FileId, Record>)
    requires Truth(source, o, a, controls, chunks, queued, records)
    requires ChunkOk(o, d) && d.fileId in source && d.fileId in o.files
    requires o.files[d.fileId].entry.fileId == d.fileId
    requires (o.manifest.Some? ==> o.files[d.fileId].entry in o.manifest.value.entries)
    requires var at := o.begins[d.streamId].baseOffset + d.offset;
      at + |d.bytes| <= |source[d.fileId]| && d.bytes == source[d.fileId][at..at + |d.bytes|]
    ensures Truth(source, o, a, controls, chunks, queued + [d], records)
  {
    hide AccepterOk, StoreOk, ControlsOk, TrueChunk;
    FedTrue(source, o, d);
  }

  lemma FedTrue(source: Source, o: Core, d: DataChunk)
    requires Announced(source, o) && ChunkOk(o, d) && d.fileId in source && d.fileId in o.files
    requires o.files[d.fileId].entry.fileId == d.fileId
    requires (o.manifest.Some? ==> o.files[d.fileId].entry in o.manifest.value.entries)
    requires var at := o.begins[d.streamId].baseOffset + d.offset;
      at + |d.bytes| <= |source[d.fileId]| && d.bytes == source[d.fileId][at..at + |d.bytes|]
    ensures TrueChunk(source, o, d)
  {
    assert |source[d.fileId]| == o.files[d.fileId].entry.size;
  }

  lemma TruthSame(source: Source, o: Core, a: Core, now: Core, controls: seq<Control>, chunks: seq<DataChunk>,
                  queued: seq<DataChunk>, records: map<FileId, Record>)
    requires Truth(source, o, a, controls, chunks, queued, records)
    requires now.role == a.role && now.files == a.files && now.assembly == a.assembly
    ensures Truth(source, o, now, controls, chunks, queued, records)
  {
  }

  lemma TruthReset(source: Source, o: Core, a: Core, now: Core, controls: seq<Control>, chunks: seq<DataChunk>,
                   queued: seq<DataChunk>, records: map<FileId, Record>)
    requires Truth(source, o, a, controls, chunks, queued, records)
    requires now.role == a.role && now.assembly == a.assembly
    requires (now.files == a.files || now.files == ResetAll(a.role, a.files))
    ensures Truth(source, o, now, controls, chunks, queued, records)
  {
    if now.files == ResetAll(Accepter, a.files) { HeardReset(source, o, a, now.files, records); }
    hide ResetAll, FileKnown, Reached, Announced, TrueChunks, ControlsOk;
  }

  lemma TruthHeard(source: Source, o: Core, a: Core, m: Control, now: Core, controls: seq<Control>,
          chunks: seq<DataChunk>,
                   queued: seq<DataChunk>, records: map<FileId, Record>)
    requires Truth(source, o, a, controls, chunks, queued, records) && m in controls && now.role == a.role
    requires a.role == Accepter ==> AccepterHeard(a, m, now)
    ensures Truth(source, o, now, controls, chunks, queued, records)
  {
    Heard(source, o, a, m, now, records);
    hide AccepterOk, StoreOk, Announced, TrueChunks, AccepterHeard;
  }

  lemma TruthRole(source: Source, o: Core, a: Core, controls: seq<Control>, chunks: seq<DataChunk>,
                  queued: seq<DataChunk>, records: map<FileId, Record>)
    requires Truth(source, o, a, controls, chunks, queued, records)
    ensures a.role == Accepter && o.role == Offerer && o.manifest.Some?
  {
  }

  /** One file of the accepter and its record change; the new pair is true by itself. */
  lemma TruthOne(source: Source, o: Core, a: Core, now: Core, controls: seq<Control>, chunks: seq<DataChunk>,
                 queued: seq<DataChunk>, records: map<FileId, Record>, after: map<FileId, Record>, id: FileId)
    requires Truth(source, o, a, controls, chunks, queued, records) && now.role == a.role && now.assembly == a.assembly
    requires now.files.Keys == a.files.Keys && after.Keys == records.Keys
    requires id in a.files && id in source && id in records
    requires forall k :: k in now.files && k != id ==> now.files[k] == a.files[k]
    requires forall k :: k in after && k != id ==> after[k] == records[k]
    requires FileKnown(o, id, now.files[id]) && RecordTrue(source[id], after[id]) && Reached(now.files[id], after[id])
    ensures Truth(source, o, now, controls, chunks, queued, after)
  {
    hide Announced, TrueChunks, ControlsOk, FileKnown, RecordTrue, Reached, Known;
    TruthFile(source, o, a, controls, chunks, queued, records, id);
  }

  /** What holds of one file of the accepter. */
  lemma TruthFile(source: Source, o: Core, a: Core, controls: seq<Control>, chunks: seq<DataChunk>,
                  queued: seq<DataChunk>, records: map<FileId, Record>, id: FileId)
    requires Truth(source, o, a, controls, chunks, queued, records) && id in a.files
    ensures o.manifest.Some? && id in source && id in records
    ensures FileKnown(o, id, a.files[id]) && RecordTrue(source[id], records[id]) && Reached(a.files[id], records[id])
  {
  }

  lemma TruthDurable(source: Source, o: Core, a: Core, now: Core, controls: seq<Control>, chunks: seq<DataChunk>,
                     queued: seq<DataChunk>, records: map<FileId, Record>, id: FileId)
    requires Truth(source, o, a, controls, chunks, queued, records) && now.role == a.role && now.assembly == a.assembly
    requires now.files == a.files
      || (id in a.files && id in records && records[id].durable.durableOffset <= a.files[id].entry.size
          && now.files == a.files[id := a.files[id].(durableOffset := records[id].durable.durableOffset,
               checkpointId := records[id].durable.checkpointId, stateHash := records[id].durable.stateHash)])
    ensures Truth(source, o, now, controls, chunks, queued, records)
  {
    if now.files == a.files {
      TruthSame(source, o, a, now, controls, chunks, queued, records);
    } else {
      TruthFile(source, o, a, controls, chunks, queued, records, id);
      hide Truth;
      assert now.files.Keys == a.files.Keys;
      TruthOne(source, o, a, now, controls, chunks, queued, records, records, id);
    }
  }

  lemma TruthCheckpoint(source: Source, o: Core, a: Core, now: Core, controls: seq<Control>, chunks: seq<DataChunk>,
                        queued: seq<DataChunk>, records: map<FileId, Record>, after: map<FileId, Record>, id: FileId)
    requires Truth(source, o, a, controls, chunks, queued, records) && now.role == a.role && now.assembly == a.assembly
    requires after == records || CheckpointStored(records, after, id)
    requires forall k :: k in after ==> RecordOk(after[k])
    requires now.files == a.files
      || (id in a.files && now.files.Keys == a.files.Keys && now.files == a.files[id := now.files[id]]
          && SameStream(a.files[id], now.files[id]) && now.files[id].durableOffset <= now.files[id].receivedOffset)
    ensures Truth(source, o, now, controls, chunks, queued, after)
  {
    if id in a.files {
      TruthFile(source, o, a, controls, chunks, queued, records, id);
      hide Truth;
      CheckpointTrue(source[id], o, id, a.files[id], now.files[id], records[id], after[id]);
      TruthOne(source, o, a, now, controls, chunks, queued, records, after, id);
    } else {
      TruthRecords(source, o, a, now, controls, chunks, queued, records, after, id);
    }
  }

  lemma CheckpointTrue(src: seq<byte>, o: Core, id: FileId, f: FileRuntime, g: FileRuntime, r: Record, s: Record)
    requires o.manifest.Some? && FileKnown(o, id, f) && RecordTrue(src, r) && Reached(f, r) && RecordOk(s)
    requires g == f || (SameStream(f, g) && g.durableOffset <= g.receivedOffset)
    requires Content(s) == Content(r) && s.size == r.size && s.complete == r.complete
    ensures FileKnown(o, id, g) && RecordTrue(src, s) && Reached(g, s)
  {
  }

  /** A record without a file of the accepter yet changes. */
  lemma TruthRecords(source: Source, o: Core, a: Core, now: Core, controls: seq<Control>, chunks: seq<DataChunk>,
                     queued: seq<DataChunk>, records: map<FileId, Record>, after: map<FileId, Record>, id: FileId)
    requires Truth(source, o, a, controls, chunks, queued, records) && now.role == a.role && now.assembly == a.assembly
    requires now.files == a.files && id !in a.files
    requires after == records || CheckpointStored(records, after, id)
    requires forall k :: k in after ==> RecordOk(after[k])
    ensures Truth(source, o, now, controls, chunks, queued, after)
  {
    hide Announced, TrueChunks, ControlsOk, Content, RecordOk, FileKnown, Reached;
  }

  lemma TruthComplete(source: Source, o: Core, a: Core, now: Core, controls: seq<Control>, chunks: seq<DataChunk>,
                      queued: seq<DataChunk>, records: map<FileId, Record>, after: map<FileId, Record>, id: FileId)
    requires Truth(source, o, a, controls, chunks, queued, records) && now.role == a.role && now.assembly == a.assembly
    requires forall k :: k in after ==> RecordOk(after[k])
    requires (now.files == a.files && after == records) || FileMoved(a.files, now.files, records, after, id)
    ensures Truth(source, o, now, controls, chunks, queued, after)
  {
    if FileMoved(a.files, now.files, records, after, id) {
      TruthFile(source, o, a, controls, chunks, queued, records, id);
      hide Truth;
      TruthOne(source, o, a, now, controls, chunks, queued, records, after, id);
    } else {
      TruthSame(source, o, a, now, controls, chunks, queued, records);
    }
  }

  lemma DoneInactive(a: Core, sent: seq<Control>, data: seq<DataChunk>)
    requires Sound(a, sent, data)
    ensures forall id :: id in a.files && a.files[id].complete ==> a.files[id].activeStream.None?
  {
  }

  lemma TruthChunk(source: Source, o: Core, a: Core, controls: seq<Control>, chunks: seq<DataChunk>,
          queued: seq<DataChunk>,
                   records: map<FileId, Record>, d: DataChunk, sent: seq<Control>, data: seq<DataChunk>)
    requires Truth(source, o, a, controls, chunks, queued, records) && d in chunks && Sound(a, sent, data)
    ensures Expects(a, d) ==> WellPlaced(source, o, a, records, d)
  {
    DoneInactive(a, sent, data);
    hide Sound, Announced, ControlsOk, TrueChunk, RecordTrue, Reached, Taken, Written;
    if Expects(a, d) { ChunkTrue(source, o, a, records, d); }
  }

  /** All the consequences of `ChunkTrue`. */
  ghost predicate WellPlaced(source: Source, o: Core, a: Core, records: map<FileId, Record>, d: DataChunk)
    requires Expects(a, d)
  {
    var id := d.fileId;
    var f := a.files[id];
    && id in records && id in source && FinOk(f, d) && Stores(records, id, f.receivedOffset, d.bytes)
    && TrueWrite(source, Write(id, f.receivedOffset, d.bytes))
    && RecordTrue(source[id], Written(records[id], f.receivedOffset, d.bytes))
    && Reached(Taken(f, d), Written(records[id], f.receivedOffset, d.bytes))
  }

  lemma TruthTaken(source: Source, o: Core, a: Core, now: Core, controls: seq<Control>, chunks: seq<DataChunk>,
          queued: seq<DataChunk>,
                   records: map<FileId, Record>, d: DataChunk, after: map<FileId, Record>)
    requires Truth(source, o, a, controls, chunks, queued, records)
    requires Expects(a, d) && WellPlaced(source, o, a, records, d)
    requires now.role == a.role && now.assembly == a.assembly
    requires now.files == a.files[d.fileId := Taken(a.files[d.fileId], d)]
    requires after == records[d.fileId := Written(records[d.fileId], a.files[d.fileId].receivedOffset, d.bytes)]
    ensures Truth(source, o, now, controls, chunks, queued, after)
  {
    TruthFile(source, o, a, controls, chunks, queued, records, d.fileId);
    hide Truth, RecordTrue, Reached, Written, Stores;
    TruthOne(source, o, a, now, controls, chunks, queued, records, after, d.fileId);
  }
}
