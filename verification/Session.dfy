/** One side of a resumable transfer: the control handlers, the data path and reconnects. */
module Session {
  import opened Wrappers
  import opened Bytes
  import opened Manifest
  import Sums
  import opened SessionModel
  import opened Storage

  datatype Config = Config(maxParallelFiles: nat, protocolVersion: byte, firstDataStreamId: u64)

  /** `SessionConfig::validate`, without the idle timeout. */
  predicate ConfigOk(c: Config) { c.maxParallelFiles > 0 && c.firstDataStreamId > 0 }

  datatype CoreError =
    | InvalidState
    | InvalidRole
    | UnknownFile
    | TransferIdMismatch
    | ProtocolVersionMismatch
    | ManifestMismatch
    | ManifestCountMismatch
    | ManifestSizeMismatch
    | ManifestNotReady
    | ManifestRequired
    | DuplicateEntry
    | SizeOverflow
    | BadManifest(cause: ManifestError)
    | InvalidCheckpoint
    | InvalidFileOffset
    | InvalidStream
    | InvalidDataOffset
    | DataExceedsFile
    | ActiveFileLimit
    | FileIntegrity
    | Stored(error: StorageError)

  datatype Event =
    | StateMoved(from: SessionState, to: SessionState)
    | DataReceived(fileId: FileId, absoluteOffset: nat, bytes: seq<byte>, fin: bool)
    | DuplicateData(fileId: FileId, offset: u64)
    | DuplicateControl
    | Checkpointed(fileId: FileId, durableOffset: u64, checkpointId: u64)
    | FileReadyToComplete(fileId: FileId)
    | FileDone(fileId: FileId)
    | TransferCompleted

  type Outcome = Result<seq<Event>, CoreError>

  datatype Assembly = Assembly(expectedCount: u64, expectedSize: u64, digest: Digest, entries: seq<Entry>)

  /** Core and queues fit together. */
  ghost predicate Sound(c: Core, controls: seq<Control>, data: seq<DataChunk>)
  {
    CoreOk(c) && ControlsOk(c, controls) && ChunksOk(c, data)
  }

  /** The queues keep up with a step of the core. */
  lemma SoundNext(base: Core, was: Core, now: Core, controls: seq<Control>, data: seq<DataChunk>)
    requires Sound(was, controls, data) && CoreOk(now) && Follows(was, now) && Follows(base, was)
    ensures Sound(now, controls, data) && Follows(base, now)
  {
    hide CoreOk, Follows, ControlsOk, ChunksOk;
    ControlsStay(was, now, controls);
    ChunksStay(was, now, data);
    FollowsTransitive(base, was, now);
  }

  lemma SoundCore(c: Core, controls: seq<Control>, data: seq<DataChunk>)
    requires Sound(c, controls, data)
    ensures CoreOk(c)
  {
  }

  lemma FollowsSame(c: Core)
    ensures Follows(c, c)
  {
  }

  /** What the invariant says of one file. */
  lemma FileFacts(c: Core, id: FileId)
    requires CoreOk(c) && id in c.files
    ensures FileOk(c.role, c.files[id]) && c.files[id].entry.fileId == id
    ensures c.role == Offerer && c.files[id].activeStream.Some? ==>
      var st := c.files[id].activeStream.value; st in c.begins && c.begins[st] == Begin(id, c.files[id].baseOffset)
  {
  }

  lemma PhaseFacts(c: Core)
    requires CoreOk(c)
    ensures PhaseOk(c) && FilesMatch(c.files, c.manifest)
    ensures forall id :: id in c.files ==> c.files[id].entry.fileId == id
  {
  }

  function Items(entries: seq<Entry>): seq<Control>
  {
    if |entries| == 0 then [] else Items(entries[..|entries| - 1]) + [ManifestItem(entries[|entries| - 1])]
  }

  /** What the offerer sends before anything else, and again after a reconnect. */
  function ManifestMessages(transferId: nat, config: Config, m: Manifest): seq<Control>
    requires |m.entries| <= U64_MAX
  {
    [SessionHello(transferId, config.protocolVersion, m.digest), ManifestBegin(|m.entries|, m.totalSize, m.digest)]
    + Items(m.entries) + [ManifestEnd(m.digest)]
  }

  /** The queries about these files, or about those of them that are not complete. */
  function Queries(entries: seq<Entry>, files: Files, incompleteOnly: bool): seq<Control>
  {
    if |entries| == 0 then [] else
    var before, e := Queries(entries[..|entries| - 1], files, incompleteOnly), entries[|entries| - 1];
    if incompleteOnly && e.fileId in files && files[e.fileId].complete then before
    else before + [ResumeQuery(e.fileId, e.contentHash, e.size)]
  }

  function Completions(order: seq<FileId>, files: Files): seq<Control>
    requires forall i :: 0 <= i < |order| ==> order[i] in files
  {
    if |order| == 0 then [] else
    var e := files[order[|order| - 1]].entry;
    Completions(order[..|order| - 1], files) + [FileComplete(order[|order| - 1], e.size, e.contentHash)]
  }

  /** `order` lists the complete files that are not in `rest`, by ascending id and below all of `rest`. */
  ghost predicate CompleteInOrder(order: seq<FileId>, files: Files, rest: set<FileId>)
  {
    && (forall i, j :: 0 <= i < j < |order| ==> order[i] < order[j])
    && (forall i :: 0 <= i < |order| ==> order[i] in files && files[order[i]].complete && forall k :: k in rest ==>
          order[i] < k)
    && (forall id :: id in files && files[id].complete && id !in rest ==> id in order)
  }

  /** One message for each complete file, in order of the ids, and the totals at the end. */
  ghost predicate Reports(files: Files, controls: seq<Control>, last: Control)
  {
    exists order :: CompleteInOrder(order, files, {}) && controls == Completions(order, files) + [last]
  }

  lemma NextComplete(order: seq<FileId>, files: Files, rest: set<FileId>, id: FileId)
    requires CompleteInOrder(order, files, rest) && id in rest && id in files && files[id].complete && forall k ::
      k in rest ==> id <= k
    ensures CompleteInOrder(order + [id], files, rest - {id})
    ensures Completions(order + [id], files) == Completions(order, files) +
        [FileComplete(id, files[id].entry.size, files[id].entry.contentHash)]
  {
    assert (order + [id])[..|order|] == order;
  }

  lemma NoneInOrder(files: Files, rest: set<FileId>)
    requires forall id :: id in files && files[id].complete ==> id in rest
    ensures CompleteInOrder([], files, rest) && Completions([], files) == []
  {
  }

  lemma ReportsAll(order: seq<FileId>, files: Files, controls: seq<Control>, last: Control)
    requires CompleteInOrder(order, files, {}) && controls == Completions(order, files) + [last]
    ensures Reports(files, controls, last)
  {
  }

  /** The checked sum of the sizes. */
  method SumSizes(entries: seq<Entry>) returns (total: Option<u64>)
    ensures total == if TotalSize(entries) <= U64_MAX then Some(TotalSize(entries)) else None
  {
    var sum: u64 := 0;
    for i := 0 to |entries|
      invariant sum == TotalSize(entries[..i])
    {
      assert entries[..i + 1][..i] == entries[..i];
      TotalGrows(entries, i + 1);
      if sum + entries[i].size > U64_MAX { return None; }
      sum := sum + entries[i].size;
    }
    assert entries[..|entries|] == entries;
    total := Some(sum);
  }

  lemma AssemblyChanged(c: Core, a: Option<seq<Entry>>)
    requires CoreOk(c) && c.role == Accepter && (a.Some? ==> c.manifest.None?)
    ensures CoreOk(c.(assembly := a)) && Follows(c, c.(assembly := a))
  {
  }

  lemma NothingToComplete(c: Core, controls: seq<Control>, data: seq<DataChunk>)
    requires Sound(c, controls, data) && |c.files| == 0
    ensures c.completedFiles == 0
  {
    assert |CompleteSizes(c.files)| == 0;
  }

  lemma NoFilesYet(c: Core, controls: seq<Control>, data: seq<DataChunk>)
    requires Sound(c, controls, data)
    ensures c.manifest.None? ==> c.files == map[]
  {
  }

  /** The counters decide completion: then every file is complete and every byte counted. */
  lemma EveryFileComplete(c: Core, controls: seq<Control>, data: seq<DataChunk>)
    requires Sound(c, controls, data)
    requires c.state.Completed? || c.state.AwaitingTransferComplete? || c.completedFiles == |c.files|
    ensures c.completedFiles == |c.files| && forall id :: id in c.files ==> c.files[id].complete
    ensures c.completedSize == Sums.Sum(Sizes(c.files))
  {
    AllComplete(c);
  }

  lemma EmptySound(c: Core)
    requires c.files == map[] && c.manifest.None? && c.assembly.None?
    requires c.begins == map[] && c.role == Accepter && c.state.New?
    requires c.completedFiles == c.completedSize == 0
    ensures Sound(c, [], [])
  {
    assert |CompleteSizes(c.files)| == 0 && |Sizes(c.files)| == 0 && ActiveIds(c.files) == {};
  }

  lemma StrandedFiles(c: Core, controls: seq<Control>, data: seq<DataChunk>)
    requires Sound(c, controls, data)
    ensures Stranded(c) ==> forall id :: id in c.files ==> c.files[id].complete
  {
    if Stranded(c) { EveryFileComplete(c, controls, data); }
  }

  /** Every file is complete, but the session no longer waits to be told so. */
  predicate Stranded(c: Core)
  {
    && c.role == Offerer && c.completedFiles == |c.files|
    && (c.state.AwaitingResume? || c.state.SendingData? || c.state.Failed? || c.state.Rejected? || c.state.Cancelled?)
  }

  lemma ManifestSmall(c: Core, controls: seq<Control>, data: seq<DataChunk>)
    requires Sound(c, controls, data) && c.manifest.Some?
    ensures |c.manifest.value.entries| == |c.files| <= MAX_MANIFEST_FILES
  {
  }

  /** Before the first manifest there are no files. */
  lemma FirstManifest(was: Core, now: Core, m: Manifest)
    requires CoreOk(was) && was.role == Accepter && was.manifest.None? && was.assembly.None? && Acceptable(m.entries)
    requires now == was.(manifest := Some(m), files := Installed(m.entries), state := AwaitingDecision)
    ensures CoreOk(now) && Follows(was, now)
  {
    assert |CompleteSizes(was.files)| == 0;
    ManifestInstalled(now, m);
  }

  lemma DurableTaken(role: Role, f: FileRuntime, g: FileRuntime)
    requires FileOk(role, f) && role == Offerer && g.durableOffset <= f.entry.size
    requires g == f.(durableOffset := g.durableOffset, checkpointId := g.checkpointId, stateHash := g.stateHash)
    ensures FileOk(role, g) && FileFollows(role, f, g)
  {
  }

  /** Starting files leaves their durable progress alone. */
  predicate SameProgress(was: FileRuntime, now: FileRuntime)
  {
    && was.entry == now.entry && was.durableOffset == now.durableOffset && was.checkpointId == now.checkpointId
    && was.stateHash == now.stateHash && was.complete == now.complete
  }

  ghost predicate Progressed(was: Files, now: Files)
  {
    forall k :: k in was ==> k in now && SameProgress(was[k], now[k])
  }

  predicate OffsetsRight(f: FileRuntime)
  {
    f.baseOffset + f.sendOffset <= f.entry.size
  }

  lemma StillDone(was: Files, now: Files, id: FileId)
    requires Progressed(was, now) && id in was
    ensures id in now && SameProgress(was[id], now[id])
  {
  }

  lemma SameProgressAll(files: Files)
    ensures Progressed(files, files)
  {
  }

  lemma SameProgressNext(a: Files, b: Files, c: Files)
    requires Progressed(a, b) && Progressed(b, c)
    ensures Progressed(a, c)
  {
  }

  lemma ActiveBound(c: Core, controls: seq<Control>, data: seq<DataChunk>)
    requires Sound(c, controls, data)
    ensures |ActiveIds(c.files)| <= c.maxParallel
  {
  }

  lemma StartsActive(c: Core, id: FileId, g: FileRuntime)
    requires id in c.files && FileOk(c.role, c.files[id]) && c.role == Offerer
    requires c.files[id].activeStream.None? && !c.files[id].complete && |ActiveIds(c.files)| < c.maxParallel
    requires g.activeStream.Some? && g == StartedOn(c.files[id], g.activeStream.value)
    ensures Activates(c, id, g) && FileOk(c.role, g)
  {
  }

  lemma RemainingOk(role: Role, g: FileRuntime)
    requires FileOk(role, g)
    ensures g.baseOffset <= g.entry.size
  {
  }

  lemma StreamSkipped(c: Core)
    requires CoreOk(c)
    ensures CoreOk(c.(nextStreamId := c.nextStreamId + 1)) && Follows(c, c.(nextStreamId := c.nextStreamId + 1))
  {
  }

  /** The next item of a manifest: a path to stay within, a place left, and an id not yet taken. */
  ghost predicate ItemFits(a: Assembly, entry: Entry)
  {
    && PathOk(entry.path) && |a.entries| < a.expectedCount
    && forall j :: 0 <= j < |a.entries| ==> a.entries[j].fileId != entry.fileId
  }

  /** All items of the announced manifest are there, and they make a manifest. */
  ghost predicate AssemblyFits(a: Assembly, digest: Digest)
  {
    && digest == a.digest && |a.entries| == a.expectedCount && TotalSize(a.entries) == a.expectedSize
    && Acceptable(a.entries)
  }

  /** The query is for a file that this side receives, and the file is done or may be resumed now. */
  predicate QueryFits(role: Role, state: SessionState, files: Files, id: FileId, contentHash: Digest, size: u64)
  {
    && role == Accepter && id in files
    && files[id].entry.contentHash == contentHash && files[id].entry.size == size
    && (files[id].complete || state == AwaitingResume || state == ReceivingData)
  }

  /** A position found in storage lies within the file and does not go back. */
  predicate DurableFits(f: FileRuntime, d: DurableState)
  {
    && d.durableOffset <= f.entry.size
    && f.checkpointId <= d.checkpointId && f.durableOffset <= d.durableOffset
    && (d.checkpointId == f.checkpointId ==> d.durableOffset == f.durableOffset)
  }

  /** The peer's checkpoint is newer, does not go back, and lies within what was sent. */
  predicate RemoteFits(f: FileRuntime, durableOffset: u64, checkpointId: u64)
  {
    f.durableOffset <= durableOffset <= f.baseOffset + f.sendOffset && f.checkpointId < checkpointId
  }

  /** No subtraction of offsets below underflows. */
  lemma OffsetsOk(role: Role, f: FileRuntime)
    requires FileOk(role, f)
    ensures f.baseOffset <= f.entry.size && f.receivedOffset <= f.entry.size && f.durableOffset <= f.entry.size
    ensures role == Offerer ==> f.baseOffset + f.sendOffset <= f.entry.size
    ensures role == Accepter && f.activeStream.Some? ==> f.baseOffset <= f.receivedOffset
  {
  }

  lemma SendOk(f: FileRuntime, newOffset: nat, fin: bool)
    requires FileOk(Offerer, f) && newOffset <= f.entry.size - f.baseOffset
    requires (fin ==> newOffset == f.entry.size - f.baseOffset)
    ensures FileOk(Offerer, f.(sendOffset := newOffset, finQueued := fin))
  {
  }

  /** These bytes are the next of an active file, and FIN stands only at its end. */
  predicate Sends(c: Core, id: FileId, bytes: seq<byte>, fin: bool)
  {
    && c.role == Offerer && id in c.files
    && var f := c.files[id];
       && f.activeStream.Some? && !f.finQueued
       && f.baseOffset + f.sendOffset + |bytes| <= f.entry.size
       && (fin ==> f.baseOffset + f.sendOffset + |bytes| == f.entry.size)
  }

  function Sent(f: FileRuntime, bytes: seq<byte>, fin: bool): FileRuntime
    requires f.sendOffset + |bytes| <= U64_MAX
  {
    f.(sendOffset := f.sendOffset + |bytes|, finQueued := fin)
  }

  /** The file on a new stream, seen from the accepter. */
  function Begun(f: FileRuntime, streamId: u64, baseOffset: u64, nothingLeft: bool): FileRuntime
  {
    f.(activeStream := Some(streamId), baseOffset := baseOffset, receivedOffset := baseOffset,
        awaitingFinish := nothingLeft)
  }

  /** An unfinished file without a stream may begin at exactly its durable offset, if there is a
      free place and the peer means the same file. */
  predicate BeginFits(files: Files, maxParallel: nat, id: FileId, baseOffset: u64, remainingSize: u64,
          contentHash: Digest)
  {
    && id in files
    && var f := files[id];
       && !f.complete && f.activeStream.None? && |ActiveIds(files)| < maxParallel
       && baseOffset == f.durableOffset && baseOffset <= f.entry.size
       && contentHash == f.entry.contentHash && remainingSize == f.entry.size - baseOffset
  }

  lemma BegunOk(c: Core, id: FileId, streamId: u64, baseOffset: u64, nothingLeft: bool)
    requires id in c.files && c.role == Accepter && FileOk(Accepter, c.files[id])
    requires baseOffset <= c.files[id].entry.size
    requires !c.files[id].complete && c.files[id].activeStream.None? && |ActiveIds(c.files)| < c.maxParallel
    ensures Activates(c, id, Begun(c.files[id], streamId, baseOffset, nothingLeft))
  {
  }

  /** The chunk is on the active stream and begins where reception stands. */
  predicate Expects(c: Core, chunk: DataChunk)
  {
    && c.role == Accepter && chunk.fileId in c.files
    && var f := c.files[chunk.fileId];
       && f.activeStream == Some(chunk.streamId) && f.baseOffset + chunk.offset == f.receivedOffset
       && f.receivedOffset + |chunk.bytes| <= f.entry.size
  }

  predicate FinOk(f: FileRuntime, chunk: DataChunk)
  {
    chunk.fin ==> f.receivedOffset + |chunk.bytes| == f.entry.size
  }

  function Moved(f: FileRuntime, chunk: DataChunk): FileRuntime
    requires f.receivedOffset + |chunk.bytes| <= f.entry.size
  {
    f.(receivedOffset := f.receivedOffset + |chunk.bytes|)
  }

  function Taken(f: FileRuntime, chunk: DataChunk): FileRuntime
    requires f.receivedOffset + |chunk.bytes| <= f.entry.size
  {
    Moved(f, chunk).(awaitingFinish := f.awaitingFinish || chunk.fin)
  }

  function DataEvents(f: FileRuntime, chunk: DataChunk): seq<Event>
  {
    var event := DataReceived(chunk.fileId, f.receivedOffset, chunk.bytes, chunk.fin);
    if f.awaitingFinish || chunk.fin then [event, FileReadyToComplete(chunk.fileId)] else [event]
  }

  /** The bytes of the first data event. */
  function FirstData(events: seq<Event>): Option<seq<byte>>
  {
    if |events| == 0 then None
    else if events[0].DataReceived? then Some(events[0].bytes)
    else FirstData(events[1..])
  }

  lemma FirstDataFacts(f: FileRuntime, chunk: DataChunk, id: FileId, offset: u64)
    ensures FirstData(DataEvents(f, chunk)) == Some(chunk.bytes)
    ensures FirstData([DuplicateData(id, offset)]) == None
  {
    assert [DuplicateData(id, offset)][1..] == [];
  }

  lemma MovedOk(c: Core, chunk: DataChunk)
    requires Expects(c, chunk) && FileOk(Accepter, c.files[chunk.fileId])
    ensures var f := c.files[chunk.fileId];
      && FileOk(Accepter, Moved(f, chunk)) && FileFollows(Accepter, f, Moved(f, chunk))
      && FileOk(Accepter, Taken(f, chunk)) && FileFollows(Accepter, f, Taken(f, chunk))
  {
  }

  predicate CheckpointOk(f: FileRuntime, durableOffset: u64, checkpointId: u64)
  {
    && f.durableOffset <= durableOffset <= f.receivedOffset && f.checkpointId <= checkpointId
    && (checkpointId == f.checkpointId ==> durableOffset == f.durableOffset)
  }

  /** Session and store both agree that the file is done, or may be. */
  predicate Finishes(files: Files, records: map<FileId, Record>, id: FileId, finalSize: u64, contentHash: Digest,
          hash: seq<byte> -> Digest)
  {
    && id in files && (files[id].complete || CompletionOk(files[id], finalSize, contentHash))
    && id in records && Completable(records[id], finalSize, contentHash, hash)
  }

  lemma DurableOk(role: Role, f: FileRuntime, durableOffset: u64, checkpointId: u64, stateHash: Digest)
    requires FileOk(role, f) && f.durableOffset <= durableOffset <= f.entry.size && f.checkpointId <= checkpointId
    ensures var g := f.(durableOffset := durableOffset, checkpointId := checkpointId, stateHash := stateHash);
      FileOk(role, g) && FileFollows(role, f, g)
  {
  }

  predicate CompletionOk(f: FileRuntime, finalSize: u64, contentHash: Digest)
  {
    && f.awaitingFinish && f.receivedOffset == f.durableOffset == f.entry.size
    && finalSize == f.entry.size && contentHash == f.entry.contentHash
  }

  lemma CompletesOk(c: Core, id: FileId)
    requires id in c.files && c.role == Accepter && FileOk(Accepter, c.files[id])
    requires !c.files[id].complete && c.files[id].receivedOffset == c.files[id].durableOffset == c.files[id].entry.size
    ensures Completes(c, id, c.files[id].(complete := true, activeStream := None))
  {
  }

  lemma CompletesSent(c: Core, id: FileId)
    requires id in c.files && c.role == Offerer && FileOk(Offerer, c.files[id]) && !c.files[id].complete
    ensures Completes(c, id, c.files[id].(complete := true, activeStream := None))
  {
  }

  lemma HasManifest(c: Core, controls: seq<Control>, data: seq<DataChunk>, id: FileId)
    requires Sound(c, controls, data) && id in c.files
    ensures c.manifest.Some?
  {
  }

  /** The first key of an ordered map. */
  method SmallestKey(m: map<FileId, DurableState>) returns (k: FileId)
    requires |m| > 0
    ensures k in m && k == LeastOf(m.Keys)
  {
    k := SmallestOf(m.Keys);
  }

  // ---- What the offerer takes from its peer ----

  /** Where the offerer takes resume states. */
  predicate Resuming(state: SessionState)
  {
    state.AwaitingResume? || state.SendingData? || state.AwaitingTransferComplete?
  }

  /** A resume state that is acted on: for an incomplete file, not older than what is known,
      and not a repetition for a file already under way. */
  predicate ResumeFits(f: FileRuntime, d: DurableState)
  {
    && d.durableOffset <= f.entry.size && !f.complete && f.checkpointId <= d.checkpointId
    && (f.checkpointId == d.checkpointId ==>
          d.durableOffset == f.durableOffset && (d.stateHash == f.stateHash ==> f.activeStream.None?))
  }

  function Resumed(f: FileRuntime, d: DurableState): FileRuntime
  {
    f.(durableOffset := d.durableOffset, checkpointId := d.checkpointId, stateHash := d.stateHash)
  }

  /** The peer has everything: all bytes from the base on were queued, with FIN unless there are none. */
  predicate AckFits(f: FileRuntime, finalSize: u64, contentHash: Digest)
  {
    && !f.complete && finalSize == f.entry.size && contentHash == f.entry.contentHash
    && f.baseOffset + f.sendOffset == f.entry.size && (f.finQueued || f.baseOffset == f.entry.size)
  }

  function Done(f: FileRuntime): FileRuntime
  {
    f.(complete := true, activeStream := None)
  }

  // ---- Starting files ----

  /** What starting files works on. */
  datatype Launch = Launch(files: Files, pending: map<FileId, DurableState>, next: nat, controls: seq<Control>)

  predicate Startable(files: Files, id: FileId)
  {
    id in files && files[id].activeStream.None? && !files[id].complete
  }

  function StartedOn(f: FileRuntime, streamId: u64): FileRuntime
  {
    f.(activeStream := Some(streamId), baseOffset := f.durableOffset, sendOffset := 0,
        finQueued := f.entry.size == f.durableOffset)
  }

  /** There is no stream id left, or no such file. */
  predicate LaunchFails(l: Launch, id: FileId)
  {
    l.next >= U64_MAX || id !in l.files
  }

  /** One pending file is dealt with: it goes on the next stream from its durable offset, and
      the peer is told what remains. A file that need not be started uses up a stream id too. */
  function LaunchOne(l: Launch, id: FileId): Launch
  {
    var rest := l.(pending := l.pending - {id});
    if l.next >= U64_MAX then rest
    else if !Startable(l.files, id) then rest.(next := l.next + 1)
    else
      var f := l.files[id];
      rest.(files := l.files[id := StartedOn(f, l.next)], next := l.next + 1,
            controls := l.controls +
                [FileBegin(id, l.next, f.durableOffset, SatSub(f.entry.size, f.durableOffset), f.entry.contentHash)])
  }

  /** Pending files are dealt with in order of their ids while there are free places; the flag
      says that none failed. */
  ghost function LaunchAll(l: Launch, max: nat): (Launch, bool)
    decreases |l.pending|
  {
    if |ActiveIds(l.files)| >= max || l.pending == map[] then (l, true) else
    var id := LeastOf(l.pending.Keys);
    assert (l.pending - {id}).Keys == l.pending.Keys - {id};
    if LaunchFails(l, id) then (LaunchOne(l, id), false) else LaunchAll(LaunchOne(l, id), max)
  }

  lemma LaunchStep(l: Launch, max: nat, id: FileId)
    requires |ActiveIds(l.files)| < max && l.pending != map[] && id == LeastOf(l.pending.Keys)
    ensures LaunchAll(l, max) == if LaunchFails(l, id) then (LaunchOne(l, id), false)
        else LaunchAll(LaunchOne(l, id), max)
  {
    hide ActiveIds, LaunchFails, LaunchOne;
  }

  lemma LaunchDone(l: Launch, max: nat)
    requires |ActiveIds(l.files)| >= max || l.pending == map[]
    ensures LaunchAll(l, max) == (l, true)
  {
  }

  /** A single pending file that may start is all that is started. */
  lemma LaunchSingle(l: Launch, max: nat, id: FileId)
    requires l.pending.Keys == {id} && |ActiveIds(l.files)| < max && Startable(l.files, id) && l.next < U64_MAX
    ensures LaunchAll(l, max) == (LaunchOne(l, id), true) && LaunchOne(l, id).pending == map[]
  {
    LaunchStep(l, max, id);
    assert LaunchOne(l, id).pending.Keys == {};
    LaunchDone(LaunchOne(l, id), max);
  }

  /** The chunk is taken and its bytes handed on. */
  predicate Accepts(c: Core, chunk: DataChunk)
  {
    Expects(c, chunk) && FinOk(c.files[chunk.fileId], chunk)
  }

  predicate Stores(records: map<FileId, Record>, id: FileId, offset: u64, bytes: seq<byte>)
  {
    id in records && WriteOk(records[id], offset, bytes)
  }

  /** Only the durable state of one record changed, within what the file holds. */
  ghost predicate CheckpointStored(was: map<FileId, Record>, now: map<FileId, Record>, id: FileId)
  {
    && id in was && now.Keys == was.Keys && (forall k :: k in now && k != id ==> now[k] == was[k])
    && Content(now[id]) == Content(was[id]) && now[id].size == was[id].size && now[id].complete == was[id].complete
  }

  predicate SameStream(f: FileRuntime, g: FileRuntime)
  {
    && f.entry == g.entry && f.activeStream == g.activeStream && f.baseOffset == g.baseOffset
    && f.receivedOffset == g.receivedOffset && f.complete == g.complete
  }

  lemma HashTaken(role: Role, f: FileRuntime, stateHash: Digest)
    requires FileOk(role, f)
    ensures FileOk(role, f.(stateHash := stateHash)) && FileFollows(role, f, f.(stateHash := stateHash))
  {
  }

  /** All an accepter's files can become by a control message: as they were, reset, one of them
      on the stream the message names, or installed from the assembled entries. */
  ghost predicate AccepterHeard(was: Core, m: Control, now: Core)
  {
    && (|| now.files == was.files
        || now.files == ResetAll(Accepter, was.files)
        || (m.FileBegin? && m.fileId in was.files && m.baseOffset == was.files[m.fileId].durableOffset
            && !was.files[m.fileId].complete
            && now.files == was.files[m.fileId :=
                 Begun(was.files[m.fileId], m.streamId, m.baseOffset, m.remainingSize == 0)])
        || (was.files == map[] && was.assembly.Some? && now.files == Installed(was.assembly.value)))
    && (now.assembly.Some? ==>
          || now.assembly == was.assembly || now.assembly.value == []
          || (m.ManifestItem? && was.assembly.Some? && now.assembly.value == was.assembly.value + [m.entry]))
  }

  class TransferSession {
    const role: Role
    const transferId: nat
    const config: Config
    var state: SessionState
    var manifest: Option<Manifest>
    var remoteManifestDigest: Option<Digest>
    var receiveDecision: Option<bool>
    var assembly: Option<Assembly>
    var files: Files
    var pendingResumes: map<FileId, DurableState>
    var completedFiles: u64
    var completedSize: u64
    var nextStreamId: u64
    var controls: seq<Control>
    var data: seq<DataChunk>
    ghost var begins: map<nat, Begin>

    ghost function State(): Core
      reads this
    {
      Core(role, config.maxParallelFiles, state, manifest,
          if assembly.Some? then Some(assembly.value.entries) else None,
           files, completedFiles, completedSize, nextStreamId, begins)
    }

    ghost predicate Valid()
      reads this
    {
      Sound(State(), controls, data) && ConfigOk(config)
    }

    /** `new_offerer` with a validated configuration; a `Manifest` is acceptable by construction. */
    constructor Offer(transferId: nat, m: Manifest, config: Config)
      requires ConfigOk(config) && Acceptable(m.entries)
      ensures Valid() && role == Offerer && state == New && manifest == Some(m)
      ensures files == Installed(m.entries) && data == [] && controls == []
      ensures this.transferId == transferId && this.config == config
    {
      role, this.transferId, this.config, state := Offerer, transferId, config, New;
      manifest, remoteManifestDigest, receiveDecision, assembly := Some(m), None, None, None;
      files, pendingResumes, completedFiles, completedSize := Installed(m.entries), map[], 0, 0;
      nextStreamId, controls, data, begins := config.firstDataStreamId, [], [], map[];
      new;
      hide Acceptable, Installed;
      ManifestInstalled(State(), m);
    }

    /** `new_accepter`. */
    constructor Await(transferId: nat, config: Config)
      requires ConfigOk(config)
      ensures Valid() && role == Accepter && state == New && manifest == None
      ensures assembly == None && files == map[] && data == [] && controls == []
      ensures this.transferId == transferId && this.config == config
    {
      role, this.transferId, this.config, state := Accepter, transferId, config, New;
      manifest, remoteManifestDigest, receiveDecision, assembly := None, None, None, None;
      files, pendingResumes, completedFiles, completedSize := map[], map[], 0, 0;
      nextStreamId, controls, data, begins := config.firstDataStreamId, [], [], map[];
      new;
      EmptySound(State());
    }

    // ---- Elementary changes ----

    method SetState(s: SessionState, ghost base: Core) returns (events: seq<Event>)
      requires Valid() && CanEnter(State(), s) && Follows(base, State())
      modifies this`state
      ensures Valid() && Follows(base, State()) && state == s
    {
      hide CoreOk, Follows, Sound;
      ghost var was := State();
      SoundCore(was, controls, data);
      StateChanged(was, s);
      SoundNext(base, was, was.(state := s), controls, data);
      events := if state == s then [] else [StateMoved(state, s)];
      state := s;
    }

    method Queue(m: Control)
      requires Valid() && ControlOk(State(), m)
      modifies this`controls
      ensures Valid() && controls == old(controls) + [m]
    {
      hide CoreOk;
      controls := controls + [m];
    }

    method ChangeFile(id: FileId, g: FileRuntime, ghost base: Core)
      requires Valid() && Follows(base, State()) && id in files && FileOk(role, g) && FileFollows(role, files[id], g)
      requires g.complete == files[id].complete && g.activeStream == files[id].activeStream
      requires g.baseOffset == files[id].baseOffset
      modifies this`files
      ensures Valid() && Follows(base, State()) && files == old(files)[id := g]
    {
      hide CoreOk, Follows, Sound, FileOk;
      ghost var was := State();
      SoundCore(was, controls, data);
      FileChanged(was, id, g);
      SoundNext(base, was, was.(files := files[id := g]), controls, data);
      files := files[id := g];
    }

    method StartOn(id: FileId, g: FileRuntime, ghost base: Core)
      requires Valid() && Follows(base, State()) && role == Offerer
      requires Activates(State(), id, g) && g.activeStream == Some(nextStreamId)
      requires nextStreamId < U64_MAX
      modifies this`files, this`nextStreamId, this`begins
      ensures Valid() && Follows(base, State()) && files == old(files)[id := g] && nextStreamId == old(nextStreamId) + 1
      ensures begins == old(begins)[old(nextStreamId) := Begin(id, g.baseOffset)]
    {
      hide CoreOk, Follows, Sound, Activates;
      ghost var was := State();
      SoundCore(was, controls, data);
      FileStarted(was, id, g);
      ghost var next := begins[nextStreamId := Begin(id, g.baseOffset)];
      SoundNext(base, was, was.(files := files[id := g], nextStreamId := nextStreamId + 1, begins := next), controls,
          data);
      files, nextStreamId, begins := files[id := g], nextStreamId + 1, next;
    }

    method BeginOn(id: FileId, g: FileRuntime, ghost base: Core)
      requires Valid() && Follows(base, State()) && role == Accepter && Activates(State(), id, g)
      modifies this`files
      ensures Valid() && Follows(base, State()) && files == old(files)[id := g]
    {
      hide CoreOk, Follows, Sound, Activates;
      ghost var was := State();
      SoundCore(was, controls, data);
      FileBegun(was, id, g);
      SoundNext(base, was, was.(files := files[id := g]), controls, data);
      files := files[id := g];
    }

    /** Counting a completed file neither overflows nor exceeds the number of files. */
    method CompleteWith(id: FileId, g: FileRuntime, ghost base: Core)
      requires Valid() && Follows(base, State()) && Completes(State(), id, g)
      modifies this`files, this`completedFiles, this`completedSize
      ensures Valid() && Follows(base, State()) && files == old(files)[id := g]
      ensures completedFiles == old(completedFiles) + 1 && completedSize == old(completedSize) + g.entry.size
    {
      hide CoreOk, Follows, Sound, Completes;
      ghost var was := State();
      SoundCore(was, controls, data);
      FileCompleted(was, id, g);
      FileCountSmall(was);
      SoundNext(base, was, was.(files := files[id := g], completedFiles := completedFiles + 1,
          completedSize := completedSize + g.entry.size), controls, data);
      files, completedFiles, completedSize := files[id := g], completedFiles + 1, completedSize + g.entry.size;
    }

    method ResetFiles(ghost base: Core)
      requires Valid() && Follows(base, State())
      modifies this`files
      ensures Valid() && Follows(base, State()) && files == ResetAll(role, old(files))
      ensures |files| == |old(files)|
    {
      hide CoreOk, Follows, Sound, ResetAll;
      ghost var was := State();
      SoundCore(was, controls, data);
      AllReset(was);
      ResetEntries(role, files);
      SoundNext(base, was, was.(files := ResetAll(role, files)), controls, data);
      files := ResetAll(role, files);
    }

    method ClearQueues(clearControls: bool)
      requires Valid()
      modifies this`controls, this`data
      ensures Valid() && data == [] && controls == if clearControls then [] else old(controls)
    {
      hide CoreOk;
      data := [];
      if clearControls { controls := []; }
    }

    method SetAssembly(a: Option<Assembly>, ghost base: Core)
      requires Valid() && Follows(base, State()) && role == Accepter && (a.Some? ==> manifest.None?)
      modifies this`assembly
      ensures Valid() && Follows(base, State()) && assembly == a
    {
      hide CoreOk, Follows, Sound;
      ghost var was := State();
      SoundCore(was, controls, data);
      ghost var now := was.(assembly := if a.Some? then Some(a.value.entries) else None);
      AssemblyChanged(was, now.assembly);
      SoundNext(base, was, now, controls, data);
      assembly := a;
    }

    // ---- Starting, offering and accepting ----

    method Start() returns (r: Outcome)
      requires Valid()
      modifies this`state, this`controls
      ensures Valid() && Follows(old(State()), State()) && files == old(files)
      ensures r.Ok? <==> old(state) == New
      ensures r.Ok? ==> state == if role == Offerer then AwaitingDecision else AwaitingHello
      ensures r.Ok? && role == Offerer ==>
        && manifest.Some? && controls == old(controls) + ManifestMessages(transferId, config, manifest.value)
    {
      hide CoreOk, Follows, Sound, ManifestMessages;
      ghost var base := State();
      FollowsSame(base);
      if state != New { return Err(InvalidState); }
      assert PhaseOk(base) by { SoundCore(base, controls, data); PhaseFacts(base); }
      if role == Accepter {
        var moved := SetState(AwaitingHello, base);
        return Ok(moved);
      }
      if manifest.None? { return Err(ManifestRequired); }
      var first := SetState(SendingManifest, base);
      QueueManifest(manifest.value);
      var second := SetState(AwaitingDecision, base);
      r := Ok(first + second);
    }

    /** The hello and the whole manifest are queued. */
    method QueueManifest(m: Manifest)
      requires Valid() && manifest == Some(m)
      modifies this`controls
      ensures Valid() && controls == old(controls) + ManifestMessages(transferId, config, m)
    {
      hide CoreOk, Sound;
      assert |m.entries| <= MAX_MANIFEST_FILES by { ManifestSmall(State(), controls, data); }
      Queue(SessionHello(transferId, config.protocolVersion, m.digest));
      Queue(ManifestBegin(|m.entries|, m.totalSize, m.digest));
      ghost var sofar := controls;
      for i := 0 to |m.entries|
        invariant Valid() && controls == sofar + Items(m.entries[..i])
      {
        assert m.entries[..i + 1][..i] == m.entries[..i];
        Queue(ManifestItem(m.entries[i]));
      }
      assert m.entries[..|m.entries|] == m.entries;
      Queue(ManifestEnd(m.digest));
    }

    method AcceptOffer(accepted: bool) returns (r: Outcome)
      requires Valid()
      modifies this`state, this`controls
      ensures Valid() && Follows(old(State()), State()) && files == old(files)
      ensures r.Ok? <==> role == Accepter && old(state) == AwaitingDecision
      ensures r.Ok? ==> state == if !accepted then Rejected else if files == map[] then Completed else AwaitingResume
      ensures controls == old(controls) + if r.Err? then []
        else if accepted && files == map[] then [ReceiveDecision(accepted), TransferComplete(transferId, 0, 0)]
            else [ReceiveDecision(accepted)]
    {
      hide CoreOk, Follows, Sound;
      ghost var base := State();
      FollowsSame(base);
      if role != Accepter { return Err(InvalidRole); }
      if state != AwaitingDecision { return Err(InvalidState); }
      assert PhaseOk(base) by { SoundCore(base, controls, data); PhaseFacts(base); }
      Queue(ReceiveDecision(accepted));
      if !accepted {
        var rejected := SetState(Rejected, base);
        return Ok(rejected);
      }
      var events := SetState(AwaitingResume, base);
      if |files| == 0 {
        Queue(TransferComplete(transferId, 0, 0));
        NothingToComplete(State(), controls, data);
        var done := SetState(Completed, base);
        events := events + done;
      }
      r := Ok(events);
    }

    method RejectOffer() returns (r: Outcome)
      requires Valid()
      modifies this`state
      ensures Valid() && Follows(old(State()), State())
      ensures r.Ok? <==> role == Accepter && old(state) == AwaitingDecision
      ensures r.Ok? ==> state == Rejected
    {
      hide CoreOk, Follows, Sound;
      ghost var base := State();
      FollowsSame(base);
      if role != Accepter { return Err(InvalidRole); }
      if state != AwaitingDecision { return Err(InvalidState); }
      var rejected := SetState(Rejected, base);
      r := Ok(rejected);
    }

    // ---- Manifest exchange ----

    method HandleSessionHello(transferId': nat, version: byte, digest: Digest) returns (r: Outcome)
      requires Valid()
      modifies this`state, this`remoteManifestDigest
      ensures Valid() && Follows(old(State()), State())
      ensures if role == Accepter && transferId' == transferId && old(state) == AwaitingHello
          && version == config.protocolVersion
        then r.Ok? && state == ReceivingManifest && remoteManifestDigest == Some(digest)
        else state == old(state) && remoteManifestDigest == old(remoteManifestDigest)
      ensures r.Err? ==> state == old(state) && remoteManifestDigest == old(remoteManifestDigest)
    {
      hide CoreOk, Follows, Sound;
      ghost var base := State();
      FollowsSame(base);
      if role != Accepter { return Err(InvalidRole); }
      if transferId' != transferId { return Err(TransferIdMismatch); }
      if remoteManifestDigest == Some(digest) && state != AwaitingHello { return Ok([DuplicateControl]); }
      if state != AwaitingHello { return Err(InvalidState); }
      if version != config.protocolVersion { return Err(ProtocolVersionMismatch); }
      assert PhaseOk(base) by { SoundCore(base, controls, data); PhaseFacts(base); }
      remoteManifestDigest := Some(digest);
      var moved := SetState(ReceivingManifest, base);
      r := Ok(moved);
    }

    method HandleManifestBegin(fileCount: u64, totalSize: u64, digest: Digest) returns (r: Outcome)
      requires Valid()
      modifies this`assembly
      ensures Valid() && Follows(old(State()), State())
      ensures if role == Accepter && state == ReceivingManifest && remoteManifestDigest == Some(digest)
          && fileCount <= MAX_MANIFEST_FILES
        then r.Ok? && assembly == Some(Assembly(fileCount, totalSize, digest, []))
        else assembly == old(assembly)
    {
      hide CoreOk, Follows, Sound;
      ghost var base := State();
      FollowsSame(base);
      if role != Accepter { return Err(InvalidRole); }
      if state != ReceivingManifest {
        if manifest.Some? && manifest.value.digest == digest { return Ok([DuplicateControl]); }
        return Err(InvalidState);
      }
      assert PhaseOk(base) by { SoundCore(base, controls, data); PhaseFacts(base); }
      if remoteManifestDigest != Some(digest) { return Err(ManifestMismatch); }
      if fileCount > MAX_MANIFEST_FILES { return Err(ManifestCountMismatch); }
      SetAssembly(Some(Assembly(fileCount, totalSize, digest, [])), base);
      r := Ok([]);
    }

    /** An item is taken once; the same item again is a duplicate, another one for its id an error. */
    method HandleManifestItem(entry: Entry) returns (r: Outcome)
      requires Valid()
      modifies this`assembly
      ensures Valid() && Follows(old(State()), State())
      ensures if role == Accepter && old(assembly).Some? && ItemFits(old(assembly).value, entry)
        then r.Ok? && assembly == Some(old(assembly).value.(entries := old(assembly).value.entries + [entry]))
        else assembly == old(assembly)
      ensures r.Ok? && assembly == old(assembly) ==> r.value == [DuplicateControl]
    {
      hide CoreOk, Follows, Sound, PathOk;
      ghost var base := State();
      FollowsSame(base);
      if !PathOk(entry.path) { return Err(BadManifest(InvalidPath)); }
      if role != Accepter { return Err(InvalidRole); }
      if assembly.None? {
        if manifest.Some? && entry in manifest.value.entries { return Ok([DuplicateControl]); }
        return Err(ManifestNotReady);
      }
      assert PhaseOk(base) by { SoundCore(base, controls, data); PhaseFacts(base); }
      var a := assembly.value;
      if |a.entries| >= a.expectedCount { return Err(ManifestCountMismatch); }
      for i := 0 to |a.entries|
        invariant forall j :: 0 <= j < i ==> a.entries[j].fileId != entry.fileId
      {
        if a.entries[i].fileId == entry.fileId {
          if a.entries[i] == entry { return Ok([DuplicateControl]); }
          return Err(DuplicateEntry);
        }
      }
      SetAssembly(Some(a.(entries := a.entries + [entry])), base);
      r := Ok([]);
    }

    /** The assembled manifest is installed, at most once in a session. */
    method HandleManifestEnd(digest: Digest) returns (r: Outcome)
      requires Valid()
      modifies this`assembly, this`manifest, this`files, this`state
      ensures Valid() && Follows(old(State()), State())
      ensures if role == Accepter && old(assembly).Some? && AssemblyFits(old(assembly).value, digest)
        then var entries := old(assembly).value.entries;
             && r.Ok? && old(manifest).None? && manifest == Some(Manifest(digest, entries, TotalSize(entries)))
             && files == Installed(entries) && state == AwaitingDecision
        else manifest == old(manifest) && files == old(files) && state == old(state)
      ensures assembly == if role == Accepter then None else old(assembly)
    {
      hide CoreOk, Follows, Sound, Acceptable;
      ghost var base := State();
      FollowsSame(base);
      if role != Accepter { return Err(InvalidRole); }
      if assembly.None? {
        if manifest.Some? && manifest.value.digest == digest { return Ok([DuplicateControl]); }
        return Err(ManifestNotReady);
      }
      assert PhaseOk(base) by { SoundCore(base, controls, data); PhaseFacts(base); }
      var a := assembly.value;
      SetAssembly(None, base);
      if digest != a.digest { return Err(ManifestMismatch); }
      if |a.entries| != a.expectedCount { return Err(ManifestCountMismatch); }
      var actual := SumSizes(a.entries);
      if actual.None? { return Err(SizeOverflow); }
      if actual.value != a.expectedSize { return Err(ManifestSizeMismatch); }
      var made := NewManifest(digest, a.entries);
      if made.Err? { return Err(BadManifest(made.error)); }
      r := InstallManifest(made.value, base);
    }

    method InstallManifest(m: Manifest, ghost base: Core) returns (r: Outcome)
      requires Valid() && Follows(base, State()) && role == Accepter && manifest.None? && assembly.None?
      requires Acceptable(m.entries)
      modifies this`manifest, this`files, this`state
      ensures Valid() && Follows(base, State()) && r.Ok?
      ensures manifest == Some(m) && files == Installed(m.entries) && state == AwaitingDecision
    {
      hide CoreOk, Follows, Sound, Acceptable, Installed;
      ghost var was := State();
      SoundCore(was, controls, data);
      ghost var now := was.(manifest := Some(m), files := Installed(m.entries), state := AwaitingDecision);
      FirstManifest(was, now, m);
      SoundNext(base, was, now, controls, data);
      manifest, files := Some(m), Installed(m.entries);
      r := Ok(if state == AwaitingDecision then [] else [StateMoved(state, AwaitingDecision)]);
      state := AwaitingDecision;
    }

    // ---- Resuming ----

    method HandleReceiveDecision(accepted: bool) returns (r: Outcome)
      requires Valid()
      modifies this`state, this`receiveDecision, this`controls
      ensures Valid() && Follows(old(State()), State()) && files == old(files)
      ensures if role == Offerer && old(state) == AwaitingDecision
        then && r.Ok? && (accepted ==> manifest.Some?)
             && state == (if !accepted then Rejected else if files == map[] then AwaitingTransferComplete
                    else AwaitingResume)
             && controls == old(controls) + if accepted then Queries(manifest.value.entries, files, false) else []
        else state == old(state) && controls == old(controls)
    {
      hide CoreOk, Follows, Sound;
      ghost var base := State();
      FollowsSame(base);
      if role != Offerer { return Err(InvalidRole); }
      if state != AwaitingDecision {
        if receiveDecision == Some(accepted) || (state == AwaitingResume && accepted) { return Ok([DuplicateControl]); }
        return Err(InvalidState);
      }
      receiveDecision := Some(accepted);
      if !accepted {
        var rejected := SetState(Rejected, base);
        return Ok(rejected);
      }
      assert PhaseOk(base) by { SoundCore(base, controls, data); PhaseFacts(base); }
      if manifest.None? { return Err(ManifestRequired); }
      QueueQueries(manifest.value.entries, false);
      var events := SetState(AwaitingResume, base);
      if |files| == 0 {
        NothingToComplete(State(), controls, data);
        var done := SetState(AwaitingTransferComplete, base);
        events := events + done;
      }
      r := Ok(events);
    }

    /** A resume query for every entry, or for every entry whose file is not complete. */
    method QueueQueries(entries: seq<Entry>, incompleteOnly: bool)
      requires Valid()
      modifies this`controls
      ensures Valid() && controls == old(controls) + Queries(entries, files, incompleteOnly)
    {
      hide CoreOk, Sound;
      for i := 0 to |entries|
        invariant Valid() && controls == old(controls) + Queries(entries[..i], files, incompleteOnly)
      {
        var e := entries[i];
        assert entries[..i + 1][..i] == entries[..i];
        if !(incompleteOnly && e.fileId in files && files[e.fileId].complete) {
          Queue(ResumeQuery(e.fileId, e.contentHash, e.size));
        }
      }
      assert entries[..|entries|] == entries;
    }

    /** The accepter answers from what it holds durably; a complete file is reported again. */
    method HandleResumeQuery(id: FileId, contentHash: Digest, size: u64) returns (r: Outcome)
      requires Valid()
      modifies this`controls
      ensures Valid()
      ensures r.Ok? <==> QueryFits(role, state, files, id, contentHash, size)
      ensures r.Err? ==> controls == old(controls)
      ensures r.Ok? ==> id in files && var f := files[id];
        controls == old(controls) +
          if f.complete
              then [FileComplete(id, size, contentHash), TransferComplete(transferId, completedFiles, completedSize)]
          else [ResumeState(id, f.durableOffset, f.checkpointId, f.stateHash)]
    {
      hide CoreOk, Sound;
      if role != Accepter { return Err(InvalidRole); }
      if id !in files { return Err(UnknownFile); }
      var f := files[id];
      if f.entry.contentHash != contentHash || f.entry.size != size { return Err(ManifestMismatch); }
      if f.complete {
        Queue(FileComplete(id, f.entry.size, f.entry.contentHash));
        Queue(TransferComplete(transferId, completedFiles, completedSize));
        return Ok([DuplicateControl]);
      }
      if state != AwaitingResume && state != ReceivingData { return Err(InvalidState); }
      Queue(ResumeState(id, f.durableOffset, f.checkpointId, f.stateHash));
      r := Ok([]);
    }

    /** The offerer takes over the accepter's durable position; under a newer checkpoint id the
        durable offset may even fall. Then it starts as many pending files as it may. */
    method HandleResumeState(id: FileId, durable: DurableState) returns (r: Outcome)
      requires Valid()
      modifies this`state, this`files, this`nextStreamId, this`begins, this`pendingResumes, this`controls
      ensures role == Accepter ==> files == old(files)
      ensures Valid() && Follows(old(State()), State()) && data == old(data)
      ensures r.Ok? ==> role == Offerer && id in files && durable.durableOffset <= files[id].entry.size
      ensures role == Offerer && Resuming(old(state)) && id in old(files) && ResumeFits(old(files)[id], durable) ==>
        id in files && SameProgress(Resumed(old(files)[id], durable), files[id])
      ensures id in old(files) && old(files)[id].complete ==> State() == old(State())
      ensures id !in old(files) ==> State() == old(State())
      ensures if role == Offerer && Resuming(old(state)) && id in old(files) && ResumeFits(old(files)[id], durable)
        then
          && (Launching(), r.Ok?) == LaunchAll(Launch(old(files)[id := Resumed(old(files)[id], durable)],
                old(pendingResumes)[id := durable],
                                                      old(nextStreamId), old(controls)), config.maxParallelFiles)
          && state == if r.Ok? && |ActiveIds(files)| > 0 && old(state) == AwaitingResume then SendingData
                else old(state)
        else (r.Err? || r.value == [DuplicateControl]) && State() == old(State()) && Launching() == old(Launching())
    {
      hide CoreOk, Follows, Sound, FileOk, LaunchAll, LaunchOne, LaunchFails, ActiveIds, Progressed;
      ghost var base := State();
      FollowsSame(base);
      if role != Offerer { return Err(InvalidRole); }
      if state != AwaitingResume && state != SendingData && state != AwaitingTransferComplete {
        return Err(InvalidState);
      }
      if id !in files { return Err(UnknownFile); }
      var f := files[id];
      if durable.durableOffset > f.entry.size { return Err(InvalidFileOffset); }
      if f.complete { return Ok([DuplicateControl]); }
      if durable.checkpointId < f.checkpointId
         || (durable.checkpointId == f.checkpointId && durable.durableOffset != f.durableOffset)
      {
        return Err(InvalidCheckpoint);
      }
      if durable.checkpointId == f.checkpointId && durable.durableOffset == f.durableOffset
         && durable.stateHash == f.stateHash && f.activeStream.Some?
      {
        return Ok([DuplicateControl]);
      }
      r := TakeResume(id, durable);
    }

    /** The durable state is noted, and pending files are started. */
    method TakeResume(id: FileId, durable: DurableState) returns (r: Outcome)
      requires Valid() && role == Offerer && id in files && ResumeFits(files[id], durable)
      modifies this`state, this`files, this`nextStreamId, this`begins, this`pendingResumes, this`controls
      ensures Valid() && Follows(old(State()), State())
      ensures (Launching(), r.Ok?) == LaunchAll(
        Launch(old(files)[id := Resumed(old(files)[id], durable)], old(pendingResumes)[id := durable],
            old(nextStreamId), old(controls)),
        config.maxParallelFiles)
      ensures state == if r.Ok? && |ActiveIds(files)| > 0 && old(state) == AwaitingResume then SendingData
          else old(state)
      ensures id in files && durable.durableOffset <= files[id].entry.size
      ensures SameProgress(Resumed(old(files)[id], durable), files[id])
    {
      hide CoreOk, Follows, Sound, FileOk, LaunchAll, LaunchOne, LaunchFails, ActiveIds, Progressed;
      ghost var base := State();
      FollowsSame(base);
      var f := files[id];
      var g := Resumed(f, durable);
      assert FileOk(role, f) by { SoundCore(base, controls, data); FileFacts(base, id); }
      DurableTaken(role, f, g);
      ChangeFile(id, g, base);
      pendingResumes := pendingResumes[id := durable];
      ghost var changed := files;
      r := StartPendingFiles(base);
      StillDone(changed, files, id);
    }

    ghost function Launching(): Launch
      reads this
    {
      Launch(files, pendingResumes, nextStreamId, controls)
    }

    /** Files are started in order of their ids while there are free places. */
    method StartPendingFiles(ghost base: Core) returns (r: Outcome)
      requires Valid() && Follows(base, State()) && role == Offerer
      modifies this`state, this`files, this`nextStreamId, this`begins, this`pendingResumes, this`controls
      ensures Valid() && Follows(base, State())
      ensures r.Ok? ==> pendingResumes == map[] || |ActiveIds(files)| == config.maxParallelFiles
      ensures (Launching(), r.Ok?) == LaunchAll(old(Launching()), config.maxParallelFiles)
      ensures state == if r.Ok? && |ActiveIds(files)| > 0 && old(state) == AwaitingResume then SendingData
          else old(state)
      ensures Progressed(old(files), files)
    {
      hide CoreOk, Follows, Sound, FileOk, Progressed, ActiveIds, LaunchAll, LaunchOne, LaunchFails;
      SameProgressAll(files);
      var events: seq<Event> := [];
      while |ActiveIds(files)| < config.maxParallelFiles && |pendingResumes| > 0
        invariant Valid() && Follows(base, State())
        invariant Progressed(old(files), files) && state == old(state)
        invariant LaunchAll(Launching(), config.maxParallelFiles) == LaunchAll(old(Launching()),
            config.maxParallelFiles)
        decreases |pendingResumes|
      {
        label L:
        LaunchStep(Launching(), config.maxParallelFiles, LeastOf(pendingResumes.Keys));
        var started := StartFirst(base);
        SameProgressNext(old(files), old@L(files), files);
        if started.Err? { return Err(started.error); }
        events := events + started.value;
      }
      LaunchDone(Launching(), config.maxParallelFiles);
      assert |ActiveIds(files)| <= config.maxParallelFiles by { ActiveBound(State(), controls, data); }
      if |ActiveIds(files)| > 0 && state == AwaitingResume {
        var moved := SetState(SendingData, base);
        events := events + moved;
      }
      r := Ok(events);
    }

    /** The pending file with the smallest id is taken off the list and started. */
    method StartFirst(ghost base: Core) returns (r: Outcome)
      requires Valid() && Follows(base, State()) && role == Offerer
      requires |ActiveIds(files)| < config.maxParallelFiles && |pendingResumes| > 0
      modifies this`files, this`nextStreamId, this`begins, this`pendingResumes, this`controls
      ensures Valid() && Follows(base, State())
      ensures |pendingResumes| < |old(pendingResumes)|
      ensures var id := LeastOf(old(pendingResumes).Keys);
        Launching() == LaunchOne(old(Launching()), id) && (r.Ok? <==> !LaunchFails(old(Launching()), id))
      ensures Progressed(old(files), files)
    {
      hide CoreOk, Follows, Sound, FileOk, Progressed, ActiveIds;
      var id := SmallestKey(pendingResumes);
      pendingResumes := pendingResumes - {id};
      assert pendingResumes.Keys == old(pendingResumes.Keys) - {id};
      r := StartFile(id, base);
    }

    /** A file goes on a new stream from its durable offset, and the peer is told. */
    method StartFile(id: FileId, ghost base: Core) returns (r: Outcome)
      requires Valid() && Follows(base, State()) && role == Offerer && |ActiveIds(files)| < config.maxParallelFiles
      modifies this`files, this`nextStreamId, this`begins, this`controls
      ensures Valid() && Follows(base, State())
      ensures Launching() == LaunchOne(old(Launching()), id).(pending := pendingResumes)
      ensures r.Ok? <==> !LaunchFails(old(Launching()), id)
      ensures Progressed(old(files), files)
    {
      hide CoreOk, Follows, Sound, FileOk, ActiveIds, Activates;
      ghost var was := State();
      SoundCore(was, controls, data);
      if nextStreamId == U64_MAX { return Err(InvalidState); }
      if id !in files || files[id].activeStream.Some? || files[id].complete {
        SkipStream(base);
        if id !in files { return Err(UnknownFile); }
        return Ok([DuplicateControl]);
      }
      StartFresh(id, base);
      r := Ok([]);
    }

    method StartFresh(id: FileId, ghost base: Core)
      requires Valid() && Follows(base, State()) && role == Offerer && |ActiveIds(files)| < config.maxParallelFiles
      requires Startable(files, id) && nextStreamId < U64_MAX
      modifies this`files, this`nextStreamId, this`begins, this`controls
      ensures Valid() && Follows(base, State())
      ensures Launching() == LaunchOne(old(Launching()), id).(pending := pendingResumes)
      ensures Progressed(old(files), files)
    {
      hide CoreOk, Follows, Sound, FileOk, ActiveIds, Activates;
      ghost var was := State();
      SoundCore(was, controls, data);
      var f := files[id];
      FileFacts(was, id);
      var streamId := nextStreamId;
      var g := StartedOn(f, streamId);
      StartsActive(was, id, g);
      StartOn(id, g, base);
      RemainingOk(role, g);
      Queue(FileBegin(id, streamId, g.baseOffset, g.entry.size - g.baseOffset, g.entry.contentHash));
    }

    /** A stream id is used up without being announced. */
    method SkipStream(ghost base: Core)
      requires Valid() && Follows(base, State()) && nextStreamId < U64_MAX
      modifies this`nextStreamId
      ensures Valid() && Follows(base, State()) && nextStreamId == old(nextStreamId) + 1
    {
      hide CoreOk, Follows, Sound;
      ghost var was := State();
      SoundCore(was, controls, data);
      StreamSkipped(was);
      SoundNext(base, was, was.(nextStreamId := nextStreamId + 1), controls, data);
      nextStreamId := nextStreamId + 1;
    }

    // ---- The data path ----

    /** Offerer: the next bytes of an active file; FIN is accepted only with its last byte. */
    method QueueData(id: FileId, bytes: seq<byte>, fin: bool) returns (r: Result<DataChunk, CoreError>)
      requires Valid()
      modifies this`files, this`data
      ensures Valid() && Follows(old(State()), State())
      ensures r.Ok? <==> Sends(old(State()), id, bytes, fin)
      ensures r.Err? ==> files == old(files) && data == old(data)
      ensures r.Ok? ==>
        && Sends(old(State()), id, bytes, fin) && old(files)[id].activeStream.value in begins
        && begins[old(files)[id].activeStream.value] == Begin(id, old(files)[id].baseOffset)
        && r.value == DataChunk(id, old(files)[id].activeStream.value, old(files)[id].sendOffset, bytes, fin)
        && data == old(data) + [r.value] && files == old(files)[id := Sent(old(files)[id], bytes, fin)]
    {
      hide CoreOk, Follows, Sound, FileOk;
      ghost var base := State();
      FollowsSame(base);
      if role != Offerer { return Err(InvalidRole); }
      if id !in files { return Err(UnknownFile); }
      var f := files[id];
      if f.activeStream.None? { return Err(InvalidStream); }
      SoundCore(base, controls, data);
      FileFacts(base, id);
      OffsetsOk(role, f);
      var remaining := f.entry.size - f.baseOffset;
      var newOffset: nat := f.sendOffset + |bytes|;
      if newOffset > remaining || (fin && newOffset != remaining) { return Err(DataExceedsFile); }
      if f.finQueued { return Err(InvalidState); }
      SendOk(f, newOffset, fin);
      ChangeFile(id, Sent(f, bytes, fin), base);
      var chunk := DataChunk(id, f.activeStream.value, newOffset - |bytes|, bytes, fin);
      assert ChunkOk(State(), chunk);
      QueueChunk(chunk);
      r := Ok(chunk);
    }

    method QueueChunk(d: DataChunk)
      requires Valid() && ChunkOk(State(), d)
      modifies this`data
      ensures Valid() && data == old(data) + [d]
    {
      hide CoreOk;
      data := data + [d];
    }

    /** Accepter: a file goes on the stream it is told, at exactly its durable offset. */
    method HandleFileBegin(id: FileId, streamId: u64, baseOffset: u64, remainingSize: u64, contentHash: Digest)
      returns (r: Outcome)
      requires Valid()
      modifies this`state, this`files, this`controls
      ensures Valid() && Follows(old(State()), State())
      ensures if role == Accepter
          && BeginFits(old(files), config.maxParallelFiles, id, baseOffset, remainingSize, contentHash)
        then r.Ok? && files == old(files)[id := Begun(old(files)[id], streamId, baseOffset, remainingSize == 0)]
             && state == ReceivingData && controls == old(controls)
        else files == old(files) && state == old(state)
      ensures r.Ok? && id in old(files) && old(files)[id].complete ==>
        controls == old(controls) + [FileComplete(id, files[id].entry.size, files[id].entry.contentHash),
                                     TransferComplete(transferId, completedFiles, completedSize)]
      ensures r.Err? ==> controls == old(controls)
      ensures role == Offerer ==> r.Err?
    {
      hide CoreOk, Follows, Sound, FileOk, Activates;
      ghost var base := State();
      FollowsSame(base);
      if role != Accepter { return Err(InvalidRole); }
      if id !in files { return Err(UnknownFile); }
      var f := files[id];
      if f.complete {
        Queue(FileComplete(id, f.entry.size, f.entry.contentHash));
        Queue(TransferComplete(transferId, completedFiles, completedSize));
        return Ok([DuplicateControl]);
      }
      if baseOffset > f.entry.size { return Err(InvalidFileOffset); }
      if contentHash != f.entry.contentHash || remainingSize != f.entry.size - baseOffset {
        return Err(ManifestMismatch);
      }
      if f.activeStream.Some? {
        if f.activeStream.value == streamId && f.baseOffset == baseOffset { return Ok([DuplicateControl]); }
        return Err(InvalidStream);
      }
      if |ActiveIds(files)| >= config.maxParallelFiles { return Err(ActiveFileLimit); }
      if baseOffset != f.durableOffset { return Err(InvalidFileOffset); }
      SoundCore(base, controls, data);
      FileFacts(base, id);
      BegunOk(base, id, streamId, baseOffset, remainingSize == 0);
      BeginOn(id, Begun(f, streamId, baseOffset, remainingSize == 0), base);
      var events := SetState(ReceivingData, base);
      r := Ok(events);
    }

    /** Accepter: only the next bytes of the active stream are taken. The received offset moves
        before FIN is looked at, so a FIN before the end leaves it moved. */
    method HandleData(chunk: DataChunk) returns (r: Outcome)
      requires Valid()
      modifies this`files
      ensures Valid() && Follows(old(State()), State())
      ensures Expects(old(State()), chunk) && FinOk(old(files)[chunk.fileId], chunk) ==>
        && files == old(files)[chunk.fileId := Taken(old(files)[chunk.fileId], chunk)]
        && r == Ok(DataEvents(old(files)[chunk.fileId], chunk))
      ensures Expects(old(State()), chunk) && !FinOk(old(files)[chunk.fileId], chunk) ==>
        r.Err? && files == old(files)[chunk.fileId := Moved(old(files)[chunk.fileId], chunk)]
      ensures !Expects(old(State()), chunk) ==>
        && files == old(files) && (r.Err? || r.value == [DuplicateData(chunk.fileId, chunk.offset)])
      ensures r.Err? ==> !r.error.Stored?
    {
      hide CoreOk, Follows, Sound, FileOk;
      ghost var base := State();
      FollowsSame(base);
      if role != Accepter { return Err(InvalidRole); }
      if chunk.fileId !in files { return Err(UnknownFile); }
      var f := files[chunk.fileId];
      if f.activeStream.None? || f.activeStream.value != chunk.streamId { return Err(InvalidStream); }
      SoundCore(base, controls, data);
      FileFacts(base, chunk.fileId);
      OffsetsOk(role, f);
      var expected := f.receivedOffset - f.baseOffset;
      var end: nat := chunk.offset + |chunk.bytes|;
      var remaining := f.entry.size - f.baseOffset;
      if end > U64_MAX || end > remaining { return Err(DataExceedsFile); }
      if chunk.offset < expected && end <= expected { return Ok([DuplicateData(chunk.fileId, chunk.offset)]); }
      if chunk.offset != expected { return Err(InvalidDataOffset); }
      MovedOk(base, chunk);
      if chunk.fin && f.baseOffset + end != f.entry.size {
        ChangeFile(chunk.fileId, Moved(f, chunk), base);
        return Err(InvalidFileOffset);
      }
      ChangeFile(chunk.fileId, Taken(f, chunk), base);
      var event := DataReceived(chunk.fileId, f.baseOffset + chunk.offset, chunk.bytes, chunk.fin);
      r := Ok(if f.awaitingFinish || chunk.fin then [event, FileReadyToComplete(chunk.fileId)] else [event]);
    }

    // ---- Checkpoints and completion ----

    /** `validate_checkpoint`. */
    method ValidateCheckpoint(id: FileId, durableOffset: u64, checkpointId: u64) returns (error: Option<CoreError>)
      ensures error.None? <==> id in files && CheckpointOk(files[id], durableOffset, checkpointId)
    {
      if id !in files { return Some(UnknownFile); }
      var f := files[id];
      if durableOffset > f.receivedOffset { return Some(InvalidFileOffset); }
      if checkpointId < f.checkpointId || durableOffset < f.durableOffset
         || (checkpointId == f.checkpointId && durableOffset != f.durableOffset)
      {
        return Some(InvalidCheckpoint);
      }
      error := None;
    }

    /** Accepter: the durable offset and the checkpoint id only ever grow. */
    method CheckpointFile(id: FileId, durableOffset: u64, checkpointId: u64) returns (r: Outcome)
      requires Valid()
      modifies this`files, this`controls
      ensures Valid() && Follows(old(State()), State())
      ensures r.Ok? <==>
          role == Accepter && id in old(files) && CheckpointOk(old(files)[id], durableOffset, checkpointId)
      ensures r.Err? ==> files == old(files) && controls == old(controls)
      ensures r.Ok? ==>
        && files == old(files)[id := old(files)[id].(durableOffset := durableOffset, checkpointId := checkpointId)]
        && controls == old(controls) +
             if files == old(files) then [] else [Checkpoint(id, durableOffset, checkpointId)]
    {
      hide CoreOk, Follows, Sound, FileOk;
      ghost var base := State();
      FollowsSame(base);
      if role != Accepter { return Err(InvalidRole); }
      var error := ValidateCheckpoint(id, durableOffset, checkpointId);
      if error.Some? { return Err(error.value); }
      var f := files[id];
      if checkpointId == f.checkpointId && durableOffset == f.durableOffset {
        assert files == files[id := f];
        return Ok([DuplicateControl]);
      }
      SoundCore(base, controls, data);
      FileFacts(base, id);
      DurableOk(role, f, durableOffset, checkpointId, f.stateHash);
      ChangeFile(id, f.(durableOffset := durableOffset, checkpointId := checkpointId), base);
      Queue(Checkpoint(id, durableOffset, checkpointId));
      r := Ok([Checkpointed(id, durableOffset, checkpointId)]);
    }

    /** Accepter: the position found in storage, again never backwards. */
    method SetDurableState(id: FileId, durable: DurableState) returns (error: Option<CoreError>)
      requires Valid()
      modifies this`files
      ensures Valid() && Follows(old(State()), State())
      ensures error.Some? ==> files == old(files)
      ensures error.None? <==> id in old(files) && DurableFits(old(files)[id], durable)
      ensures error.None? ==>
        && id in old(files) && durable.durableOffset <= old(files)[id].entry.size
        && files == old(files)[id := old(files)[id].(durableOffset := durable.durableOffset,
              checkpointId := durable.checkpointId, stateHash := durable.stateHash)]
    {
      hide CoreOk, Follows, Sound, FileOk;
      ghost var base := State();
      FollowsSame(base);
      if id !in files { return Some(UnknownFile); }
      var f := files[id];
      if durable.durableOffset > f.entry.size { return Some(InvalidFileOffset); }
      if durable.checkpointId < f.checkpointId || durable.durableOffset < f.durableOffset
         || (durable.checkpointId == f.checkpointId && durable.durableOffset != f.durableOffset)
      {
        return Some(InvalidCheckpoint);
      }
      SoundCore(base, controls, data);
      FileFacts(base, id);
      DurableOk(role, f, durable.durableOffset, durable.checkpointId, durable.stateHash);
      ChangeFile(id, f.(durableOffset := durable.durableOffset, checkpointId := durable.checkpointId,
          stateHash := durable.stateHash), base);
      error := None;
    }

    /** Offerer: a checkpoint up to what was sent on the current stream. */
    method HandleRemoteCheckpoint(id: FileId, durableOffset: u64, checkpointId: u64) returns (r: Outcome)
      requires Valid()
      modifies this`files
      ensures Valid() && Follows(old(State()), State())
      ensures r.Err? ==> files == old(files)
      ensures files == if role == Offerer && id in old(files) && RemoteFits(old(files)[id], durableOffset, checkpointId)
        then old(files)[id := old(files)[id].(durableOffset := durableOffset, checkpointId := checkpointId)]
        else old(files)
      ensures |files| == |old(files)|
    {
      hide CoreOk, Follows, Sound, FileOk;
      ghost var base := State();
      FollowsSame(base);
      if role != Offerer { return Err(InvalidRole); }
      if id !in files { return Err(UnknownFile); }
      var f := files[id];
      if checkpointId == f.checkpointId {
        if durableOffset == f.durableOffset { return Ok([DuplicateControl]); }
        return Err(InvalidCheckpoint);
      }
      var maximum: nat := f.baseOffset + f.sendOffset;
      if durableOffset > maximum { return Err(InvalidFileOffset); }
      if checkpointId < f.checkpointId || durableOffset < f.durableOffset { return Err(InvalidCheckpoint); }
      SoundCore(base, controls, data);
      FileFacts(base, id);
      OffsetsOk(role, f);
      DurableOk(role, f, durableOffset, checkpointId, f.stateHash);
      SizesSame(files, id, f.(durableOffset := durableOffset, checkpointId := checkpointId));
      ChangeFile(id, f.(durableOffset := durableOffset, checkpointId := checkpointId), base);
      r := Ok([]);
    }

    /** `validate_file_completion`. */
    method ValidateCompletion(id: FileId, finalSize: u64, contentHash: Digest) returns (error: Option<CoreError>)
      ensures error.None? <==> id in files && (files[id].complete || CompletionOk(files[id], finalSize, contentHash))
    {
      if id !in files { return Some(UnknownFile); }
      var f := files[id];
      if f.complete { return None; }
      if !f.awaitingFinish || f.receivedOffset != f.entry.size { return Some(InvalidState); }
      if finalSize != f.entry.size || contentHash != f.entry.contentHash { return Some(FileIntegrity); }
      if f.durableOffset != f.entry.size { return Some(InvalidFileOffset); }
      error := None;
    }

    /** Accepter: a file completes when all of it was received, is durable and has the right
        hash; with the last one the transfer is complete. */
    method CompleteFile(id: FileId, finalSize: u64, contentHash: Digest) returns (r: Outcome)
      requires Valid()
      modifies this`state, this`files, this`completedFiles, this`completedSize, this`controls
      ensures Valid() && Follows(old(State()), State())
      ensures r.Ok? <==>
        && role == Accepter && id in old(files)
        && (old(files)[id].complete || CompletionOk(old(files)[id], finalSize, contentHash))
      ensures r.Err? || old(files)[id].complete ==> State() == old(State())
      ensures r.Ok? && !old(files)[id].complete ==>
        && files == old(files)[id := old(files)[id].(complete := true, activeStream := None)]
        && completedFiles == old(completedFiles) + 1 && completedSize == old(completedSize) + finalSize
        && controls == old(controls) + [FileComplete(id, finalSize, contentHash)] +
             (if completedFiles == |files| then [TransferComplete(transferId, completedFiles, completedSize)] else [])
        && (state == Completed <==> completedFiles == |files| || old(state) == Completed)
    {
      hide CoreOk, Follows, Sound, FileOk, Completes;
      ghost var base := State();
      FollowsSame(base);
      if role != Accepter { return Err(InvalidRole); }
      var error := ValidateCompletion(id, finalSize, contentHash);
      if error.Some? { return Err(error.value); }
      var f := files[id];
      if f.complete { return Ok([DuplicateControl]); }
      SoundCore(base, controls, data);
      FileFacts(base, id);
      CompletesOk(base, id);
      CompleteWith(id, f.(complete := true, activeStream := None), base);
      Queue(FileComplete(id, finalSize, contentHash));
      var events := [FileDone(id)];
      if completedFiles == |files| {
        Queue(TransferComplete(transferId, completedFiles, completedSize));
        HasManifest(State(), controls, data, id);
        var done := SetState(Completed, base);
        events := events + done + [TransferCompleted];
      }
      r := Ok(events);
    }

    /** Offerer: the accepter reports a file complete; its place goes to the next pending file. */
    method HandleFileCompleteAck(id: FileId, finalSize: u64, contentHash: Digest) returns (r: Outcome)
      requires Valid()
      modifies this`state, this`files, this`completedFiles, this`completedSize, this`nextStreamId, this`begins,
        this`pendingResumes, this`controls
      ensures role == Accepter ==> files == old(files)
      ensures Valid() && Follows(old(State()), State()) && data == old(data)
      ensures files == old(files) || (id in files && files[id].complete && finalSize == files[id].entry.size)
      ensures r.Ok? ==> role == Offerer && id in files && files[id].complete
      ensures r.Ok? && files != old(files) && completedFiles == |files| ==> state == AwaitingTransferComplete
      ensures id in old(files) && old(files)[id].complete ==> State() == old(State())
      ensures id !in old(files) ==> State() == old(State())
      ensures if role == Offerer && id in old(files) && AckFits(old(files)[id], finalSize, contentHash)
        then
          && (Launching(), r.Ok?) == LaunchAll(old(Launching()).(files := old(files)[id := Done(old(files)[id])]),
                config.maxParallelFiles)
          && completedFiles == old(completedFiles) + 1 && completedSize == old(completedSize) + finalSize
          && (r.Ok? && completedFiles < |files| ==>
                state == if |ActiveIds(files)| > 0 && old(state) == AwaitingResume then SendingData else old(state))
        else (r.Err? || r.value == [DuplicateControl]) && State() == old(State()) && Launching() == old(Launching())
    {
      hide CoreOk, Follows, Sound, FileOk, Completes, LaunchAll, LaunchOne, LaunchFails, ActiveIds, Progressed;
      ghost var base := State();
      FollowsSame(base);
      if role != Offerer { return Err(InvalidRole); }
      if id !in files { return Err(UnknownFile); }
      var f := files[id];
      if f.complete { return Ok([DuplicateControl]); }
      if finalSize != f.entry.size || contentHash != f.entry.contentHash { return Err(FileIntegrity); }
      assert OffsetsRight(f) by { SoundCore(base, controls, data); FileFacts(base, id); OffsetsOk(role, f); }
      var remaining := f.entry.size - f.baseOffset;
      if f.sendOffset != remaining || (!f.finQueued && remaining != 0) { return Err(InvalidState); }
      var started := TakeComplete(id, base);
      if started.Err? { return Err(started.error); }
      var events := [FileDone(id)] + started.value;
      if completedFiles == |files| {
        HasManifest(State(), controls, data, id);
        var moved := SetState(AwaitingTransferComplete, base);
        events := events + moved;
      }
      r := Ok(events);
    }

    /** The file is counted as complete, and pending files are started. */
    method TakeComplete(id: FileId, ghost base: Core) returns (r: Outcome)
      requires Valid() && Follows(base, State()) && role == Offerer && id in files && !files[id].complete
      modifies this`state, this`files, this`completedFiles, this`completedSize, this`nextStreamId, this`begins,
        this`pendingResumes, this`controls
      ensures Valid() && Follows(base, State())
      ensures (Launching(), r.Ok?) == LaunchAll(old(Launching()).(files := old(files)[id := Done(old(files)[id])]),
          config.maxParallelFiles)
      ensures state == if r.Ok? && |ActiveIds(files)| > 0 && old(state) == AwaitingResume then SendingData
          else old(state)
      ensures completedFiles == old(completedFiles) + 1
      ensures completedSize == old(completedSize) + old(files)[id].entry.size
      ensures id in files && files[id].complete && files[id].entry == old(files)[id].entry
    {
      hide CoreOk, Follows, Sound, FileOk, Completes, LaunchAll, LaunchOne, LaunchFails, ActiveIds, Progressed;
      ghost var was, f := State(), files[id];
      SoundCore(was, controls, data);
      FileFacts(was, id);
      CompletesSent(was, id);
      CompleteWith(id, Done(files[id]), base);
      ghost var completed := files;
      r := StartPendingFiles(base);
      StillDone(completed, files, id);
    }

    method HandleFileRejected(id: FileId) returns (r: Outcome)
      requires Valid()
      modifies this`state
      ensures Valid() && Follows(old(State()), State())
      ensures r.Ok? <==> role == Offerer && id in files
      ensures state == if r.Ok? then Failed else old(state)
    {
      hide CoreOk, Follows, Sound;
      ghost var base := State();
      FollowsSame(base);
      if role != Offerer { return Err(InvalidRole); }
      if id !in files { return Err(UnknownFile); }
      var events := SetState(Failed, base);
      r := Ok(events);
    }

    /** Offerer: the transfer is complete only when both sides count the same. */
    method HandleTransferComplete(transferId': nat, files': u64, size: u64) returns (r: Outcome)
      requires Valid()
      modifies this`state
      ensures Valid() && Follows(old(State()), State())
      ensures state == old(state)
        || (r.Ok? && role == Offerer && old(state) == AwaitingTransferComplete && state == Completed
            && files' == completedFiles && size == completedSize)
      ensures state == Completed && old(state) != Completed <==>
        && role == Offerer && old(state) == AwaitingTransferComplete && transferId' == transferId
        && files' == completedFiles && size == completedSize
    {
      hide CoreOk, Follows, Sound;
      ghost var base := State();
      FollowsSame(base);
      if role != Offerer { return Err(InvalidRole); }
      if transferId' != transferId { return Err(TransferIdMismatch); }
      if state == Completed { return Ok([DuplicateControl]); }
      if state != AwaitingTransferComplete || files' != completedFiles || size != completedSize {
        return Err(InvalidState);
      }
      assert PhaseOk(base) by { SoundCore(base, controls, data); PhaseFacts(base); }
      var moved := SetState(Completed, base);
      r := Ok(moved + [TransferCompleted]);
    }

    method Cancel() returns (events: seq<Event>)
      requires Valid()
      modifies this`state
      ensures Valid() && Follows(old(State()), State()) && state == Cancelled
    {
      hide CoreOk, Follows, Sound;
      FollowsSame(State());
      events := SetState(Cancelled, State());
    }

    // ---- Reconnecting ----

    /** Streams are given up and, for the accepter, reception goes back to what is durable. */
    method Reconnect() returns (r: Outcome)
      requires Valid()
      modifies this`state, this`files, this`pendingResumes, this`controls, this`data
      ensures Valid() && Follows(old(State()), State())
      ensures files == old(files) || files == ResetAll(role, old(files))
      ensures data == old(data) || data == []
      ensures r.Ok? && state == AwaitingResume ==> data == []
      ensures state == if old(state) == Completed || old(state) == Rejected || old(state) == Cancelled then old(state)
          else AwaitingResume
      ensures |files| == |old(files)|
      ensures r.Err? <==>
          old(state) == Rejected || old(state) == Cancelled || (old(state) == Completed && role == Offerer)
      ensures r.Err? ==> files == old(files) && controls == old(controls)
      ensures r.Ok? && state == Completed ==>
        && role == Accepter && Reports(files, controls, TransferComplete(transferId, completedFiles, completedSize))
      ensures r.Ok? && state != Completed ==>
        && files == ResetAll(role, old(files)) && pendingResumes == map[]
        && (role == Accepter ==> controls == old(controls))
        && (role == Offerer ==>
              && manifest.Some?
              && controls == old(controls) + ManifestMessages(transferId, config, manifest.value) +
                    Queries(manifest.value.entries, files, true))
    {
      hide CoreOk, Follows, Sound, ResetAll, ManifestMessages, Queries, Reports;
      ghost var base := State();
      FollowsSame(base);
      if state == Completed && role == Accepter {
        ClearQueues(true);
        ReportComplete();
        return Ok([]);
      }
      if state == Completed || state == Rejected || state == Cancelled { return Err(InvalidState); }
      assert PhaseOk(base) by { SoundCore(base, controls, data); PhaseFacts(base); }
      ClearQueues(false);
      pendingResumes := map[];
      ResetFiles(base);
      if role == Offerer {
        if manifest.None? { return Err(ManifestRequired); }
        QueueManifest(manifest.value);
        QueueQueries(manifest.value.entries, true);
      }
      var events := SetState(AwaitingResume, base);
      r := Ok(events);
    }

    /** The completed accepter reports every complete file and the whole transfer again. */
    method ReportComplete()
      requires Valid() && controls == []
      modifies this`controls
      ensures Valid() && Reports(files, controls, TransferComplete(transferId, completedFiles, completedSize))
    {
      hide CoreOk, Sound, CompleteInOrder, Completions, Reports;
      SoundCore(State(), controls, data);
      PhaseFacts(State());
      var remaining := set id | id in files && files[id].complete;
      ghost var order: seq<FileId> := [];
      NoneInOrder(files, remaining);
      while remaining != {}
        invariant Valid() && remaining <= files.Keys && forall id :: id in remaining ==> files[id].complete
        invariant forall i :: 0 <= i < |order| ==> order[i] in files
        invariant CompleteInOrder(order, files, remaining) && controls == Completions(order, files)
        decreases |remaining|
      {
        var id := SmallestOf(remaining);
        NextComplete(order, files, remaining, id);
        remaining := remaining - {id};
        Queue(FileComplete(id, files[id].entry.size, files[id].entry.contentHash));
        order := order + [id];
      }
      Queue(TransferComplete(transferId, completedFiles, completedSize));
      ReportsAll(order, files, controls, TransferComplete(transferId, completedFiles, completedSize));
    }

    method HandleTransferError(retryable: bool) returns (r: Outcome)
      requires Valid()
      modifies this`state, this`files, this`pendingResumes, this`controls, this`data
      ensures Valid() && Follows(old(State()), State())
      ensures files == old(files) || (retryable && files == ResetAll(role, old(files)))
      ensures data == old(data) || data == []
      ensures |files| == |old(files)|
      // An error that is not retryable fails the session, whatever its state was; any other reconnects it.
      ensures !retryable ==>
        && r.Ok? && state == Failed
        && controls == old(controls) && data == old(data) && pendingResumes == old(pendingResumes)
      ensures retryable ==>
        && state == (if old(state) == Completed || old(state) == Rejected || old(state) == Cancelled then old(state)
             else AwaitingResume)
        && (r.Err? <==>
              old(state) == Rejected || old(state) == Cancelled || (old(state) == Completed && role == Offerer))
    {
      hide CoreOk, Follows, Sound, ResetAll;
      if retryable {
        r := Reconnect();
      } else {
        FollowsSame(State());
        var events := SetState(Failed, State());
        r := Ok(events);
      }
    }

    // ---- With a file store ----

    /** Accepted bytes are written at their absolute offset; a storage error fails the session. */
    method HandleDataWithStorage(storage: FileStorage, chunk: DataChunk) returns (r: Outcome)
      requires Valid() && storage.Valid()
      modifies this`files, this`state, storage
      ensures Valid() && Follows(old(State()), State()) && storage.Valid()
      ensures (&& Accepts(old(State()), chunk)
               && Stores(old(storage.records), chunk.fileId, old(files)[chunk.fileId].receivedOffset, chunk.bytes)) ==>
        && r.Ok? && files == old(files)[chunk.fileId := Taken(old(files)[chunk.fileId], chunk)]
        && storage.records == old(storage.records)[chunk.fileId :=
             Written(old(storage.records)[chunk.fileId], old(files)[chunk.fileId].receivedOffset, chunk.bytes)]
      ensures (&& Accepts(old(State()), chunk)
               && !Stores(old(storage.records), chunk.fileId, old(files)[chunk.fileId].receivedOffset, chunk.bytes)) ==>
        && r.Err? && r.error.Stored? && state == Failed && storage.records == old(storage.records)
      ensures !Accepts(old(State()), chunk) ==> storage.records == old(storage.records) && !(r.Err? && r.error.Stored?)
      ensures !Expects(old(State()), chunk) ==> files == old(files)
    {
      hide CoreOk, Follows, Sound, FileOk, WriteOk, Written, DataEvents, FirstData;
      ghost var base := State();
      FollowsSame(base);
      if chunk.fileId !in files { return Err(UnknownFile); }
      var absoluteOffset := SatAdd(files[chunk.fileId].baseOffset, chunk.offset);
      FirstDataFacts(files[chunk.fileId], chunk, chunk.fileId, chunk.offset);
      r := HandleData(chunk);
      if r.Err? { return; }
      var bytes := FirstData(r.value);
      if bytes.Some? {
        var error := storage.WriteData(chunk.fileId, absoluteOffset, bytes.value);
        if error.Some? {
          var failed := SetState(Failed, base);
          return Err(Stored(error.value));
        }
      }
    }

    /** The accepter takes over what storage holds durably, then answers. */
    method RespondWithStorage(storage: FileStorage, id: FileId, contentHash: Digest, size: u64) returns (r: Outcome)
      requires Valid() && storage.Valid()
      modifies this`files, this`controls
      ensures Valid() && Follows(old(State()), State())
      ensures r.Ok? <==>
        && id in storage.records && id in old(files) && DurableFits(old(files)[id], storage.records[id].durable)
        && QueryFits(role, state, old(files), id, contentHash, size)
      ensures files == old(files)
        || (id in old(files) && id in storage.records && var d := storage.records[id].durable;
            && d.durableOffset <= old(files)[id].entry.size
            && files == old(files)[id :=
                 old(files)[id].(durableOffset := d.durableOffset, checkpointId := d.checkpointId,
                                 stateHash := d.stateHash)])
    {
      hide CoreOk, Follows, Sound, FileOk;
      FollowsSame(State());
      var durable := storage.DurableStateOf(id);
      if durable.Err? { return Err(Stored(durable.error)); }
      var error := SetDurableState(id, durable.value);
      if error.Some? { return Err(error.value); }
      r := HandleResumeQuery(id, contentHash, size);
    }

    /** Storage makes the checkpoint durable before the session records and reports it. */
    method CheckpointWithStorage(storage: FileStorage, id: FileId, durable: DurableState) returns (r: Outcome)
      requires Valid() && storage.Valid()
      modifies this`files, this`controls, storage
      ensures Valid() && Follows(old(State()), State()) && storage.Valid()
      ensures storage.records == old(storage.records) || CheckpointStored(old(storage.records), storage.records, id)
      ensures r.Ok? ==>
        && id in storage.records && (storage.records[id].complete || storage.records[id].durable == durable)
      ensures files == old(files)
        || (id in old(files) && id in old(storage.records) && SameStream(old(files)[id],
            files[id]) && files == old(files)[id := files[id]]
            && files[id].durableOffset <= files[id].receivedOffset)
    {
      hide CoreOk, Follows, Sound, FileOk;
      ghost var base := State();
      FollowsSame(base);
      var refused := ValidateCheckpoint(id, durable.durableOffset, durable.checkpointId);
      if refused.Some? { return Err(refused.value); }
      var error := storage.Checkpoint(id, durable);
      if error.Some? { return Err(Stored(error.value)); }
      var f := files[id];
      SoundCore(base, controls, data);
      FileFacts(base, id);
      HashTaken(role, f, durable.stateHash);
      ChangeFile(id, f.(stateHash := durable.stateHash), base);
      ghost var hashed := State();
      r := CheckpointFile(id, durable.durableOffset, durable.checkpointId);
      FollowsTransitive(base, hashed, State());
    }

    /** Storage moves the file into place before the session counts it. */
    method CompleteWithStorage(storage: FileStorage, id: FileId, finalSize: u64, contentHash: Digest)
      returns (r: Outcome)
      requires Valid() && storage.Valid()
      modifies this`state, this`files, this`completedFiles, this`completedSize, this`controls, storage
      ensures Valid() && Follows(old(State()), State()) && storage.Valid()
      ensures r.Err? ==> State() == old(State())
      ensures r.Ok? <==>
          role == Accepter && Finishes(old(files), old(storage.records), id, finalSize, contentHash, storage.hash)
      // An offerer is refused only after its store has acted.
      ensures r.Err? ==>
        || storage.records == old(storage.records)
        || (role == Offerer && Finishes(old(files), old(storage.records), id, finalSize, contentHash, storage.hash))
      ensures r.Ok? ==> id in old(files) && id in old(storage.records)
      ensures r.Ok? && !old(storage.records)[id].complete ==>
        && storage.records.Keys == old(storage.records).Keys && storage.records[id].complete
        && Content(storage.records[id]) == Content(old(storage.records)[id])
        && storage.records[id].size == old(storage.records)[id].size
        && storage.hash(Content(storage.records[id])) == contentHash
        && (forall k :: k in storage.records && k != id ==> storage.records[k] == old(storage.records)[k])
      ensures r.Ok? && old(storage.records)[id].complete ==> storage.records == old(storage.records)
      ensures r.Ok? && old(files)[id].complete ==> files == old(files)
      ensures r.Ok? && !old(files)[id].complete ==>
        files == old(files)[id := old(files)[id].(complete := true, activeStream := None)]
    {
      hide CoreOk, Follows, Sound, FileOk;
      FollowsSame(State());
      var refused := ValidateCompletion(id, finalSize, contentHash);
      if refused.Some? { return Err(refused.value); }
      var error := storage.Complete(id, finalSize, contentHash);
      if error.Some? { return Err(Stored(error.value)); }
      r := CompleteFile(id, finalSize, contentHash);
    }

    // ---- Dispatch ----

    method HandleControl(m: Control) returns (r: Outcome)
      requires Valid()
      modifies this
      ensures Valid() && Follows(old(State()), State())
      ensures role == Accepter ==> AccepterHeard(old(State()), m, State())
      ensures data == old(data) || data == []
      ensures Stranded(old(State())) ==> Stranded(State())
    {
      hide CoreOk, Follows, Sound, FileOk, ResetAll, Installed, LaunchAll;
      hide LaunchOne, LaunchFails, ResumeFits, AckFits, Queries, Reports, ManifestMessages;
      NoFilesYet(State(), controls, data);
      StrandedFiles(State(), controls, data);
      match m
      case SessionHello(id, version, digest) => r := HandleSessionHello(id, version, digest);
      case ManifestBegin(count, size, digest) => r := HandleManifestBegin(count, size, digest);
      case ManifestItem(entry) => r := HandleManifestItem(entry);
      case ManifestEnd(digest) => r := HandleManifestEnd(digest);
      case ReceiveDecision(accepted) => r := HandleReceiveDecision(accepted);
      case ResumeQuery(id, hash, size) => FollowsSame(State()); r := HandleResumeQuery(id, hash, size);
      case ResumeState(id, offset, checkpoint, hash) => r := HandleResumeState(id,
          DurableState(offset, checkpoint, hash));
      case FileBegin(id, stream, baseOffset, remaining, hash) => r := HandleFileBegin(id, stream, baseOffset,
          remaining, hash);
      case Checkpoint(id, offset, checkpoint) => r := HandleRemoteCheckpoint(id, offset, checkpoint);
      case FileComplete(id, size, hash) => r := HandleFileCompleteAck(id, size, hash);
      case FileRejected(id) => r := HandleFileRejected(id);
      case TransferComplete(id, count, size) => r := HandleTransferComplete(id, count, size);
      case TransferError(retryable) => r := HandleTransferError(retryable);
    }

    method DrainControl() returns (drained: seq<Control>)
      requires Valid()
      modifies this`controls
      ensures Valid() && drained == old(controls) && controls == [] && ControlsOk(State(), drained)
    {
      drained := controls;
      controls := [];
    }

    method DrainData() returns (drained: seq<DataChunk>)
      requires Valid()
      modifies this`data
      ensures Valid() && drained == old(data) && data == [] && ChunksOk(State(), drained)
    {
      drained := data;
      data := [];
    }
  }

  lemma FileCountSmall(c: Core)
    requires CoreOk(c)
    ensures |c.files| <= MAX_MANIFEST_FILES
  {
  }

  // ---- What a reconnect leaves possible ----

  /** What can happen to an offerer after it reconnected. */
  datatype OffererEvent =
    | Hear(message: Control)
    | Feed(fileId: FileId, bytes: seq<byte>, fin: bool)
    | SendOut
    | ReconnectAgain
    | GiveUp

  /** An offerer that reconnects with all its files complete never completes the transfer,
      whatever it hears and does afterwards: nothing leads back to waiting for the peer's word. */
  method ReconnectStrands(session: TransferSession, script: seq<OffererEvent>)
    requires session.Valid() && session.role == Offerer && session.state != Completed
    requires session.completedFiles == |session.files|
    modifies session
    ensures session.Valid() && session.state != Completed && forall id :: id in session.files ==>
      session.files[id].complete
  {
    hide CoreOk, Sound, Follows, ResetAll, Queries, ManifestMessages;
    var r := session.Reconnect();
    for i := 0 to |script|
      invariant session.Valid() && Stranded(session.State())
    {
      StrandedStep(session, script[i]);
    }
    EveryFileComplete(session.State(), session.controls, session.data);
  }

  method StrandedStep(session: TransferSession, event: OffererEvent)
    requires session.Valid() && Stranded(session.State())
    modifies session
    ensures session.Valid() && Stranded(session.State())
  {
    hide CoreOk, Sound, Follows, ResetAll, Queries, ManifestMessages;
    match event
    case Hear(message) => var heard := session.HandleControl(message);
    case Feed(id, bytes, fin) => var fed := session.QueueData(id, bytes, fin);
    case SendOut =>
      var controls := session.DrainControl();
      var data := session.DrainData();
    case ReconnectAgain => var again := session.Reconnect();
    case GiveUp => var cancelled := session.Cancel();
  }

  /** An offerer that reconnects with a file still missing, and with stream ids left, can
      complete: its peer resumes each missing file where the offerer believes it stands, takes
      the rest and acknowledges it, and finally reports the transfer complete. Together with
      `ReconnectStrands`: after a reconnect completion is possible if and only if a file is missing. */
  method ReconnectRecovers(session: TransferSession)
    requires session.Valid() && session.role == Offerer
    requires session.state != Completed && session.state != Rejected && session.state != Cancelled
    requires session.completedFiles < |session.files| && session.nextStreamId + |session.files| <= U64_MAX
    modifies session
    ensures session.Valid() && session.state == Completed && forall id :: id in session.files ==>
      session.files[id].complete
  {
    hide CoreOk, Sound, Follows, Queries, ManifestMessages, ResetAll, NoneActive;
    SomeMissing(session.State(), session.controls, session.data);
    NoneActiveReset(session.State(), session.controls, session.data);
    var r := session.Reconnect();
    while session.completedFiles < |session.files|
      invariant session.Valid() && session.role == Offerer
      invariant session.pendingResumes == map[] && NoneActive(session.files)
      invariant session.nextStreamId + (|session.files| - session.completedFiles) <= U64_MAX
      invariant session.completedFiles <= |session.files|
      invariant if session.completedFiles < |session.files|
          then session.state == AwaitingResume || session.state == SendingData
                else session.state == AwaitingTransferComplete
      decreases |session.files| - session.completedFiles
    {
      FinishOne(session);
    }
    var done := session.HandleTransferComplete(session.transferId, session.completedFiles, session.completedSize);
    EveryFileComplete(session.State(), session.controls, session.data);
  }

  predicate NoneActive(files: Files)
  {
    forall id :: id in files ==> files[id].activeStream.None?
  }

  lemma NoneActiveReset(c: Core, controls: seq<Control>, data: seq<DataChunk>)
    requires Sound(c, controls, data)
    ensures NoneActive(ResetAll(c.role, c.files))
  {
  }

  lemma NoPlaceTaken(files: Files)
    requires NoneActive(files)
    ensures |ActiveIds(files)| == 0
  {
    assert ActiveIds(files) == {};
  }

  /** While the count is short, a file is missing. */
  lemma SomeMissing(c: Core, controls: seq<Control>, data: seq<DataChunk>)
    requires Sound(c, controls, data)
    ensures c.completedFiles <= |c.files|
    ensures c.completedFiles < |c.files| ==> exists id :: id in c.files && !c.files[id].complete
  {
    CompletesWithin(c.files);
    if forall id :: id in c.files ==> c.files[id].complete { AllSizes(c.files); }
    hide CoreOk, CompleteSizes;
    CompletedCount(c, controls, data);
  }

  lemma CompletedCount(c: Core, controls: seq<Control>, data: seq<DataChunk>)
    requires Sound(c, controls, data)
    ensures c.completedFiles == |CompleteSizes(c.files)|
  {
  }

  lemma AllSizes(files: Files)
    requires forall id :: id in files ==> files[id].complete
    ensures |CompleteSizes(files)| == |files|
  {
    assert CompleteSizes(files).Keys == files.Keys;
  }

  /** The peer asks for the file from where the offerer believes it stands. */
  method ResumeOne(session: TransferSession, id: FileId)
    requires session.Valid() && session.role == Offerer && id in session.files && !session.files[id].complete
    requires session.pendingResumes == map[] && NoneActive(session.files) && session.nextStreamId < U64_MAX
    requires session.state == AwaitingResume || session.state == SendingData
    modifies session
    ensures session.Valid() && session.pendingResumes == map[] && session.nextStreamId == old(session.nextStreamId) + 1
    ensures session.files == old(session.files)[id := StartedOn(old(session.files)[id], old(session.nextStreamId))]
    ensures session.state == AwaitingResume || session.state == SendingData
    ensures session.completedFiles == old(session.completedFiles)
  {
    hide CoreOk, Sound, Follows, FileOk, LaunchAll, Progressed;
    var f := session.files[id];
    assert f.durableOffset <= f.entry.size by { FileSpan(session.State(), session.controls, session.data, id); }
    NoPlaceTaken(session.files);
    var durable := DurableState(f.durableOffset, f.checkpointId, f.stateHash);
    assert session.files[id := Resumed(f, durable)] == session.files;
    LaunchSingle(session.Launching().(pending := map[id := durable]), session.config.maxParallelFiles, id);
    var r := session.HandleResumeState(id, durable);
  }

  lemma FileSpan(c: Core, controls: seq<Control>, data: seq<DataChunk>, id: FileId)
    requires Sound(c, controls, data) && id in c.files
    ensures c.files[id].durableOffset <= c.files[id].entry.size && c.files[id].baseOffset <= c.files[id].entry.size
  {
  }

  /** The rest of the file is fed to the session, whatever the bytes are. */
  method SendRest(session: TransferSession, id: FileId)
    requires session.Valid() && session.role == Offerer && id in session.files
    requires var f := session.files[id];
      f.activeStream.Some? && f.sendOffset == 0 && f.finQueued == (f.entry.size == f.baseOffset)
    modifies session`files, session`data
    ensures session.Valid() && id in session.files && session.files == old(session.files)[id := session.files[id]]
    ensures var f, was := session.files[id], old(session.files)[id];
      f == was.(sendOffset := f.sendOffset, finQueued := true) && f.baseOffset + f.sendOffset == f.entry.size
  {
    hide CoreOk, Sound, Follows, FileOk;
    var f := session.files[id];
    assert f.baseOffset <= f.entry.size by { FileSpan(session.State(), session.controls, session.data, id); }
    if f.baseOffset < f.entry.size {
      var rest := seq(f.entry.size - f.baseOffset, _ => 0);
      var fed := session.QueueData(id, rest, true);
    }
  }

  /** One missing file is resumed, sent to its end and acknowledged. */
  method FinishOne(session: TransferSession)
    requires session.Valid() && session.role == Offerer && session.completedFiles < |session.files|
    requires session.pendingResumes == map[] && NoneActive(session.files) && session.nextStreamId < U64_MAX
    requires session.state == AwaitingResume || session.state == SendingData
    modifies session
    ensures session.Valid() && session.pendingResumes == map[]
    ensures NoneActive(session.files) && |session.files| == |old(session.files)|
    ensures session.nextStreamId == old(session.nextStreamId) + 1
    ensures session.completedFiles == old(session.completedFiles) + 1
    ensures if session.completedFiles < |session.files|
        then session.state == AwaitingResume || session.state == SendingData
            else session.state == AwaitingTransferComplete
  {
    hide CoreOk, Sound, Follows, FileOk, LaunchAll, LaunchFails, ActiveIds, Progressed;
    SomeMissing(session.State(), session.controls, session.data);
    var id :| id in session.files && !session.files[id].complete;
    var f := session.files[id];
    ResumeOne(session, id);
    SendRest(session, id);
    ghost var files := session.files;
    LaunchDone(session.Launching().(files := files[id := Done(files[id])]), session.config.maxParallelFiles);
    var acked := session.HandleFileCompleteAck(id, f.entry.size, f.entry.contentHash);
    SomeMissing(session.State(), session.controls, session.data);
  }
}
