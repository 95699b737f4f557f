/** The state of a transfer session as a value, and what every handler keeps of it. */
module SessionModel {
  import opened Wrappers
  import opened Bytes
  import opened Sums
  import opened Manifest

  datatype Role = Offerer | Accepter

  datatype SessionState =
    | New | AwaitingHello | SendingManifest | ReceivingManifest | AwaitingDecision | AwaitingResume
    | SendingData | ReceivingData | AwaitingTransferComplete | Completed | Rejected | Cancelled | Failed

  datatype FileRuntime = FileRuntime(
    entry: Entry, durableOffset: u64, receivedOffset: u64, checkpointId: u64, stateHash: Digest,
    activeStream: Option<u64>, baseOffset: u64, sendOffset: u64, finQueued: bool, awaitingFinish: bool, complete: bool)

  type Files = map<FileId, FileRuntime>

  function NewRuntime(e: Entry): FileRuntime
  {
    FileRuntime(e, 0, 0, 0, 0, None, 0, 0, false, false, false)
  }

  /** `install_manifest`: the runtime records, collected by id. */
  function Installed(entries: seq<Entry>): Files
  {
    if |entries| == 0 then map[] else
    var last := entries[|entries| - 1];
    Installed(entries[..|entries| - 1])[last.fileId := NewRuntime(last)]
  }

  datatype DataChunk = DataChunk(fileId: FileId, streamId: u64, offset: u64, bytes: seq<byte>, fin: bool)

  datatype Control =
    | SessionHello(transferId: nat, protocolVersion: byte, manifestDigest: Digest)
    | ManifestBegin(fileCount: u64, totalSize: u64, manifestDigest: Digest)
    | ManifestItem(entry: Entry)
    | ManifestEnd(manifestDigest: Digest)
    | ReceiveDecision(accepted: bool)
    | ResumeQuery(fileId: FileId, contentHash: Digest, size: u64)
    | ResumeState(fileId: FileId, durableOffset: u64, checkpointId: u64, stateHash: Digest)
    | FileBegin(fileId: FileId, streamId: u64, baseOffset: u64, remainingSize: u64, contentHash: Digest)
    | Checkpoint(fileId: FileId, durableOffset: u64, checkpointId: u64)
    | FileComplete(fileId: FileId, finalSize: u64, contentHash: Digest)
    | FileRejected(fileId: FileId)
    | TransferComplete(transferId: nat, completedFiles: u64, totalSize: u64)
    | TransferError(retryable: bool)

  /** Where a data stream starts: its file and base offset. */
  datatype Begin = Begin(fileId: FileId, baseOffset: u64)

  /** The session's state without its outbound queues. `begins` records every stream ever begun. */
  datatype Core = Core(
    role: Role, maxParallel: nat, state: SessionState, manifest: Option<Manifest>, assembly: Option<seq<Entry>>,
    files: Files, completedFiles: nat, completedSize: nat, nextStreamId: nat, begins: map<nat, Begin>)

  // ---- The invariant ----

  /** No subtraction of offsets underflows. */
  predicate FileOk(role: Role, f: FileRuntime)
  {
    && f.durableOffset <= f.entry.size && f.baseOffset <= f.entry.size && f.receivedOffset <= f.entry.size
    && (f.complete ==> f.activeStream.None?)
    && (role == Offerer ==> f.baseOffset + f.sendOffset <= f.entry.size)
    && (role == Offerer && f.finQueued ==> f.baseOffset + f.sendOffset == f.entry.size)
    && (role == Accepter && f.activeStream.Some? ==> f.baseOffset <= f.receivedOffset)
    && (role == Accepter && f.complete ==> f.durableOffset == f.receivedOffset == f.entry.size)
  }

  ghost predicate FilesOk(role: Role, files: Files)
  {
    forall id :: id in files ==> FileOk(role, files[id]) && files[id].entry.fileId == id
  }

  function Sizes(files: Files): map<FileId, nat>
  {
    map id | id in files :: files[id].entry.size
  }

  function CompleteSizes(files: Files): map<FileId, nat>
  {
    map id | id in files && files[id].complete :: files[id].entry.size
  }

  function ActiveIds(files: Files): set<FileId>
  {
    set id | id in files && files[id].activeStream.Some?
  }

  ghost predicate ActiveOk(files: Files, maxParallel: nat)
  {
    |ActiveIds(files)| <= maxParallel
  }

  /** The counters are the number and the total size of the complete files, and cannot overflow. */
  ghost predicate CountsOk(files: Files, completedFiles: nat, completedSize: nat)
  {
    && completedFiles == |CompleteSizes(files)| && completedSize == Sum(CompleteSizes(files))
    && Sum(Sizes(files)) <= U64_MAX && |files| <= MAX_MANIFEST_FILES
  }

  ghost predicate FilesMatch(files: Files, manifest: Option<Manifest>)
  {
    && (manifest.None? ==> files == map[])
    && (manifest.Some? ==>
          && |files| == |manifest.value.entries|
          && (forall e :: e in manifest.value.entries ==> e.fileId in files)
          && (forall id :: id in files ==> files[id].entry in manifest.value.entries))
  }

  /** Completion means that every file is complete; a manifest is installed at most once. */
  ghost predicate PhaseOk(c: Core)
  {
    && (c.state.Completed? || c.state.AwaitingTransferComplete? ==> c.manifest.Some? && c.completedFiles == |c.files|)
    && (c.role == Offerer ==> c.manifest.Some? && !c.state.ReceivingManifest?)
    && (c.role == Accepter && c.manifest.Some? ==>
          c.assembly.None? && !c.state.New? && !c.state.AwaitingHello? && !c.state.ReceivingManifest?)
    && (c.role == Accepter && c.state.AwaitingDecision? ==> c.manifest.Some?)
  }

  /** Each active file of the offerer is on a stream begun for it at its base. */
  ghost predicate StreamsOk(c: Core)
  {
    && (forall st :: st in c.begins ==> st < c.nextStreamId)
    && (c.role == Offerer ==> forall id :: id in c.files && c.files[id].activeStream.Some? ==>
          var st := c.files[id].activeStream.value;
          st in c.begins && c.begins[st] == Begin(id, c.files[id].baseOffset))
  }

  ghost predicate CoreOk(c: Core)
  {
    && FilesOk(c.role, c.files) && CountsOk(c.files, c.completedFiles, c.completedSize)
    && ActiveOk(c.files, c.maxParallel)
    && FilesMatch(c.files, c.manifest) && PhaseOk(c) && StreamsOk(c)
  }

  /** A FileBegin announces a begun stream; a ManifestItem is in the manifest. */
  ghost predicate ControlOk(c: Core, m: Control)
  {
    && (m.FileBegin? ==> m.streamId in c.begins && c.begins[m.streamId] == Begin(m.fileId, m.baseOffset))
    && (m.ManifestItem? ==> c.manifest.Some? && m.entry in c.manifest.value.entries)
  }

  ghost predicate ControlsOk(c: Core, controls: seq<Control>)
  {
    forall m :: m in controls ==> ControlOk(c, m)
  }

  /** A chunk lies inside its file, on a stream begun for it, and FIN stands only at the end. */
  ghost predicate ChunkOk(c: Core, d: DataChunk)
  {
    && d.streamId in c.begins && c.begins[d.streamId].fileId == d.fileId && d.fileId in c.files
    && var end := c.begins[d.streamId].baseOffset + d.offset + |d.bytes|;
       end <= c.files[d.fileId].entry.size && (d.fin ==> end == c.files[d.fileId].entry.size)
  }

  ghost predicate ChunksOk(c: Core, data: seq<DataChunk>)
  {
    forall d :: d in data ==> ChunkOk(c, d)
  }

  /** What no step undoes: entries, completion and begun streams stay, and the accepter's
      durable offset and checkpoint id never go back. */
  ghost predicate Follows(was: Core, now: Core)
  {
    && was.role == now.role && was.maxParallel == now.maxParallel && was.nextStreamId <= now.nextStreamId
    && (was.manifest.Some? ==> now.manifest == was.manifest)
    && (forall id :: id in was.files ==> id in now.files && FileFollows(was.role, was.files[id], now.files[id]))
    && (forall st :: st in was.begins ==> st in now.begins && now.begins[st] == was.begins[st])
  }

  predicate FileFollows(role: Role, was: FileRuntime, now: FileRuntime)
  {
    && was.entry == now.entry && (was.complete ==> now.complete)
    && (role == Accepter ==> was.durableOffset <= now.durableOffset && was.checkpointId <= now.checkpointId)
  }

  lemma FollowsTransitive(a: Core, b: Core, c: Core)
    requires Follows(a, b) && Follows(b, c)
    ensures Follows(a, c)
  {
    forall id | id in a.files ensures id in c.files && FileFollows(a.role, a.files[id], c.files[id]) {
      assert FileFollows(b.role, b.files[id], c.files[id]);
    }
  }

  /** Queued messages stay right as the session goes on. */
  lemma ControlsStay(was: Core, now: Core, controls: seq<Control>)
    requires Follows(was, now) && ControlsOk(was, controls)
    ensures ControlsOk(now, controls)
  {
  }

  lemma ChunksStay(was: Core, now: Core, data: seq<DataChunk>)
    requires Follows(was, now) && ChunksOk(was, data)
    ensures ChunksOk(now, data)
  {
    forall d | d in data ensures ChunkOk(now, d) {
      assert ChunkOk(was, d);
      assert FileFollows(was.role, was.files[d.fileId], now.files[d.fileId]);
    }
  }

  /** Once the counters say so, every file is complete. */
  lemma AllComplete(c: Core)
    requires CoreOk(c) && c.completedFiles == |c.files|
    ensures forall id :: id in c.files ==> c.files[id].complete
    ensures c.completedSize == Sum(Sizes(c.files))
  {
    var done := CompleteSizes(c.files).Keys;
    assert done <= c.files.Keys && |done| == |CompleteSizes(c.files)|;
    SubsetSame(done, c.files.Keys);
    assert CompleteSizes(c.files) == Sizes(c.files);
  }

  lemma SubsetSame(a: set<FileId>, b: set<FileId>)
    requires a <= b && |a| == |b|
    ensures a == b
  {
    if a != b {
      var x :| x in b && x !in a;
      SubsetSize(a, b - {x});
    }
  }

  lemma {:induction false} SubsetSize(a: set<FileId>, b: set<FileId>)
    requires a <= b
    ensures |a| <= |b|
    decreases a
  {
    if a != {} {
      var x :| x in a;
      SubsetSize(a - {x}, b - {x});
    }
  }

  // ---- One record replaced ----

  lemma SizesSame(files: Files, id: FileId, g: FileRuntime)
    requires id in files && g.entry == files[id].entry
    ensures Sizes(files[id := g]) == Sizes(files) && |files[id := g]| == |files|
  {
    assert files[id := g].Keys == files.Keys;
  }

  lemma SameSize(files: Files, id: FileId, g: FileRuntime)
    requires id in files
    ensures |files[id := g]| == |files|
  {
    assert files[id := g].Keys == files.Keys;
  }

  lemma CompletesSame(files: Files, id: FileId, g: FileRuntime)
    requires id in files && g.entry == files[id].entry && g.complete == files[id].complete
    ensures CompleteSizes(files[id := g]) == CompleteSizes(files)
  {
  }

  lemma CountsSame(files: Files, id: FileId, g: FileRuntime, n: nat, size: nat)
    requires id in files && g.entry == files[id].entry && g.complete == files[id].complete && CountsOk(files, n, size)
    ensures CountsOk(files[id := g], n, size)
  {
    hide Sizes, CompleteSizes, Sum;
    SizesSame(files, id, g);
    CompletesSame(files, id, g);
  }

  lemma ActiveUpdate(files: Files, id: FileId, g: FileRuntime)
    requires id in files
    ensures ActiveIds(files[id := g]) == if g.activeStream.Some? then ActiveIds(files) + {id}
        else ActiveIds(files) - {id}
    ensures files[id].activeStream.Some? <==> id in ActiveIds(files)
  {
  }

  lemma MatchSame(files: Files, manifest: Option<Manifest>, id: FileId, g: FileRuntime)
    requires id in files && g.entry == files[id].entry && FilesMatch(files, manifest)
    ensures FilesMatch(files[id := g], manifest)
  {
    SameSize(files, id, g);
    assert files != map[];
  }

  lemma FilesOkSame(role: Role, files: Files, id: FileId, g: FileRuntime)
    requires FilesOk(role, files) && id in files && g.entry == files[id].entry && FileOk(role, g)
    ensures FilesOk(role, files[id := g])
  {
  }

  /** All parts of the invariant that do not concern streams, completion and the state. */
  lemma PartsSame(c: Core, id: FileId, g: FileRuntime)
    requires CoreOk(c) && id in c.files && FileOk(c.role, g) && g.entry == c.files[id].entry
    ensures FilesOk(c.role, c.files[id := g])
    ensures FilesMatch(c.files[id := g], c.manifest) && |c.files[id := g]| == |c.files|
  {
    hide FilesOk, FilesMatch, CountsOk, ActiveOk, StreamsOk, PhaseOk;
    FilesOkSame(c.role, c.files, id, g);
    MatchSame(c.files, c.manifest, id, g);
    SizesSame(c.files, id, g);
  }

  lemma FollowsOne(c: Core, now: Core, id: FileId, g: FileRuntime)
    requires id in c.files && now.files == c.files[id := g] && FileFollows(c.role, c.files[id], g)
    requires now.role == c.role && now.maxParallel == c.maxParallel && now.manifest == c.manifest
    requires now.nextStreamId >= c.nextStreamId && forall st :: st in c.begins ==>
      && st in now.begins && now.begins[st] == c.begins[st]
    ensures Follows(c, now)
  {
  }

  // ---- Steps ----

  /** A record changes, but neither its stream, its base nor its completion. */
  lemma FileChanged(c: Core, id: FileId, g: FileRuntime)
    requires CoreOk(c) && id in c.files && FileOk(c.role, g) && FileFollows(c.role, c.files[id], g)
    requires g.complete == c.files[id].complete && g.activeStream == c.files[id].activeStream
    requires g.baseOffset == c.files[id].baseOffset
    ensures var now := c.(files := c.files[id := g]); CoreOk(now) && Follows(c, now)
  {
    hide FilesOk, FilesMatch, CountsOk, StreamsOk, Follows, FileOk, ActiveIds;
    var now := c.(files := c.files[id := g]);
    PartsSame(c, id, g);
    FollowsOne(c, now, id, g);
    ActiveUpdate(c.files, id, g);
    assert ActiveIds(now.files) == ActiveIds(c.files);
    CountsSame(c.files, id, g, c.completedFiles, c.completedSize);
    StreamsSame(c, id, g);
  }

  lemma StreamsSame(c: Core, id: FileId, g: FileRuntime)
    requires StreamsOk(c) && id in c.files
    requires g.activeStream.None?
        || (g.activeStream == c.files[id].activeStream && g.baseOffset == c.files[id].baseOffset)
    ensures StreamsOk(c.(files := c.files[id := g]))
  {
  }

  lemma StreamsNext(c: Core, id: FileId, g: FileRuntime)
    requires StreamsOk(c) && id in c.files && g.activeStream == Some(c.nextStreamId)
    ensures StreamsOk(c.(files := c.files[id := g], nextStreamId := c.nextStreamId + 1,
      begins := c.begins[c.nextStreamId := Begin(id, g.baseOffset)]))
  {
  }

  lemma NextUnused(c: Core)
    requires StreamsOk(c)
    ensures c.nextStreamId !in c.begins
  {
  }

  /** A file without a stream goes on one. */
  ghost predicate Activates(c: Core, id: FileId, g: FileRuntime)
  {
    && id in c.files && FileOk(c.role, g) && FileFollows(c.role, c.files[id], g)
    && c.files[id].activeStream.None? && !c.files[id].complete && g.activeStream.Some? && !g.complete
    && |ActiveIds(c.files)| < c.maxParallel
  }

  lemma ActivatedParts(c: Core, id: FileId, g: FileRuntime)
    requires CoreOk(c) && Activates(c, id, g)
    ensures var files := c.files[id := g];
      && FilesOk(c.role, files) && FilesMatch(files, c.manifest) && |files| == |c.files|
      && CountsOk(files, c.completedFiles, c.completedSize) && ActiveOk(files, c.maxParallel)
  {
    hide FilesOk, FilesMatch, CountsOk, StreamsOk, FileOk, ActiveIds;
    PartsSame(c, id, g);
    ActiveUpdate(c.files, id, g);
    CountsSame(c.files, id, g, c.completedFiles, c.completedSize);
  }

  /** The offerer puts a file on a stream that was never used. */
  lemma FileStarted(c: Core, id: FileId, g: FileRuntime)
    requires CoreOk(c) && c.role == Offerer && Activates(c, id, g) && g.activeStream == Some(c.nextStreamId)
    ensures var now := c.(files := c.files[id := g], nextStreamId := c.nextStreamId + 1,
        begins := c.begins[c.nextStreamId := Begin(id, g.baseOffset)]);
      CoreOk(now) && Follows(c, now)
  {
    hide FilesOk, FilesMatch, CountsOk, StreamsOk, FileOk, FileFollows, ActiveIds, ActiveOk, Follows;
    var now := c.(files := c.files[id := g], nextStreamId := c.nextStreamId + 1,
      begins := c.begins[c.nextStreamId := Begin(id, g.baseOffset)]);
    ActivatedParts(c, id, g);
    StreamsNext(c, id, g);
    assert c.nextStreamId !in c.begins by { NextUnused(c); }
    FollowsOne(c, now, id, g);
  }

  /** The accepter takes the stream the offerer names. */
  lemma FileBegun(c: Core, id: FileId, g: FileRuntime)
    requires CoreOk(c) && c.role == Accepter && Activates(c, id, g)
    ensures var now := c.(files := c.files[id := g]); CoreOk(now) && Follows(c, now)
  {
    hide FilesOk, FilesMatch, CountsOk, StreamsOk, FileOk, FileFollows, ActiveIds, ActiveOk, Follows;
    var now := c.(files := c.files[id := g]);
    ActivatedParts(c, id, g);
    StreamsAccepter(c, now);
    FollowsOne(c, now, id, g);
  }

  ghost predicate Completes(c: Core, id: FileId, g: FileRuntime)
  {
    && id in c.files && FileOk(c.role, g) && FileFollows(c.role, c.files[id], g)
    && !c.files[id].complete && g.complete
  }

  lemma CountsNext(files: Files, id: FileId, g: FileRuntime, n: nat, size: nat)
    requires id in files && g.entry == files[id].entry && !files[id].complete && g.complete && CountsOk(files, n, size)
    ensures CountsOk(files[id := g], n + 1, size + g.entry.size)
    ensures n < |files| && size + g.entry.size <= U64_MAX
  {
    var now := files[id := g];
    var before, after := CompleteSizes(files), CompleteSizes(now);
    assert id !in before;
    CompletesMore(files, id, g);
    SizesSame(files, id, g);
    hide Sizes, CompleteSizes;
    SumInsert(before, id, g.entry.size);
    CompletesWithin(now);
    assert |after| == |before| + 1;
  }

  lemma CompletesMore(files: Files, id: FileId, g: FileRuntime)
    requires id in files && g.entry == files[id].entry && !files[id].complete && g.complete
    ensures CompleteSizes(files[id := g]) == CompleteSizes(files)[id := g.entry.size]
  {
  }

  lemma CompletesWithin(files: Files)
    ensures Sum(CompleteSizes(files)) <= Sum(Sizes(files)) && |CompleteSizes(files)| <= |files|
  {
    SumMonotone(CompleteSizes(files), Sizes(files));
    assert CompleteSizes(files).Keys <= files.Keys;
    SubsetSize(CompleteSizes(files).Keys, files.Keys);
  }

  lemma StreamsAccepter(c: Core, now: Core)
    requires StreamsOk(c) && c.role == now.role == Accepter
    requires now.begins == c.begins && now.nextStreamId == c.nextStreamId
    ensures StreamsOk(now)
  {
  }

  lemma StreamsIgnore(c: Core, d: Core)
    requires StreamsOk(c) && c.role == d.role && c.files == d.files
    requires c.begins == d.begins && c.nextStreamId == d.nextStreamId
    ensures StreamsOk(d)
  {
  }

  lemma ActiveFewer(files: Files, id: FileId, g: FileRuntime, maxParallel: nat)
    requires id in files && g.activeStream.None? && ActiveOk(files, maxParallel)
    ensures ActiveOk(files[id := g], maxParallel)
  {
    ActiveUpdate(files, id, g);
    hide ActiveIds;
    SubsetSize(ActiveIds(files) - {id}, ActiveIds(files));
  }

  lemma CompletedParts(c: Core, id: FileId, g: FileRuntime)
    requires CoreOk(c) && Completes(c, id, g)
    ensures var files := c.files[id := g];
      && FilesOk(c.role, files) && FilesMatch(files, c.manifest)
      && |files| == |c.files| && ActiveOk(files, c.maxParallel)
      && StreamsOk(c.(files := files)) && g.entry == c.files[id].entry
  {
    assert g.activeStream.None?;
    hide FilesOk, FilesMatch, CountsOk, FileOk, ActiveOk, StreamsOk, PhaseOk;
    PartsSame(c, id, g);
    ActiveFewer(c.files, id, g, c.maxParallel);
    StreamsSame(c, id, g);
  }

  /** A file completes and leaves its stream. */
  lemma FileCompleted(c: Core, id: FileId, g: FileRuntime)
    requires CoreOk(c) && Completes(c, id, g)
    ensures c.completedFiles < |c.files| && c.completedSize + g.entry.size <= U64_MAX
    ensures var now := c.(files := c.files[id := g], completedFiles := c.completedFiles + 1,
        completedSize := c.completedSize + g.entry.size);
      CoreOk(now) && Follows(c, now)
  {
    var now := c.(files := c.files[id := g], completedFiles := c.completedFiles + 1,
        completedSize := c.completedSize + g.entry.size);
    CompletedParts(c, id, g);
    CompletedCounts(c, id, g);
    hide FilesOk, FilesMatch, CountsOk, FileOk, ActiveOk, StreamsOk, Follows, FileFollows;
    StreamsIgnore(c.(files := now.files), now);
    FollowsOne(c, now, id, g);
  }

  lemma CompletedCounts(c: Core, id: FileId, g: FileRuntime)
    requires CoreOk(c) && Completes(c, id, g)
    ensures CountsOk(c.files[id := g], c.completedFiles + 1, c.completedSize + g.entry.size)
    ensures c.completedFiles < |c.files| && c.completedSize + g.entry.size <= U64_MAX
  {
    hide FilesOk, FilesMatch, CountsOk, FileOk, ActiveOk, StreamsOk, PhaseOk;
    CountsNext(c.files, id, g, c.completedFiles, c.completedSize);
  }

  /** The state may change to anything that completion does not forbid. */
  predicate CanEnter(c: Core, s: SessionState)
  {
    && (s.Completed? || s.AwaitingTransferComplete? ==> c.manifest.Some? && c.completedFiles == |c.files|)
    && (s.ReceivingManifest? ==> c.role == Accepter && c.manifest.None?)
    && (s.New? || s.AwaitingHello? ==> c.role == Offerer || c.manifest.None?)
    && (c.role == Accepter && s.AwaitingDecision? ==> c.manifest.Some?)
  }

  lemma StateChanged(c: Core, s: SessionState)
    requires CoreOk(c) && CanEnter(c, s)
    ensures CoreOk(c.(state := s)) && Follows(c, c.(state := s))
  {
  }

  /** What `reconnect` makes of a file. */
  function Reset(role: Role, f: FileRuntime): FileRuntime
  {
    if f.complete then f
    else f.(activeStream := None, sendOffset := 0, finQueued := false, awaitingFinish := false,
            receivedOffset := if role == Accepter then f.durableOffset else f.receivedOffset)
  }

  function ResetAll(role: Role, files: Files): Files
  {
    map id | id in files :: Reset(role, files[id])
  }

  lemma AllReset(c: Core)
    requires CoreOk(c)
    ensures var now := c.(files := ResetAll(c.role, c.files)); CoreOk(now) && Follows(c, now)
  {
    var now := c.(files := ResetAll(c.role, c.files));
    hide FilesOk, FilesMatch, CountsOk, ResetAll, StreamsOk, Follows, ActiveOk;
    ResetSame(c.role, c.files);
    ResetCounts(c);
    ResetKeeps(c);
  }

  lemma ResetSame(role: Role, files: Files)
    ensures var now := ResetAll(role, files);
      now.Keys == files.Keys && |now| == |files| && Sizes(now) == Sizes(files)
          && CompleteSizes(now) == CompleteSizes(files)
  {
    var now := ResetAll(role, files);
    assert now.Keys == files.Keys;
    assert Sizes(now) == Sizes(files);
    assert CompleteSizes(now) == CompleteSizes(files);
  }

  lemma ResetCounts(c: Core)
    requires CountsOk(c.files, c.completedFiles, c.completedSize) && FilesMatch(c.files, c.manifest)
    ensures CountsOk(ResetAll(c.role, c.files), c.completedFiles, c.completedSize)
    ensures FilesMatch(ResetAll(c.role, c.files), c.manifest)
  {
    hide ResetAll, Sizes, CompleteSizes, Sum;
    ResetSame(c.role, c.files);
    ResetEntries(c.role, c.files);
    ResetMatch(c.role, c.files, c.manifest);
    hide FilesMatch;
  }

  lemma ResetMatch(role: Role, files: Files, m: Option<Manifest>)
    requires FilesMatch(files, m)
    ensures FilesMatch(ResetAll(role, files), m)
  {
    hide Reset;
    ResetEntries(role, files);
    ResetSame(role, files);
    hide ResetAll, Sizes, CompleteSizes;
  }

  lemma ResetEntries(role: Role, files: Files)
    ensures forall id :: id in files ==>
      && id in ResetAll(role, files) && ResetAll(role, files)[id].entry == files[id].entry
    ensures ResetAll(role, files).Keys == files.Keys && |ResetAll(role, files)| == |files|
    ensures files == map[] ==> ResetAll(role, files) == map[]
  {
    assert ResetAll(role, files).Keys == files.Keys;
  }

  lemma ResetKeeps(c: Core)
    requires FilesOk(c.role, c.files) && StreamsOk(c)
    ensures var now := c.(files := ResetAll(c.role, c.files));
      FilesOk(c.role, now.files) && StreamsOk(now) && Follows(c, now) && ActiveOk(now.files, c.maxParallel)
  {
    hide FilesOk, StreamsOk, Follows, ActiveIds, ResetAll, FileOk, FileFollows;
    ResetFilesOk(c.role, c.files);
    ResetNoneActive(c.role, c.files);
    ResetFollows(c);
  }

  lemma ResetFilesOk(role: Role, files: Files)
    requires FilesOk(role, files)
    ensures FilesOk(role, ResetAll(role, files))
    ensures forall id :: id in files ==> FileFollows(role, files[id], ResetAll(role, files)[id])
  {
  }

  lemma ResetNoneActive(role: Role, files: Files)
    requires FilesOk(role, files)
    ensures ActiveIds(ResetAll(role, files)) == {}
  {
    assert forall id :: id !in ActiveIds(ResetAll(role, files));
  }

  lemma ResetFollows(c: Core)
    requires StreamsOk(c)
    requires forall id :: id in c.files ==> FileFollows(c.role, c.files[id], ResetAll(c.role, c.files)[id])
    ensures var now := c.(files := ResetAll(c.role, c.files)); StreamsOk(now) && Follows(c, now)
  {
    hide FileFollows;
  }

  // ---- Installing a manifest ----

  /** Fresh records for these entries and no others. */
  ghost predicate Fresh(entries: seq<Entry>, files: Files)
  {
    && (forall id :: id in files ==>
          files[id].entry in entries && files[id] == NewRuntime(files[id].entry) && files[id].entry.fileId == id)
    && (forall e :: e in entries ==> e.fileId in files)
  }

  lemma {:induction false} InstalledFresh(entries: seq<Entry>)
    ensures Fresh(entries, Installed(entries))
  {
    if |entries| > 0 {
      var init, last := entries[..|entries| - 1], entries[|entries| - 1];
      InstalledFresh(init);
      assert entries == init + [last];
    }
  }

  lemma {:induction false} InstalledTotals(entries: seq<Entry>)
    requires Distinct(entries)
    ensures |Installed(entries)| == |entries| && Sum(Sizes(Installed(entries))) == TotalSize(entries)
  {
    if |entries| == 0 {
      assert |Sizes(map[])| == 0;
    } else {
      var init, last := entries[..|entries| - 1], entries[|entries| - 1];
      InstalledTotals(init);
      InstalledFresh(init);
      var before := Installed(init);
      assert last.fileId !in before;
      SizesMore(before, last);
      hide Sizes, NewRuntime;
      SumInsert(Sizes(before), last.fileId, last.size);
    }
  }

  lemma SizesMore(files: Files, e: Entry)
    requires e.fileId !in files
    ensures Sizes(files[e.fileId := NewRuntime(e)]) == Sizes(files)[e.fileId := e.size] && e.fileId !in Sizes(files)
  {
  }

  lemma FreshCounts(entries: seq<Entry>, files: Files)
    requires Fresh(entries, files)
    ensures CompleteSizes(files) == map[] && ActiveIds(files) == {}
    ensures forall role :: FilesOk(role, files)
  {
  }

  /** The manifest is installed: the records start afresh and the totals fit. */
  lemma ManifestInstalled(c: Core, m: Manifest)
    requires c.manifest == Some(m) && c.files == Installed(m.entries) && Acceptable(m.entries)
    requires c.completedFiles == c.completedSize == 0
    requires PhaseOk(c) && forall st :: st in c.begins ==> st < c.nextStreamId
    ensures CoreOk(c)
  {
    InstalledFresh(m.entries);
    InstalledTotals(m.entries);
    FreshCounts(m.entries, c.files);
    assert |CompleteSizes(c.files)| == 0;
    hide Installed, CompleteSizes, Sizes, FilesOk, PhaseOk, TotalSize, Distinct, PathsOk;
  }
}
