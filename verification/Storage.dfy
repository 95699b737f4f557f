/** The accepter's file store: a partial file that grows by appending, its durable checkpoint,
    and the move into place. A file is a sequence of bytes. */
module Storage {
  import opened Wrappers
  import opened Bytes
  import opened Manifest

  datatype DurableState = DurableState(durableOffset: u64, checkpointId: u64, stateHash: Digest)

  /** A stored record with its partial and its installed file. */
  datatype Record = Record(
    size: u64, contentHash: Digest, durable: DurableState, complete: bool,
    partial: Option<seq<byte>>, installed: Option<seq<byte>>)

  datatype StorageError =
    | NotRegistered
    | AlreadyComplete
    | InvalidOffset(offset: nat, maximum: nat)
    | CheckpointCorrupt
    | DataConflict(offset: nat)
    | CheckpointRegression
    | SizeMismatch
    | IntegrityMismatch

  function Content(r: Record): seq<byte>
  {
    if r.complete && r.installed.Some? then r.installed.value
    else if r.partial.Some? then r.partial.value
    else []
  }

  /** What is durable is in the file, and the file is no longer than announced. */
  predicate RecordOk(r: Record)
  {
    && r.durable.durableOffset <= |Content(r)| <= r.size
    && (r.complete ==> r.installed.Some? && |r.installed.value| == r.size)
  }

  /** `data` at `offset` agrees with the file where they overlap. */
  predicate Agrees(file: seq<byte>, offset: nat, data: seq<byte>)
    requires offset <= |file|
  {
    var overlapEnd := Min(offset + |data|, |file|);
    file[offset..overlapEnd] == data[..overlapEnd - offset]
  }

  /** The file with `data` at `offset`; bytes it already has are not written again. */
  function Appended(file: seq<byte>, offset: nat, data: seq<byte>): seq<byte>
    requires offset <= |file|
  {
    if offset + |data| > |file| then file + data[|file| - offset..] else file
  }

  /** Afterwards the file starts as before and holds the data at its offset. */
  lemma AppendedHolds(file: seq<byte>, offset: nat, data: seq<byte>)
    requires offset <= |file| && Agrees(file, offset, data)
    ensures var after := Appended(file, offset, data);
      && |after| == Max(|file|, offset + |data|)
      && file <= after && after[offset..offset + |data|] == data
  {
  }

  /** A write of true bytes at a position the file has reached keeps it a prefix of the source. */
  lemma TrueBytes(file: seq<byte>, offset: nat, data: seq<byte>, source: seq<byte>)
    requires file <= source && offset <= |file| && offset + |data| <= |source|
    requires data == source[offset..offset + |data|]
    ensures Agrees(file, offset, data) && Appended(file, offset, data) <= source
  {
  }

  class FileStorage {
    var records: map<FileId, Record>
    /** The digest function, a black box. */
    const hash: seq<byte> -> Digest

    ghost predicate Valid()
      reads this
    {
      forall id :: id in records ==> RecordOk(records[id])
    }

    constructor (hash: seq<byte> -> Digest)
      ensures Valid() && records == map[] && this.hash == hash
    {
      records := map[];
      this.hash := hash;
    }

    /** A new registration; an existing one is kept. */
    method Register(id: FileId, size: u64, contentHash: Digest)
      requires Valid()
      modifies this
      ensures Valid()
      ensures records == if id in old(records) then old(records)
        else old(records)[id := Record(size, contentHash, DurableState(0, 0, 0), false, None, None)]
    {
      if id !in records {
        records := records[id := Record(size, contentHash, DurableState(0, 0, 0), false, None, None)];
      }
    }

    method DurableStateOf(id: FileId) returns (r: Result<DurableState, StorageError>)
      requires Valid()
      ensures r == if id in records then Ok(records[id].durable) else Err(NotRegistered)
    {
      if id !in records { return Err(NotRegistered); }
      r := Ok(records[id].durable);
    }

    /** `write_data_inner`. */
    method WriteData(id: FileId, absoluteOffset: u64, data: seq<byte>) returns (error: Option<StorageError>)
      requires Valid()
      modifies this
      ensures Valid()
      ensures error.Some? ==> records == old(records)
      ensures error.None? <==> id in old(records) && WriteOk(old(records)[id], absoluteOffset, data)
      ensures error.None? ==> records == old(records)[id := Written(old(records)[id], absoluteOffset, data)]
    {
      if id !in records { return Some(NotRegistered); }
      var record := records[id];
      if record.complete { return Some(AlreadyComplete); }
      var end: nat := absoluteOffset + |data|;
      if end > U64_MAX { return Some(InvalidOffset(absoluteOffset, record.size)); }
      if end > record.size { return Some(InvalidOffset(end, record.size)); }
      var file := if record.partial.Some? then record.partial.value else [];
      var length := |file|;
      if absoluteOffset > length {
        return Some(InvalidOffset(absoluteOffset, length));
      }
      var overlapEnd := Min(end, length);
      if overlapEnd > absoluteOffset && file[absoluteOffset..overlapEnd] != data[..overlapEnd - absoluteOffset] {
        return Some(DataConflict(absoluteOffset));
      }
      if end > length {
        var alreadyPresent := length - absoluteOffset;
        file := file + data[alreadyPresent..];
      }
      records := records[id := record.(partial := Some(file))];
      error := None;
    }

    /** `checkpoint_inner`. */
    method Checkpoint(id: FileId, state: DurableState) returns (error: Option<StorageError>)
      requires Valid()
      modifies this
      ensures Valid()
      ensures error.Some? ==> records == old(records)
      ensures error.None? <==> id in old(records) && CheckpointTaken(old(records)[id], state)
      ensures error.None? ==> id in old(records) && var was := old(records)[id];
        if was.complete then records == old(records)
        else
          && records.Keys == old(records).Keys
          && (forall k :: k in records && k != id ==> records[k] == old(records)[k])
          && records[id].durable == state && Content(records[id]) == Content(was)
          && records[id].size == was.size && records[id].contentHash == was.contentHash && !records[id].complete
          && was.durable.durableOffset <= state.durableOffset <= |Content(was)|
          && was.durable.checkpointId <= state.checkpointId
    {
      if id !in records { return Some(NotRegistered); }
      var record := records[id];
      if record.complete { return None; }
      var length := if record.partial.Some? then |record.partial.value| else 0;
      if state.durableOffset > record.size || state.durableOffset > length {
        return Some(InvalidOffset(state.durableOffset, Min(length, record.size)));
      }
      var same := state.checkpointId == record.durable.checkpointId
          && state.durableOffset == record.durable.durableOffset;
      if state.checkpointId < record.durable.checkpointId || state.durableOffset < record.durable.durableOffset
         || (same && state.stateHash != record.durable.stateHash)
      {
        return Some(CheckpointRegression);
      }
      if same { return None; }
      if record.partial.None? && record.size == 0 { record := record.(partial := Some([])); }
      records := records[id := record.(durable := state)];
      error := None;
    }

    /** `complete_inner`: only a full file with the announced hash is moved into place. */
    method Complete(id: FileId, finalSize: u64, contentHash: Digest) returns (error: Option<StorageError>)
      requires Valid()
      modifies this
      ensures Valid()
      ensures error.Some? ==> records == old(records)
      ensures error.None? <==> id in old(records) && Completable(old(records)[id], finalSize, contentHash, hash)
      ensures error.None? ==> id in old(records) && var was := old(records)[id];
        if was.complete then records == old(records)
        else
          && records == old(records)[id := was.(complete := true, installed := Some(Content(was)), partial := None)]
          && |Content(was)| == finalSize == was.size && hash(Content(was)) == contentHash == was.contentHash
    {
      if id !in records { return Some(NotRegistered); }
      var record := records[id];
      if finalSize != record.size { return Some(SizeMismatch); }
      if contentHash != record.contentHash { return Some(IntegrityMismatch); }
      if record.complete { return None; }
      if record.durable.durableOffset != record.size {
        return Some(InvalidOffset(record.durable.durableOffset, record.size));
      }
      if record.partial.None? && record.size != 0 { return Some(CheckpointCorrupt); }
      var file := if record.partial.Some? then record.partial.value else [];
      if |file| != record.size { return Some(SizeMismatch); }
      if hash(file) != record.contentHash { return Some(IntegrityMismatch); }
      records := records[id := record.(complete := true, installed := Some(file), partial := None)];
      error := None;
    }
  }

  /** Exactly when a write succeeds. */
  predicate WriteOk(r: Record, offset: u64, data: seq<byte>)
  {
    && !r.complete && offset + |data| <= r.size && offset <= |Content(r)|
    && Agrees(Content(r), offset, data)
  }

  /** Exactly when a checkpoint is taken: it lies within what is stored, never goes back, and
      repeats the last one only with the same hash. A complete file takes any. */
  predicate CheckpointTaken(r: Record, state: DurableState)
  {
    r.complete ||
    (&& state.durableOffset <= r.size && state.durableOffset <= |Content(r)|
     && r.durable.checkpointId <= state.checkpointId && r.durable.durableOffset <= state.durableOffset
     && (state.checkpointId == r.durable.checkpointId && state.durableOffset == r.durable.durableOffset ==>
           state.stateHash == r.durable.stateHash))
  }

  /** Exactly when a file can be completed: it is the one announced, and all of it is stored and
      checkpointed under that hash. */
  predicate Completable(r: Record, finalSize: u64, contentHash: Digest, hash: seq<byte> -> Digest)
  {
    && finalSize == r.size && contentHash == r.contentHash
    && (r.complete || (&& r.durable.durableOffset == r.size == |Content(r)|
                       && (r.partial.Some? || r.size == 0) && hash(Content(r)) == contentHash))
  }

  function Written(r: Record, offset: u64, data: seq<byte>): Record
    requires offset <= |Content(r)|
  {
    r.(partial := Some(Appended(Content(r), offset, data)))
  }
}
