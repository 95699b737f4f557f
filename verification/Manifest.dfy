/** The list of offered files: unique ids and paths, and a total size that fits 64 bits. */
module Manifest {
  import opened Wrappers
  import opened Bytes

  const MAX_MANIFEST_FILES: nat := 1_000_000
  const MAX_PATH_LEN: nat := 4096

  type FileId = nat
  type Digest = nat

  /** Hashes and metadata are opaque values. */
  datatype Entry = Entry(fileId: FileId, path: seq<byte>, size: u64, contentHash: Digest, metadata: nat)

  datatype Manifest = Manifest(digest: Digest, entries: seq<Entry>, totalSize: u64)

  datatype ManifestError = TooManyFiles | InvalidPath | DuplicateFile(fileId: FileId) | InvalidFileSize(fileId: FileId)

  const SLASH: byte := 47
  const DOT: byte := 46
  const BACKSLASH: byte := 92

  /** No component is empty, `.` or `..`; `component` is the part of the current one read so far. */
  predicate ComponentsOk(path: seq<byte>, component: seq<byte>)
    decreases |path|
  {
    if |path| == 0 then ComponentOk(component)
    else if path[0] == SLASH then ComponentOk(component) && ComponentsOk(path[1..], [])
    else ComponentsOk(path[1..], component + [path[0]])
  }

  predicate ComponentOk(component: seq<byte>)
  {
    component != [] && component != [DOT] && component != [DOT, DOT]
  }

  /** `validate_relative_path`. */
  predicate PathOk(path: seq<byte>)
  {
    && 0 < |path| <= MAX_PATH_LEN && 0 !in path && path[0] != SLASH && BACKSLASH !in path
    && ComponentsOk(path, [])
  }

  function TotalSize(entries: seq<Entry>): nat
  {
    if |entries| == 0 then 0 else TotalSize(entries[..|entries| - 1]) + entries[|entries| - 1].size
  }

  /** Distinct ids and distinct paths. */
  ghost predicate Distinct(entries: seq<Entry>)
  {
    forall i, j :: 0 <= i < j < |entries| ==>
      entries[i].fileId != entries[j].fileId && entries[i].path != entries[j].path
  }

  ghost predicate PathsOk(entries: seq<Entry>)
  {
    forall i :: 0 <= i < |entries| ==> PathOk(entries[i].path)
  }

  /** What a manifest must satisfy. */
  ghost predicate Acceptable(entries: seq<Entry>)
  {
    |entries| <= MAX_MANIFEST_FILES && PathsOk(entries) && Distinct(entries) && TotalSize(entries) <= U64_MAX
  }

  lemma {:induction false} TotalGrows(entries: seq<Entry>, i: nat)
    requires i <= |entries|
    ensures TotalSize(entries[..i]) <= TotalSize(entries)
    decreases |entries|
  {
    if i < |entries| {
      var init := entries[..|entries| - 1];
      assert init[..i] == entries[..i];
      TotalGrows(init, i);
    } else {
      assert entries[..i] == entries;
    }
  }

  /** `ids` holds just the ids of the entries before `i`. */
  ghost predicate IdsNoted(entries: seq<Entry>, i: nat, ids: set<FileId>)
    requires i <= |entries|
  {
    forall x :: x in ids <==> exists k :: 0 <= k < i && entries[k].fileId == x
  }

  /** `paths` holds just the paths of the entries before `i`. */
  ghost predicate PathsNoted(entries: seq<Entry>, i: nat, paths: set<seq<byte>>)
    requires i <= |entries|
  {
    forall x :: x in paths <==> exists k :: 0 <= k < i && entries[k].path == x
  }

  /** What the loop has seen so far. */
  ghost predicate Scanned(entries: seq<Entry>, i: nat, ids: set<FileId>, paths: set<seq<byte>>, total: nat)
    requires i <= |entries|
  {
    && IdsNoted(entries, i, ids) && PathsNoted(entries, i, paths) && total == TotalSize(entries[..i]) <= U64_MAX
    && (forall k, m :: 0 <= k < m < i ==> entries[k].fileId != entries[m].fileId && entries[k].path != entries[m].path)
    && (forall k :: 0 <= k < i ==> PathOk(entries[k].path))
  }

  lemma ScanDuplicate(entries: seq<Entry>, i: nat, ids: set<FileId>, paths: set<seq<byte>>, total: nat)
    requires i < |entries| && Scanned(entries, i, ids, paths, total)
    ensures entries[i].fileId in ids || entries[i].path in paths ==> !Distinct(entries)
  {
    hide PathOk, TotalSize, IdsNoted, PathsNoted;
    if entries[i].fileId in ids {
      var k := IdSeen(entries, i, ids);
    }
    if entries[i].path in paths {
      var k := PathSeen(entries, i, paths);
    }
  }

  lemma IdSeen(entries: seq<Entry>, i: nat, ids: set<FileId>) returns (k: nat)
    requires i < |entries| && IdsNoted(entries, i, ids) && entries[i].fileId in ids
    ensures k < i && entries[k].fileId == entries[i].fileId
  {
    k :| 0 <= k < i && entries[k].fileId == entries[i].fileId;
  }

  lemma PathSeen(entries: seq<Entry>, i: nat, paths: set<seq<byte>>) returns (k: nat)
    requires i < |entries| && PathsNoted(entries, i, paths) && entries[i].path in paths
    ensures k < i && entries[k].path == entries[i].path
  {
    k :| 0 <= k < i && entries[k].path == entries[i].path;
  }

  lemma TotalNext(entries: seq<Entry>, i: nat)
    requires i < |entries|
    ensures TotalSize(entries[..i + 1]) == TotalSize(entries[..i]) + entries[i].size <= TotalSize(entries)
  {
    assert entries[..i + 1][..i] == entries[..i];
    TotalGrows(entries, i + 1);
  }

  lemma NoteId(entries: seq<Entry>, i: nat, ids: set<FileId>)
    requires i < |entries| && IdsNoted(entries, i, ids) && entries[i].fileId !in ids
    ensures IdsNoted(entries, i + 1, ids + {entries[i].fileId})
    ensures forall k :: 0 <= k < i ==> entries[k].fileId != entries[i].fileId
  {
    forall x ensures x in ids + {entries[i].fileId} <==> exists k :: 0 <= k < i + 1 && entries[k].fileId == x {
      if x in ids {
        var k :| 0 <= k < i && entries[k].fileId == x;
      }
    }
  }

  lemma NotePath(entries: seq<Entry>, i: nat, paths: set<seq<byte>>)
    requires i < |entries| && PathsNoted(entries, i, paths) && entries[i].path !in paths
    ensures PathsNoted(entries, i + 1, paths + {entries[i].path})
    ensures forall k :: 0 <= k < i ==> entries[k].path != entries[i].path
  {
    forall x ensures x in paths + {entries[i].path} <==> exists k :: 0 <= k < i + 1 && entries[k].path == x {
      if x in paths {
        var k :| 0 <= k < i && entries[k].path == x;
      }
    }
  }

  lemma ScanNext(entries: seq<Entry>, i: nat, ids: set<FileId>, paths: set<seq<byte>>, total: nat)
    requires i < |entries| && Scanned(entries, i, ids, paths, total)
    requires entries[i].fileId !in ids && entries[i].path !in paths
    requires PathOk(entries[i].path) && total + entries[i].size <= U64_MAX
    ensures Scanned(entries, i + 1, ids + {entries[i].fileId}, paths + {entries[i].path}, total + entries[i].size)
  {
    hide PathOk, TotalSize, IdsNoted, PathsNoted;
    TotalNext(entries, i);
    NoteId(entries, i, ids);
    NotePath(entries, i, paths);
  }

  /** The fault an error names is there, and is the first one: every earlier entry is sound. */
  ghost predicate Blamed(entries: seq<Entry>, error: ManifestError)
  {
    match error
    case TooManyFiles => |entries| > MAX_MANIFEST_FILES
    case InvalidPath =>
      exists i ::
        && 0 <= i < |entries| && Acceptable(entries[..i])
        && (!PathOk(entries[i].path) || PathTaken(entries, i))
    case DuplicateFile(id) => exists i :: 0 <= i < |entries| && Acceptable(entries[..i]) && IdTaken(entries, i, id)
    case InvalidFileSize(id) =>
      exists i :: 0 <= i < |entries| && Acceptable(entries[..i]) && entries[i].fileId == id
                  && TotalSize(entries[..i]) + entries[i].size > U64_MAX
  }

  ghost predicate PathTaken(entries: seq<Entry>, i: nat)
    requires i < |entries|
  {
    exists k :: 0 <= k < i && entries[k].path == entries[i].path
  }

  ghost predicate IdTaken(entries: seq<Entry>, i: nat, id: FileId)
    requires i < |entries|
  {
    entries[i].fileId == id && exists k :: 0 <= k < i && entries[k].fileId == id
  }

  lemma ScannedPrefix(entries: seq<Entry>, i: nat, ids: set<FileId>, paths: set<seq<byte>>, total: nat)
    requires i < |entries| <= MAX_MANIFEST_FILES && Scanned(entries, i, ids, paths, total)
    ensures Acceptable(entries[..i])
  {
    hide PathOk, TotalSize, IdsNoted, PathsNoted;
  }

  lemma BadPath(entries: seq<Entry>, i: nat)
    requires i < |entries| && Acceptable(entries[..i]) && !PathOk(entries[i].path)
    ensures Blamed(entries, InvalidPath)
  {
    hide PathOk, TotalSize, Acceptable, PathTaken;
  }

  lemma TakenPath(entries: seq<Entry>, i: nat, paths: set<seq<byte>>)
    requires i < |entries| && Acceptable(entries[..i]) && PathsNoted(entries, i, paths) && entries[i].path in paths
    ensures Blamed(entries, InvalidPath)
  {
    hide PathOk, TotalSize, Acceptable, PathsNoted;
    var k := PathSeen(entries, i, paths);
    assert PathTaken(entries, i);
  }

  lemma TakenId(entries: seq<Entry>, i: nat, ids: set<FileId>)
    requires i < |entries| && Acceptable(entries[..i]) && IdsNoted(entries, i, ids) && entries[i].fileId in ids
    ensures Blamed(entries, DuplicateFile(entries[i].fileId))
  {
    hide PathOk, TotalSize, Acceptable, IdsNoted;
    var k := IdSeen(entries, i, ids);
    assert IdTaken(entries, i, entries[i].fileId);
  }

  lemma SizeOverflows(entries: seq<Entry>, i: nat)
    requires i < |entries| && Acceptable(entries[..i]) && TotalSize(entries[..i]) + entries[i].size > U64_MAX
    ensures Blamed(entries, InvalidFileSize(entries[i].fileId))
  {
    hide PathOk, TotalSize, Acceptable;
  }

  /** `Manifest::new`: succeeds exactly on acceptable entries. */
  method NewManifest(digest: Digest, entries: seq<Entry>) returns (r: Result<Manifest, ManifestError>)
    ensures r.Ok? <==> Acceptable(entries)
    ensures r.Ok? ==> r.value == Manifest(digest, entries, TotalSize(entries))
    ensures r.Err? ==> Blamed(entries, r.error)
  {
    hide PathOk, Distinct, TotalSize, IdsNoted, PathsNoted, Blamed;
    if |entries| > MAX_MANIFEST_FILES {
      BlameCount(entries);
      return Err(TooManyFiles);
    }
    var ids: set<FileId>, paths: set<seq<byte>>, total: nat := {}, {}, 0;
    ScannedNone(entries);
    for i := 0 to |entries|
      invariant Scanned(entries, i, ids, paths, total)
    {
      ScanDuplicate(entries, i, ids, paths, total);
      ScannedPrefix(entries, i, ids, paths, total);
      TotalNext(entries, i);
      if !PathOk(entries[i].path) {
        BadPath(entries, i);
        return Err(InvalidPath);
      }
      if entries[i].fileId in ids {
        TakenId(entries, i, ids);
        return Err(DuplicateFile(entries[i].fileId));
      }
      if entries[i].path in paths {
        TakenPath(entries, i, paths);
        return Err(InvalidPath);
      }
      if total + entries[i].size > U64_MAX {
        SizeOverflows(entries, i);
        return Err(InvalidFileSize(entries[i].fileId));
      }
      ScanNext(entries, i, ids, paths, total);
      ids, paths, total := ids + {entries[i].fileId}, paths + {entries[i].path}, total + entries[i].size;
    }
    assert entries[..|entries|] == entries;
    ScannedAll(entries, ids, paths, total);
    r := Ok(Manifest(digest, entries, total));
  }

  lemma BlameCount(entries: seq<Entry>)
    requires |entries| > MAX_MANIFEST_FILES
    ensures Blamed(entries, TooManyFiles)
  {
    hide PathOk, TotalSize, Acceptable;
  }

  lemma ScannedNone(entries: seq<Entry>)
    ensures Scanned(entries, 0, {}, {}, 0)
  {
  }

  lemma ScannedAll(entries: seq<Entry>, ids: set<FileId>, paths: set<seq<byte>>, total: nat)
    requires Scanned(entries, |entries|, ids, paths, total)
    ensures Distinct(entries) && PathsOk(entries)
  {
  }
}
