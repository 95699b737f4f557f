/** Runs that show what the handlers of a session allow, from a new session on. */
module SessionCases {
  import opened Wrappers
  import opened Bytes
  import opened Manifest
  import opened SessionModel
  import opened Storage
  import opened Session

  lemma OneAcceptable(entry: Entry)
    requires PathOk(entry.path)
    ensures Acceptable([entry]) && TotalSize([entry]) == entry.size
    ensures Installed([entry]) == map[entry.fileId := NewRuntime(entry)]
  {
    assert [entry][..0] == [];
  }

  lemma NoneRunning(entry: Entry)
    ensures ActiveIds(map[entry.fileId := NewRuntime(entry)]) == {}
  {
  }

  /** An accepter that has agreed to receive one file. */
  method Accepting(entry: Entry, digest: Digest, config: Config) returns (session: TransferSession)
    requires ConfigOk(config) && PathOk(entry.path)
    ensures fresh(session) && session.Valid() && session.role == Accepter && session.config == config
    ensures session.files == map[entry.fileId := NewRuntime(entry)] && session.state == AwaitingResume
  {
    hide CoreOk, Sound, Follows, FileOk, Acceptable, Installed, ActiveIds, PathOk;
    OneAcceptable(entry);
    session := new TransferSession.Await(0, config);
    var r := session.Start();
    r := session.HandleSessionHello(0, config.protocolVersion, digest);
    r := session.HandleManifestBegin(1, entry.size, digest);
    r := session.HandleManifestItem(entry);
    assert [] + [entry] == [entry];
    r := session.HandleManifestEnd(digest);
    assert entry.fileId in session.files;
    r := session.AcceptOffer(true);
  }

  /** It fails by an error that is not retryable, and then begins to receive the file all the same. */
  method FailedReceives(entry: Entry, digest: Digest, config: Config, streamId: u64)
    returns (session: TransferSession, failed: SessionState, begun: Outcome)
    requires ConfigOk(config) && PathOk(entry.path)
    ensures failed == Failed && begun.Ok? && session.Valid() && session.state == ReceivingData
    ensures session.files == map[entry.fileId := Begun(NewRuntime(entry), streamId, 0, entry.size == 0)]
  {
    hide CoreOk, Sound, Follows, FileOk, ActiveIds, PathOk;
    NoneRunning(entry);
    session := Accepting(entry, digest, config);
    var r := session.HandleTransferError(false);
    failed := session.state;
    begun := session.HandleFileBegin(entry.fileId, streamId, 0, entry.size, entry.contentHash);
  }

  /** An offerer hears of two checkpoints of a file, the later one of fewer bytes: the durable
      offset that it keeps for the file falls. */
  method DurableFalls(entry: Entry, digest: Digest, config: Config)
    returns (session: TransferSession, before: u64, after: u64)
    requires ConfigOk(config) && PathOk(entry.path) && entry.size >= 5
    ensures session.Valid() && before == 5 && after == 3
    ensures entry.fileId in session.files && session.files[entry.fileId].durableOffset == after
  {
    hide CoreOk, Sound, Follows, FileOk, Acceptable, Installed, ActiveIds, LaunchAll, PathOk, Queries;
    OneAcceptable(entry);
    var id := entry.fileId;
    session := new TransferSession.Offer(0, Manifest(digest, [entry], entry.size), config);
    var r := session.Start();
    r := session.HandleReceiveDecision(true);
    r := session.HandleResumeState(id, DurableState(5, 1, 0));
    before := session.files[id].durableOffset;
    r := session.HandleResumeState(id, DurableState(3, 2, 0));
    after := session.files[id].durableOffset;
  }
}
