/** The idempotency ledger: what its rows say, that they stay, and that a replay is answered from them. */
module Ledgers {
  import opened Wrappers
  import opened Paths
  import opened Vaults

  /** Any resource write, by whomever. */
  datatype Op =
    | Post(owner: Owner, content: Bytes, mediaType: string, key: EffectKey, source: Option<Id>, id: Id)
    | Put(owner: Owner, workspace: string, path: string, content: Bytes, key: EffectKey,
          ifMatch: Option<ETag>, ifNoneMatch: Option<string>, source: Option<Id>, id: Id)
  {
    function Route(): Route {
      if Post? then ArtifactsRoute else FileRoute(workspace, path)
    }

    function At(): LedgerKey {
      LedgerKey(owner, Route(), key)
    }

    function Hash(): Fingerprint {
      if Post? then PostArtifact(mediaType, Sha256(content))
      else PutFile(workspace, path, Sha256(content), ifMatch, ifNoneMatch)
    }

    function File(): FileKey
      requires Put?
    {
      FileKey(owner, workspace, path)
    }
  }

  function WriteOp(v: Vault, op: Op): (Vault, Result<Reply>) {
    match op
    case Post(owner, content, mediaType, key, source, id) =>
      PostArtifactTx(v, owner, content, mediaType, key, source, id)
    case Put(owner, workspace, path, content, key, ifMatch, ifNoneMatch, source, id) =>
      PutFileTx(v, owner, workspace, path, content, key, ifMatch, ifNoneMatch, source, id)
  }

  /** A row names its stored resource, and repeats the reply of the write that made it. */
  ghost predicate RowOk(v: Vault, at: LedgerKey)
    requires at in v.ledger
  {
    var row := v.ledger[at];
    && row.resource in v.artifacts
    && var a := v.artifacts[row.resource];
    && a.owner == at.owner && a.digest == Sha256(a.content) && a.size == |a.content|
    && match at.route
       case ArtifactsRoute =>
         row.hash == PostArtifact(a.mediaType, a.digest) && row.status == 201
           && row.body == ArtifactSnapshot(row.resource, a)
       case FileRoute(workspace, path) =>
         && row.hash.PutFile? && row.hash.workspace == workspace && row.hash.path == path && row.hash.digest == a.digest
         && a.mediaType == "text/plain" && (row.status == 200 || row.status == 201)
         && row.body.FileBody? && row.body.workspace == workspace && row.body.path == path
         && row.body.artifact == row.resource
         && row.body.revision >= 1 && row.body.etag == Strong(a.digest, row.body.revision)
  }

  ghost predicate VaultOk(v: Vault) {
    forall at {:trigger RowOk(v, at)} :: at in v.ledger ==> RowOk(v, at)
  }

  /** Rows and artifacts are never changed or removed. */
  ghost predicate Grows(v: Vault, v': Vault) {
    && (forall at :: at in v.ledger ==> at in v'.ledger && v'.ledger[at] == v.ledger[at])
    && (forall id :: id in v.artifacts ==> id in v'.artifacts && v'.artifacts[id] == v.artifacts[id])
  }

  /** A write that was carried out for the first time: one new row, one new artifact, made from the request. */
  ghost predicate Commits(v: Vault, op: Op) {
    op.At() !in v.ledger && WriteOp(v, op).1.Ok?
  }

  /** A write that is not a first success changes nothing. */
  lemma CommitsOrUnchanged(v: Vault, op: Op)
    ensures !Commits(v, op) ==> WriteOp(v, op).0 == v
    ensures Commits(v, op) ==>
      var v', reply := WriteOp(v, op).0, WriteOp(v, op).1.value;
      && op.id !in v.artifacts
      && v'.ledger == v.ledger[op.At() := Receipt(op.Hash(), reply.status, op.id, reply.body)]
      && v'.artifacts == v.artifacts[op.id := NewArtifact(op.owner, op.content, if op.Post? then op.mediaType
                                                          else "text/plain", op.source)]
  {
    if op.Put? { NormalizeKeepsOrRefuses(op.path); }
  }

  lemma WriteGrows(v: Vault, op: Op)
    ensures Grows(v, WriteOp(v, op).0)
  {
    CommitsOrUnchanged(v, op);
  }

  /** What a first success answers. */
  lemma CommitReply(v: Vault, op: Op)
    requires Commits(v, op)
    ensures var reply := WriteOp(v, op).1.value;
      && (op.Post? ==>
            && reply.status == 201
            && reply.body == ArtifactSnapshot(op.id, NewArtifact(op.owner, op.content, op.mediaType, op.source)))
      && (op.Put? ==>
            var known := op.File() in v.files;
            var revision := if known then v.files[op.File()].revision + 1 else 1;
            && reply.status == (if known then 200 else 201)
            && reply.body == FileBody(op.workspace, op.path, revision, Strong(Sha256(op.content), revision), op.id)
            && WriteOp(v, op).0.files ==
              v.files[op.File() := FileRow(revision, Strong(Sha256(op.content), revision), op.id)]
            && op.ifMatch == (if known then Some(v.files[op.File()].etag) else None))
  {
    if op.Put? { NormalizeKeepsOrRefuses(op.path); }
  }

  lemma WriteKeepsOk(v: Vault, op: Op)
    requires VaultOk(v)
    ensures VaultOk(WriteOp(v, op).0)
  {
    hide WriteOp;
    var v' := WriteOp(v, op).0;
    CommitsOrUnchanged(v, op);
    if Commits(v, op) {
      CommitReply(v, op);
      forall at | at in v'.ledger ensures RowOk(v', at) {
        if at != op.At() {
          assert RowOk(v, at);
        }
      }
    }
  }

  /** Carrying out a bound write is one such operation. */
  function OpOf(owner: Owner, write: LocalWrite, key: EffectKey, source: Option<Id>, id: Id): Op {
    match write
    case CreateArtifact(content, mediaType) => Post(owner, content, mediaType, key, source, id)
    case WriteFile(workspace, path, content, ifMatch, ifNoneMatch) =>
      Put(owner, workspace, path, content, key, ifMatch, ifNoneMatch, source, id)
  }

  // ---- Replays ----

  /** The same request again, with whatever identifier is drawn for it now. */
  function Again(op: Op, id: Id): Op {
    op.(id := id)
  }

  /** A request the ledger already has is answered with its row, and changes nothing. */
  lemma ReplayAnswersFromLedger(v: Vault, op: Op)
    requires VaultOk(v) && op.At() in v.ledger && v.ledger[op.At()].hash == op.Hash()
    requires WriteOp(v, op).1.Ok?
    ensures WriteOp(v, op) == (v, Ok(Reply(v.ledger[op.At()].status, v.ledger[op.At()].body)))
  {
    assert RowOk(v, op.At());
    if op.Put? { NormalizeKeepsOrRefuses(op.path); }
  }

  /** What makes a write acceptable at all, apart from the state of the tables. */
  predicate WellFormed(op: Op) {
    && |op.content| <= MAX_CONTENT
    && (op.Put? ==>
          && NormalizeFilePath(op.path).Ok?
          && op.ifMatch.None? != op.ifNoneMatch.None?
          && (op.ifNoneMatch.Some? ==> op.ifNoneMatch.value == "*"))
  }

  ghost function WriteAll(v: Vault, ops: seq<Op>): Vault {
    if ops == [] then v else WriteOp(WriteAll(v, ops[..|ops| - 1]), ops[|ops| - 1]).0
  }

  lemma {:induction false} AllGrow(v: Vault, ops: seq<Op>)
    requires VaultOk(v)
    ensures VaultOk(WriteAll(v, ops)) && Grows(v, WriteAll(v, ops))
  {
    if ops != [] {
      hide VaultOk, WriteOp;
      AllGrow(v, ops[..|ops| - 1]);
      WriteKeepsOk(WriteAll(v, ops[..|ops| - 1]), ops[|ops| - 1]);
      WriteGrows(WriteAll(v, ops[..|ops| - 1]), ops[|ops| - 1]);
    }
  }

  /**
   A committed write is answered the same way for ever: whatever is written later, sending the same
   request again returns the reply it got the first time and changes nothing. The same key with another
   request on the same route is refused.
   */
  lemma ReplayReturnsOriginal(v: Vault, op: Op, ops: seq<Op>, id: Id, other: Op)
    requires VaultOk(v) && Commits(v, op)
    requires other.At() == op.At() && other.Hash() != op.Hash() && WellFormed(other)
    ensures var later := WriteAll(WriteOp(v, op).0, ops);
      && WriteOp(later, Again(op, id)) == (later, WriteOp(v, op).1)
      && WriteOp(later, other) == (later, Err(IdempotencyConflict))
  {
    hide VaultOk, WriteAll;
    var first := WriteOp(v, op).0;
    CommitsOrUnchanged(v, op);
    WriteKeepsOk(v, op);
    AllGrow(first, ops);
    var later := WriteAll(first, ops);
    assert later.ledger[op.At()] == first.ledger[op.At()];
    RowAccepts(later, op, id);
    if other.Put? { NormalizeKeepsOrRefuses(other.path); }
    CommitReply(v, op);
    CommittedIsWellFormed(v, op);
    ReplaySucceeds(later, Again(op, id));
    ReplayAnswersFromLedger(later, Again(op, id));
  }

  lemma RowAccepts(v: Vault, op: Op, id: Id)
    ensures Again(op, id).At() == op.At() && Again(op, id).Hash() == op.Hash()
            && (WellFormed(op) ==> WellFormed(Again(op, id)))
  {
  }

  lemma CommittedIsWellFormed(v: Vault, op: Op)
    requires Commits(v, op)
    ensures WellFormed(op)
  {
  }

  lemma ReplaySucceeds(v: Vault, op: Op)
    requires VaultOk(v) && op.At() in v.ledger && v.ledger[op.At()].hash == op.Hash() && WellFormed(op)
    ensures WriteOp(v, op).1.Ok?
  {
    assert RowOk(v, op.At());
    if op.Put? { NormalizeKeepsOrRefuses(op.path); }
  }
}
