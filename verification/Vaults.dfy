/**
 The resource tables: the idempotency ledger, workspace files and immutable artifacts,
 and the two transactions that write them.
 */
module Vaults {
  import opened Wrappers
  import opened Paths

  newtype byte = x: int | 0 <= x < 256
  type Bytes = seq<byte>

  datatype Owner = Owner(tenant: nat, subject: nat)

  /** SHA-256, kept as an injective constructor. */
  datatype Digest = Sha256(content: Bytes)

  /** The tag a revision gets, or any other text a client may send. */
  datatype ETag = Strong(digest: Digest, revision: nat) | Foreign(text: string)

  /** Idempotency keys: `action:{id}`, `hnh:{id}`, or one chosen by a client. */
  datatype EffectKey = ActionKey(action: Id) | RecoveryKey(action: Id) | ClientKey(text: string)

  /** Method and canonical route of a resource write. */
  datatype Route = ArtifactsRoute | FileRoute(workspace: string, path: string)

  /** The fingerprint of a request; it determines method, route and payload. */
  datatype Fingerprint =
    | PostArtifact(mediaType: string, digest: Digest)
    | PutFile(workspace: string, path: string, digest: Digest, ifMatch: Option<ETag>, ifNoneMatch: Option<string>)

  datatype Body =
    | ArtifactBody(id: Id, mediaType: string, size: nat, digest: Digest, source: Option<Id>)
    | FileBody(workspace: string, path: string, revision: nat, etag: ETag, artifact: Id)

  datatype LedgerKey = LedgerKey(owner: Owner, route: Route, key: EffectKey)

  datatype Receipt = Receipt(hash: Fingerprint, status: nat, resource: Id, body: Body)

  datatype Artifact = Artifact(
    owner: Owner, mediaType: string, size: nat, digest: Digest, content: Bytes, source: Option<Id>)

  datatype FileKey = FileKey(owner: Owner, workspace: string, path: string)

  datatype FileRow = FileRow(revision: nat, etag: ETag, artifact: Id)

  datatype Vault = Vault(
    ledger: map<LedgerKey, Receipt>, files: map<FileKey, FileRow>, artifacts: map<Id, Artifact>)

  const EMPTY_VAULT := Vault(map[], map[], map[])

  const MAX_CONTENT := 1048576

  /** A local write: what a bound `artifact.create` or `workspace.file.write` asks for. */
  datatype LocalWrite =
    | CreateArtifact(content: Bytes, mediaType: string)
    | WriteFile(workspace: string, path: string, content: Bytes, ifMatch: Option<ETag>, ifNoneMatch: Option<string>)
  {
    function Hash(): Fingerprint {
      match this
      case CreateArtifact(content, mediaType) => PostArtifact(mediaType, Sha256(content))
      case WriteFile(workspace, path, content, ifMatch, ifNoneMatch) =>
        PutFile(workspace, path, Sha256(content), ifMatch, ifNoneMatch)
    }

    function Where(): Route {
      match this
      case CreateArtifact(_, _) => ArtifactsRoute
      case WriteFile(workspace, path, _, _, _) => FileRoute(workspace, path)
    }
  }

  datatype Reply = Reply(status: nat, body: Body)

  function ArtifactSnapshot(id: Id, a: Artifact): Body {
    ArtifactBody(id, a.mediaType, a.size, a.digest, a.source)
  }

  function NewArtifact(owner: Owner, content: Bytes, mediaType: string, source: Option<Id>): Artifact {
    Artifact(owner, mediaType, |content|, Sha256(content), content, source)
  }

  /** Store an artifact, or answer a replay from the ledger. `id` is the identifier drawn for it. */
  function PostArtifactTx(v: Vault, owner: Owner, content: Bytes, mediaType: string,
                          key: EffectKey, source: Option<Id>, id: Id): (Vault, Result<Reply>)
  {
    var at := LedgerKey(owner, ArtifactsRoute, key);
    var hash := PostArtifact(mediaType, Sha256(content));
    if |content| > MAX_CONTENT then (v, Err(PayloadTooLarge))
    else if at in v.ledger then
      if v.ledger[at].hash != hash then (v, Err(IdempotencyConflict))
      else if v.ledger[at].resource !in v.artifacts then (v, Err(NotFound))
      else (v, Ok(Reply(201, ArtifactSnapshot(v.ledger[at].resource, v.artifacts[v.ledger[at].resource]))))
    else if id in v.artifacts then (v, Err(DuplicateKey))
    else
      var artifact := NewArtifact(owner, content, mediaType, source);
      var body := ArtifactSnapshot(id, artifact);
      (v.(artifacts := v.artifacts[id := artifact],
          ledger := v.ledger[at := Receipt(hash, 201, id, body)]),
       Ok(Reply(201, body)))
  }

  /** Write one revision of a file under exactly one precondition, or answer a replay from the ledger. */
  function PutFileTx(v: Vault, owner: Owner, workspace: string, rawPath: string, content: Bytes,
                     key: EffectKey, ifMatch: Option<ETag>, ifNoneMatch: Option<string>,
                     source: Option<Id>, id: Id): (Vault, Result<Reply>)
  {
    match NormalizeFilePath(rawPath)
    case Err(e) => (v, Err(e))
    case Ok(path) =>
      var at := LedgerKey(owner, FileRoute(workspace, path), key);
      var hash := PutFile(workspace, path, Sha256(content), ifMatch, ifNoneMatch);
      var file := FileKey(owner, workspace, path);
      if |content| > MAX_CONTENT then (v, Err(PayloadTooLarge))
      else if ifMatch.None? == ifNoneMatch.None? then (v, Err(PreconditionRequired))
      else if ifNoneMatch.Some? && ifNoneMatch.value != "*" then (v, Err(PreconditionFailed))
      else if at in v.ledger then
        if v.ledger[at].hash != hash then (v, Err(IdempotencyConflict))
        else (v, Ok(Reply(if v.ledger[at].status == 201 then 201 else 200, v.ledger[at].body)))
      else if file !in v.files && ifNoneMatch.None? then (v, Err(PreconditionFailed))
      else if file in v.files && ifMatch != Some(v.files[file].etag) then (v, Err(PreconditionFailed))
      else if id in v.artifacts then (v, Err(DuplicateKey))
      else
        var revision := if file in v.files then v.files[file].revision + 1 else 1;
        var row := FileRow(revision, Strong(Sha256(content), revision), id);
        var body := FileBody(workspace, path, revision, row.etag, id);
        var status := if file in v.files then 200 else 201;
        (Vault(v.ledger[at := Receipt(hash, status, id, body)],
               v.files[file := row],
               v.artifacts[id := NewArtifact(owner, content, "text/plain", source)]),
         Ok(Reply(status, body)))
  }
}
