/** The resource store: one object holding the ledger, the files and the artifacts, changed in place. */
module ResourceStores {
  import opened Wrappers
  import opened Paths
  import opened Vaults

  class ResourceStore {
    var ledger: map<LedgerKey, Receipt>
    var files: map<FileKey, FileRow>
    var artifacts: map<Id, Artifact>

    constructor ()
      ensures State() == EMPTY_VAULT
    {
      ledger, files, artifacts := map[], map[], map[];
    }

    function State(): Vault
      reads this
    {
      Vault(ledger, files, artifacts)
    }

    /** The row of an earlier request under this key, if it was the same request. */
    method Replay(at: LedgerKey, hash: Fingerprint) returns (r: Result<Option<Receipt>>)
      ensures at !in ledger ==> r == Ok(None)
      ensures at in ledger ==> r == if ledger[at].hash == hash then Ok(Some(ledger[at])) else Err(IdempotencyConflict)
    {
      if at !in ledger { return Ok(None); }
      if ledger[at].hash != hash { return Err(IdempotencyConflict); }
      r := Ok(Some(ledger[at]));
    }

    method CreateArtifact(owner: Owner, content: Bytes, mediaType: string, key: EffectKey, source: Option<Id>, id: Id)
      returns (r: Result<Reply>)
      modifies this
      ensures (State(), r) == PostArtifactTx(old(State()), owner, content, mediaType, key, source, id)
    {
      if |content| > MAX_CONTENT { return Err(PayloadTooLarge); }
      var at, hash := LedgerKey(owner, ArtifactsRoute, key), PostArtifact(mediaType, Sha256(content));
      var replay := Replay(at, hash);
      if replay.Err? { return Err(replay.error); }
      if replay.value.Some? {
        var resource := replay.value.value.resource;
        if resource !in artifacts { return Err(NotFound); }
        return Ok(Reply(201, ArtifactSnapshot(resource, artifacts[resource])));
      }
      if id in artifacts { return Err(DuplicateKey); }
      artifacts := artifacts[id := NewArtifact(owner, content, mediaType, source)];
      var snapshot := ArtifactSnapshot(id, artifacts[id]);
      ledger := ledger[at := Receipt(hash, 201, id, snapshot)];
      r := Ok(Reply(201, snapshot));
    }

    /** One revision under exactly one precondition: create with `*`, or overwrite the revision whose tag is named. */
    method WriteFile(owner: Owner, workspace: string, rawPath: string, content: Bytes, key: EffectKey,
                     ifMatch: Option<ETag>, ifNoneMatch: Option<string>, source: Option<Id>,
                     id: Id) returns (r: Result<Reply>)
      modifies this
      ensures (State(), r)
           == PutFileTx(old(State()), owner, workspace, rawPath, content, key, ifMatch, ifNoneMatch, source, id)
    {
      var canonical := NormalizeFilePath(rawPath);
      if canonical.Err? { return Err(canonical.error); }
      var path := canonical.value;
      if |content| > MAX_CONTENT { return Err(PayloadTooLarge); }
      if ifMatch.None? == ifNoneMatch.None? { return Err(PreconditionRequired); }
      if ifNoneMatch.Some? && ifNoneMatch.value != "*" { return Err(PreconditionFailed); }
      var at := LedgerKey(owner, FileRoute(workspace, path), key);
      var hash := PutFile(workspace, path, Sha256(content), ifMatch, ifNoneMatch);
      var replay := Replay(at, hash);
      if replay.Err? { return Err(replay.error); }
      if replay.value.Some? {
        var receipt := replay.value.value;
        return Ok(Reply(if receipt.status == 201 then 201 else 200, receipt.body));
      }
      var file := FileKey(owner, workspace, path);
      var created := file !in files;
      if created && ifNoneMatch.None? { return Err(PreconditionFailed); }
      if !created && (ifMatch.None? || ifMatch.value != files[file].etag) { return Err(PreconditionFailed); }
      var revision := if created then 1 else files[file].revision + 1;
      if id in artifacts { return Err(DuplicateKey); }
      artifacts := artifacts[id := NewArtifact(owner, content, "text/plain", source)];
      var etag := Strong(Sha256(content), revision);
      files := files[file := FileRow(revision, etag, id)];
      var snapshot := FileBody(workspace, path, revision, etag, id);
      var status := if created then 201 else 200;
      ledger := ledger[at := Receipt(hash, status, id, snapshot)];
      r := Ok(Reply(status, snapshot));
    }
  }
}
