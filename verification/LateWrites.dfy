/**
 Late copies of writes: when a write that is not carried out now can still be carried out after whatever
 others write.
 */
module LateWrites {
  import opened Wrappers
  import opened Paths
  import opened Vaults
  import opened Ledgers
  import FileHistory

  /** The revision a file is at, 0 before its first. */
  function Revision(v: Vault, file: FileKey): nat {
    if file in v.files then v.files[file].revision else 0
  }

  /** A tag some later revision of the file can still get. */
  predicate StillAhead(v: Vault, file: FileKey, etag: ETag) {
    etag.Strong? && etag.revision > Revision(v, file) && |etag.digest.content| <= MAX_CONTENT
  }

  /** What its precondition asks of the file holds. */
  predicate Acceptable(v: Vault, op: Op)
    requires op.Put?
  {
    if op.ifMatch.None? then op.File() !in v.files
    else op.File() in v.files && op.ifMatch == Some(v.files[op.File()].etag)
  }

  /** A well-formed write that is acceptable now, or will be once somebody writes the revision it names. */
  predicate CanStill(v: Vault, op: Op) {
    && WellFormed(op)
    && (op.Put? ==> Acceptable(v, op) || (op.ifMatch.Some? && StillAhead(v, op.File(), op.ifMatch.value)))
  }

  lemma CommitsIff(v: Vault, op: Op)
    ensures Commits(v, op) <==>
      WellFormed(op) && op.At() !in v.ledger && op.id !in v.artifacts && (op.Put? ==> Acceptable(v, op))
  {
    if op.Put? { NormalizeKeepsOrRefuses(op.path); }
  }

  // ---- Never ----

  /** What can no longer be carried out stays so, whatever is written. */
  lemma NeverStep(v: Vault, op: Op, other: Op)
    requires !CanStill(v, op)
    ensures !CanStill(WriteOp(v, other).0, op)
  {
    CommitsOrUnchanged(v, other);
    if Commits(v, other) {
      CommitReply(v, other);
      CommitsIff(v, other);
      FileHistory.PostKeepsFiles(v, other);
      hide WriteOp, Commits;
    }
  }

  lemma {:induction false} NeverAgain(v: Vault, op: Op, ops: seq<Op>)
    requires !CanStill(v, op)
    ensures !CanStill(WriteAll(v, ops), op)
  {
    if ops != [] {
      hide WriteOp, CanStill;
      NeverAgain(v, op, ops[..|ops| - 1]);
      NeverStep(WriteAll(v, ops[..|ops| - 1]), op, ops[|ops| - 1]);
    }
  }

  // ---- Again ----

  /** Some client's key that nobody has used. */
  lemma FreshKey(v: Vault, used: EffectKey) returns (key: EffectKey)
    ensures key.ClientKey? && key != used && forall at :: at in v.ledger ==> at.key != key
  {
    var lengths := set at | at in v.ledger && at.key.ClientKey? :: |at.key.text|;
    var n := Bound(lengths + if used.ClientKey? then {|used.text|} else {});
    key := ClientKey(seq(n, i => 'k'));
    forall at | at in v.ledger ensures at.key != key {
      assert at.key.ClientKey? ==> |at.key.text| in lengths;
    }
  }

  /** A client's write that names no Action. */
  predicate ByClient(op: Op) {
    op.key.ClientKey? && op.source.None?
  }

  /** Somebody writes the next revision of the file, without touching what the late write needs. */
  lemma WriteNext(v: Vault, op: Op, content: Bytes) returns (next: Op)
    requires op.Put? && WellFormed(op) && op.At() !in v.ledger && op.id !in v.artifacts && |content| <= MAX_CONTENT
    ensures ByClient(next)
    ensures var v', t := WriteOp(v, next).0, Revision(v, op.File()) + 1;
      && op.At() !in v'.ledger && op.id !in v'.artifacts
      && op.File() in v'.files && v'.files[op.File()] == FileRow(t, Strong(Sha256(content), t), next.id)
  {
    var key := FreshKey(v, op.key);
    var id := Bound(v.artifacts.Keys + {op.id});
    var file := op.File();
    next := if file in v.files
            then Put(op.owner, op.workspace, op.path, content, key, Some(v.files[file].etag), None, None, id)
            else Put(op.owner, op.workspace, op.path, content, key, None, Some("*"), None, id);
    CommitsIff(v, next);
    CommitReply(v, next);
    CommitsOrUnchanged(v, next);
    hide WriteOp;
  }

  /** Others can bring the file to any later revision, with any content. */
  lemma {:induction false} Climb(v: Vault, op: Op, t: nat, content: Bytes) returns (ops: seq<Op>)
    requires op.Put? && WellFormed(op) && op.At() !in v.ledger && op.id !in v.artifacts && |content| <= MAX_CONTENT
    requires t >= Revision(v, op.File())
    ensures forall i :: 0 <= i < |ops| ==> ByClient(ops[i])
    ensures var v' := WriteAll(v, ops);
      && op.At() !in v'.ledger && op.id !in v'.artifacts && Revision(v', op.File()) == t
      && (t > Revision(v, op.File()) ==>
          op.File() in v'.files && v'.files[op.File()].etag == Strong(Sha256(content), t))
    decreases t
  {
    if t == Revision(v, op.File()) {
      ops := [];
    } else {
      hide WriteOp, WellFormed, ByClient;
      var before := Climb(v, op, t - 1, []);
      var next := WriteNext(WriteAll(v, before), op, content);
      ops := before + [next];
      assert ops[..|ops| - 1] == before;
    }
  }

  /**
   A write under an unused key can be carried out at some later time, after writes of other clients, if and
   only if it is well-formed and either acceptable now or names the tag of a revision still to come.
   */
  lemma CanStillCommitIff(v: Vault, op: Op)
    requires op.At() !in v.ledger && op.id !in v.artifacts
    ensures CanStill(v, op) <==> exists ops :: Commits(WriteAll(v, ops), op)
  {
    if CanStill(v, op) {
      var ops := LateCommit(v, op);
    }
    forall ops | Commits(WriteAll(v, ops), op) ensures CanStill(v, op) {
      hide WriteAll;
      CommitsIff(WriteAll(v, ops), op);
      if !CanStill(v, op) { NeverAgain(v, op, ops); }
    }
  }

  lemma LateCommit(v: Vault, op: Op) returns (ops: seq<Op>)
    requires op.At() !in v.ledger && op.id !in v.artifacts && CanStill(v, op)
    ensures Commits(WriteAll(v, ops), op) && forall i :: 0 <= i < |ops| ==> ByClient(ops[i])
  {
    ops := [];
    CommitsIff(v, op);
    if op.Put? && !Acceptable(v, op) {
      ops := Climb(v, op, op.ifMatch.value.revision, op.ifMatch.value.digest.content);
      hide WriteAll, WriteOp;
      CommitsIff(WriteAll(v, ops), op);
    }
  }

  /** The precondition fails and the key is unused. */
  predicate Refused(v: Vault, op: Op) {
    op.Put? && WellFormed(op) && op.At() !in v.ledger && WriteOp(v, op).1 == Err(PreconditionFailed)
  }

  /**
   A write refused for its precondition stays refused whatever others write, so that no late copy of it can
   slip in, if and only if it does not name the tag of a revision the file has yet to reach.
   */
  lemma RefusalIsFinalIff(v: Vault, op: Op)
    requires Refused(v, op) && op.id !in v.artifacts
    ensures (forall ops :: !Commits(WriteAll(v, ops), op)) <==>
              !(op.ifMatch.Some? && StillAhead(v, op.File(), op.ifMatch.value))
  {
    CanStillCommitIff(v, op);
    NormalizeKeepsOrRefuses(op.path);
    hide WriteAll, Commits;
  }
}
