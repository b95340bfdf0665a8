/** Linear file history: what any interleaving of writers and replays leaves behind. */
module FileHistory {
  import opened Wrappers
  import opened Vaults
  import opened Ledgers

  /** One committed revision: the ledger row it came with, the tag it got and the tag its writer supplied. */
  datatype Entry = Entry(at: LedgerKey, etag: ETag, supplied: Option<ETag>)

  /** The tables, and an observer that notes every committed revision of every file. */
  datatype Archive = Archive(vault: Vault, history: map<FileKey, seq<Entry>>)
  {
    function History(file: FileKey): seq<Entry> {
      if file in history then history[file] else []
    }
  }

  ghost function Next(a: Archive, op: Op): Archive {
    var v' := WriteOp(a.vault, op).0;
    if op.Put? && Commits(a.vault, op) && op.File() in v'.files
    then Archive(v',
                 a.history[op.File() := a.History(op.File()) + [Entry(op.At(), v'.files[op.File()].etag, op.ifMatch)]])
    else a.(vault := v')
  }

  ghost function Written(ops: seq<Op>): Archive {
    if ops == [] then Archive(EMPTY_VAULT, map[]) else Next(Written(ops[..|ops| - 1]), ops[|ops| - 1])
  }

  /** Entry `i` is revision `i + 1`, written over revision `i`, and the ledger says so. */
  ghost predicate EntryOk(v: Vault, file: FileKey, h: seq<Entry>, i: nat)
    requires i < |h|
  {
    && h[i].etag.Strong? && h[i].etag.revision == i + 1
    && h[i].supplied == (if i == 0 then None else Some(h[i - 1].etag))
    && h[i].at in v.ledger && h[i].at.owner == file.owner && h[i].at.route == FileRoute(file.workspace, file.path)
    && v.ledger[h[i].at].body.FileBody? && v.ledger[h[i].at].body.revision == i + 1
    && v.ledger[h[i].at].body.etag == h[i].etag
  }

  /** The file's row is its last entry. */
  ghost predicate FileOk(a: Archive, file: FileKey) {
    var h := a.History(file);
    && (file in a.vault.files <==> h != [])
    && (file in a.vault.files ==> a.vault.files[file].revision == |h| && a.vault.files[file].etag == h[|h| - 1].etag)
    && forall i {:trigger EntryOk(a.vault, file, h, i)} :: 0 <= i < |h| ==> EntryOk(a.vault, file, h, i)
  }

  /** The file a ledger row is about. */
  function FileOf(at: LedgerKey): FileKey
    requires at.route.FileRoute?
  {
    FileKey(at.owner, at.route.workspace, at.route.path)
  }

  /** Every file row of the ledger is an entry of that file's history. */
  ghost predicate RowNoted(a: Archive, at: LedgerKey)
    requires at in a.vault.ledger
  {
    at.route.FileRoute? ==>
      var h, row := a.History(FileOf(at)), a.vault.ledger[at];
      row.body.FileBody? && 1 <= row.body.revision <= |h| && h[row.body.revision - 1].at == at
  }

  ghost predicate ArchiveOk(a: Archive) {
    && (forall file {:trigger FileOk(a, file)} :: FileOk(a, file))
    && (forall at {:trigger RowNoted(a, at)} :: at in a.vault.ledger ==> RowNoted(a, at))
  }

  lemma PostKeepsFiles(v: Vault, op: Op)
    ensures op.Post? ==> WriteOp(v, op).0.files == v.files
  {
  }

  lemma CommitExtends(a: Archive, op: Op)
    requires ArchiveOk(a) && op.Put? && Commits(a.vault, op)
    ensures var a', h := Next(a, op), a.History(op.File());
      && FileOk(a', op.File())
      && a'.history == a.history[op.File() := a'.History(op.File())] && |a'.History(op.File())| == |h| + 1
      && a'.History(op.File())[..|h|] == h && a'.History(op.File())[|h|].at == op.At()
      && op.At() in a'.vault.ledger && a'.vault.ledger[op.At()].body.FileBody?
      && a'.vault.ledger[op.At()].body.revision == |h| + 1
  {
    var v, file := a.vault, op.File();
    var h := a.History(file);
    assert FileOk(a, file);
    CommitsOrUnchanged(v, op);
    CommitReply(v, op);
    hide WriteOp;
    var a' := Next(a, op);
    var h' := a'.History(file);
    forall i | 0 <= i < |h'| ensures EntryOk(a'.vault, file, h', i) {
      if i < |h| { assert EntryOk(v, file, h, i); }
    }
  }

  lemma NextKeeps(a: Archive, op: Op)
    requires ArchiveOk(a)
    ensures ArchiveOk(Next(a, op))
  {
    PostKeepsFiles(a.vault, op);
    hide WriteOp;
    var a' := Next(a, op);
    CommitsOrUnchanged(a.vault, op);
    if Commits(a.vault, op) {
      CommitReply(a.vault, op);
      if op.Put? { CommitExtends(a, op); }
      forall file ensures FileOk(a', file) {
        if !op.Put? || file != op.File() { OtherFileKept(a, a', file); }
      }
      forall at | at in a'.vault.ledger ensures RowNoted(a', at) {
        if at != op.At() {
          assert RowNoted(a, at);
          RowStaysNoted(a, a', op, at);
        }
      }
    }
  }

  lemma OtherFileKept(a: Archive, a': Archive, file: FileKey)
    requires FileOk(a, file) && a'.History(file) == a.History(file)
    requires file in a'.vault.files <==> file in a.vault.files
    requires file in a.vault.files ==> a'.vault.files[file] == a.vault.files[file]
    requires forall at :: at in a.vault.ledger ==> at in a'.vault.ledger && a'.vault.ledger[at] == a.vault.ledger[at]
    ensures FileOk(a', file)
  {
    var h := a.History(file);
    forall i | 0 <= i < |h| ensures EntryOk(a'.vault, file, h, i) { assert EntryOk(a.vault, file, h, i); }
  }

  lemma RowStaysNoted(a: Archive, a': Archive, op: Op, at: LedgerKey)
    requires at in a.vault.ledger && at in a'.vault.ledger
    requires a'.vault.ledger[at] == a.vault.ledger[at] && RowNoted(a, at)
    requires op.Post? ==> a'.history == a.history
    requires op.Put? ==>
      && a'.history == a.history[op.File() := a'.History(op.File())]
      && |a'.History(op.File())| == |a.History(op.File())| + 1
      && a'.History(op.File())[..|a.History(op.File())|] == a.History(op.File())
    ensures RowNoted(a', at)
  {
    if at.route.FileRoute? {
      var h, h' := a.History(FileOf(at)), a'.History(FileOf(at));
      var k := a.vault.ledger[at].body.revision - 1;
      assert h'[..|h|] == h;
      assert h'[k] == h[k];
    }
  }

  lemma {:induction false} WrittenOk(ops: seq<Op>)
    ensures ArchiveOk(Written(ops))
  {
    if ops != [] {
      hide Next, ArchiveOk;
      WrittenOk(ops[..|ops| - 1]);
      NextKeeps(Written(ops[..|ops| - 1]), ops[|ops| - 1]);
    } else {
      forall file ensures FileOk(Written([]), file) { }
    }
  }

  /**
   No lost update. Over any interleaving of writers and replays the revisions of a file are 1 to n
   without a gap, each written over the one immediately before it, whose tag its writer supplied; the
   first supplied none; no tag recurs; and the file is at the last of them.
   */
  lemma HistoryIsLinear(ops: seq<Op>, file: FileKey)
    requires file in Written(ops).vault.files
    ensures var h, row := Written(ops).History(file), Written(ops).vault.files[file];
      && h != [] && |h| == row.revision && h[|h| - 1].etag == row.etag
      && (forall i :: 0 <= i < |h| ==> h[i].etag.Strong? && h[i].etag.revision == i + 1)
      && h[0].supplied.None? && (forall i :: 0 < i < |h| ==> h[i].supplied == Some(h[i - 1].etag))
      && (forall i, j :: 0 <= i < j < |h| ==> h[i].etag != h[j].etag)
  {
    hide Next;
    WrittenOk(ops);
    var a := Written(ops);
    assert FileOk(a, file);
    var h := a.History(file);
    assert EntryOk(a.vault, file, h, 0);
    forall i | 0 <= i < |h|
      ensures h[i].etag.Strong? && h[i].etag.revision == i + 1
      ensures if i == 0 then h[i].supplied.None? else h[i].supplied == Some(h[i - 1].etag)
    {
      assert EntryOk(a.vault, file, h, i);
    }
    forall i, j | 0 <= i < j < |h| ensures h[i].etag != h[j].etag {
      assert h[i].etag.revision != h[j].etag.revision;
    }
  }

  /** Every acknowledged write of a file is one revision of it, and every revision was acknowledged once. */
  lemma RowsAreRevisions(ops: seq<Op>, file: FileKey)
    ensures var a := Written(ops); var h := a.History(file);
      && (forall at :: at in a.vault.ledger && at.route.FileRoute? && FileOf(at) == file
            ==> exists i :: 0 <= i < |h| && h[i].at == at)
      && (forall i :: 0 <= i < |h| ==> h[i].at in a.vault.ledger)
      && (forall i, j :: 0 <= i < j < |h| ==> h[i].at != h[j].at)
  {
    hide Next;
    WrittenOk(ops);
    var a := Written(ops);
    var h := a.History(file);
    assert FileOk(a, file);
    forall at | at in a.vault.ledger && at.route.FileRoute? && FileOf(at) == file
      ensures exists i :: 0 <= i < |h| && h[i].at == at
    {
      assert RowNoted(a, at);
      assert h[a.vault.ledger[at].body.revision - 1].at == at;
    }
    forall i | 0 <= i < |h| ensures h[i].at in a.vault.ledger { assert EntryOk(a.vault, file, h, i); }
    forall i, j | 0 <= i < j < |h| ensures h[i].at != h[j].at {
      assert EntryOk(a.vault, file, h, i) && EntryOk(a.vault, file, h, j);
    }
  }
}
