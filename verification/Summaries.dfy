/** The summary of raw rows: whether they can be read, what design they claim to be, and whether it is complete. */
module Summaries {
  import opened Wrappers
  import opened Designs
  import opened DesignChecks
  import opened Evaluation

  datatype Judgement = FourArm(complete: bool) | Ablation(complete: bool) | NoDesign

  /** An outcome, and a verification that agrees with the raw evidence. */
  predicate Readable(row: Row) {
    && row.outcome.Is?
    && (if row.oracle.Is? && row.evidence.Is?
        then row.verified == Is(Supports(row.oracle.value, Answer(row.outcome.value, row.evidence.value)))
        else row.verified != Is(true))
  }

  predicate Labeled(row: Row) {
    !row.surface.Missing? || !row.downstream.Missing?
  }

  predicate Conditioned(row: Row) {
    !row.feature.Missing? || !row.enabled.Missing?
  }

  predicate Named(row: Row) {
    row.caseId.Is? && row.caseId.value != ""
  }

  predicate All<T>(rows: seq<Row>, get: Row -> Cell<T>, fine: T -> bool) {
    forall i :: 0 <= i < |rows| ==> get(rows[i]).Is? && fine(get(rows[i]).value)
  }

  predicate Same<T(==)>(rows: seq<Row>, get: Row -> Cell<T>) {
    forall i, j :: 0 <= i < |rows| && 0 <= j < |rows| ==> get(rows[i]) == get(rows[j])
  }

  /** What all rows must share, and what each must have. */
  predicate MetadataOk(rows: seq<Row>) {
    && All(rows, (r: Row) => r.oracle, (o: seq<string>) => o != [])
    && All(rows, (r: Row) => r.evidence, (e: seq<string>) => true)
    && All(rows, (r: Row) => r.model, (s: string) => s != "") && Same(rows, (r: Row) => r.model)
    && All(rows, (r: Row) => r.settingsHash, Hash) && Same(rows, (r: Row) => r.settingsHash)
    && All(rows, (r: Row) => r.capabilityRevision, (s: string) => s != "")
    && Same(rows, (r: Row) => r.capabilityRevision)
    && All(rows, (r: Row) => r.policyRevision, (s: string) => s != "") && Same(rows, (r: Row) => r.policyRevision)
    && All(rows, (r: Row) => r.fixturesHash, (s: string) => s != "") && Same(rows, (r: Row) => r.fixturesHash)
    && All(rows, (r: Row) => r.environmentHash, Hash) && Same(rows, (r: Row) => r.environmentHash)
    && All(rows, (r: Row) => r.tier, (t: Tier) => true) && Same(rows, (r: Row) => r.tier)
    && (forall i :: 0 <= i < |rows| ==>
          !(rows[i].tier == Is(LiveProvider) && rows[i].environmentHash.Is?
            && NoEnvironment(rows[i].environmentHash.value)))
    && All(rows, (r: Row) => r.controlsHash, Hash) && Same(rows, (r: Row) => r.controlsHash)
    && All(rows, (r: Row) => r.seed, (n: int) => n >= 0) && Same(rows, (r: Row) => r.seed)
  }

  function ArmNumber(surface: Surface, downstream: Downstream): nat {
    (if surface.NativeFunctionSchema? then 0 else 2) + (if downstream.NativeHttp? then 0 else 1)
  }

  /** A row as a placement, if what it says about its case and position has the right types. */
  function Place(row: Row, position: Cell<int>, arm: nat): Option<Placement> {
    if row.caseId.Is? && row.caseHash.Is? && row.oracle.Is? && row.caseIndex.Is? && position.Is?
    then Some(Placement(row.caseId.value, row.caseHash.value, row.oracle.value, row.caseIndex.value, position.value,
                        arm))
    else None
  }

  function PlaceArm(row: Row): Option<Placement> {
    if row.surface.Is? && row.downstream.Is?
      then Place(row, row.armIndex, ArmNumber(row.surface.value, row.downstream.value)) else None
  }

  function PlaceCondition(row: Row): Option<Placement> {
    if row.enabled.Is? then Place(row, row.conditionIndex, if row.enabled.value then 1 else 0) else None
  }

  /** The placements of all rows, if each row has one. */
  function Placements(rows: seq<Row>, place: Row -> Option<Placement>): (ps: Option<seq<Placement>>)
    ensures ps.Some? ==> |ps.value| == |rows| && forall i :: 0 <= i < |rows| ==> place(rows[i]) == Some(ps.value[i])
    ensures ps.None? ==> exists i :: 0 <= i < |rows| && place(rows[i]).None?
  {
    if rows == [] then Some([])
    else
      var rest, last := Placements(rows[..|rows| - 1], place), place(rows[|rows| - 1]);
      if rest.Some? && last.Some? then Some(rest.value + [last.value]) else None
  }

  predicate DesignComplete(rows: seq<Row>, place: Row -> Option<Placement>, m: nat)
    requires m > 0
  {
    && MetadataOk(rows)
    && Placements(rows, place).Some?
    && (rows != [] ==> Complete(Placements(rows, place).value, m, rows[0].seed.value))
  }

  /** The judgement on a list of raw rows; rows nobody could have written are an error, not an incomplete design. */
  function Judge(rows: seq<Row>): Result<Judgement> {
    if rows == [] || exists i :: 0 <= i < |rows| && !Readable(rows[i]) then Err(InvalidArgument)
    else if exists i :: 0 <= i < |rows| && Labeled(rows[i]) then
      if exists i :: 0 <= i < |rows| && Labeled(rows[i])
                     && !(rows[i].surface.Is? && rows[i].downstream.Is? && Named(rows[i]))
      then Err(InvalidArgument)
      else Ok(FourArm((forall i :: 0 <= i < |rows| ==> Labeled(rows[i])) && DesignComplete(rows, PlaceArm, 4)))
    else if exists i :: 0 <= i < |rows| && Conditioned(rows[i]) then
      if exists i :: 0 <= i < |rows| && Conditioned(rows[i])
                     && !(rows[i].feature.Is? && rows[i].enabled.Is? && Named(rows[i]))
      then Err(InvalidArgument)
      else Ok(Ablation((forall i :: 0 <= i < |rows| ==> Conditioned(rows[i])) && Same(rows, (r: Row) => r.feature)
                       && DesignComplete(rows, PlaceCondition, 2)))
    else Ok(NoDesign)
  }

  method CheckRowsComplete(rows: seq<Row>, place: Row -> Option<Placement>, m: nat) returns (complete: bool)
    requires m > 0
    ensures complete <==> DesignComplete(rows, place, m)
  {
    if !MetadataOk(rows) { return false; }
    var ps: seq<Placement> := [];
    for n := 0 to |rows|
      invariant Placements(rows[..n], place) == Some(ps)
    {
      assert rows[..n + 1][..n] == rows[..n];
      var p := place(rows[n]);
      if p.None? {
        assert Placements(rows, place).None? by { NoPlace(rows, place, n); }
        return false;
      }
      ps := ps + [p.value];
    }
    assert rows[..|rows|] == rows;
    if rows == [] { return true; }
    complete := CheckDesign(ps, m, rows[0].seed.value);
  }

  lemma NoPlace(rows: seq<Row>, place: Row -> Option<Placement>, n: nat)
    requires n < |rows| && place(rows[n]).None?
    ensures Placements(rows, place).None?
  {
  }

  method Summarize(rows: seq<Row>) returns (r: Result<Judgement>)
    ensures r == Judge(rows)
  {
    hide DesignComplete, Readable, Labeled, Conditioned, Same, Named, PlaceArm, PlaceCondition;
    if rows == [] || exists i :: 0 <= i < |rows| && !Readable(rows[i]) { return Err(InvalidArgument); }
    if exists i :: 0 <= i < |rows| && Labeled(rows[i]) {
      if exists i :: 0 <= i < |rows| && Labeled(rows[i])
                     && !(rows[i].surface.Is? && rows[i].downstream.Is? && Named(rows[i])) {
        return Err(InvalidArgument);
      }
      var complete := CheckRowsComplete(rows, PlaceArm, 4);
      return Ok(FourArm((forall i :: 0 <= i < |rows| ==> Labeled(rows[i])) && complete));
    }
    if exists i :: 0 <= i < |rows| && Conditioned(rows[i]) {
      if exists i :: 0 <= i < |rows| && Conditioned(rows[i])
                     && !(rows[i].feature.Is? && rows[i].enabled.Is? && Named(rows[i])) {
        return Err(InvalidArgument);
      }
      var complete := CheckRowsComplete(rows, PlaceCondition, 2);
      return Ok(Ablation((forall i :: 0 <= i < |rows| ==> Conditioned(rows[i])) && Same(rows, (r: Row) => r.feature)
                         && complete));
    }
    r := Ok(NoDesign);
  }

  // ---- What the runners write ----

  /** The rotation, as the validator counts it. */
  lemma RotatedArm(offset: nat, k: nat)
    requires offset < 4 && k < 4
    ensures var arm := Rotated(offset)[k]; ArmNumber(arm.surface, arm.downstream) == (offset + k) % 4
  {
    assert ArmNumber(ARMS[0].surface, ARMS[0].downstream) == 0 && ArmNumber(ARMS[1].surface, ARMS[1].downstream) == 1;
    assert ArmNumber(ARMS[2].surface, ARMS[2].downstream) == 2 && ArmNumber(ARMS[3].surface, ARMS[3].downstream) == 3;
    if offset + k < 4 {
      assert Rotated(offset)[k] == ARMS[offset + k];
    } else {
      assert Rotated(offset)[k] == ARMS[offset + k - 4];
    }
  }

  /** The number of the row of case `i` at position `k`, and back. */
  function RowNumber(i: nat, k: nat, m: nat): nat {
    m * i + k
  }

  function CaseOf(x: nat, m: nat): nat
    requires m > 0
  {
    x / m
  }

  function SlotOf(x: nat, m: nat): nat
    requires m > 0
  {
    x % m
  }

  lemma Numbered(x: nat, m: nat)
    requires m > 0
    ensures x == RowNumber(CaseOf(x, m), SlotOf(x, m), m) && SlotOf(x, m) < m
  {
    assert x == (x / m) * m + x % m;
  }

  lemma Renumbered(i: nat, k: nat, m: nat, n: nat)
    requires k < m && i < n
    ensures var x := RowNumber(i, k, m); x < m * n && CaseOf(x, m) == i && SlotOf(x, m) == k
  {
    assert m * i + k < m * (i + 1) <= m * n;
    RemainderOf(i, m, k);
    assert i * m == m * i;
    var x := m * i + k;
    assert x == (x / m) * m + x % m;
    Distribute(x / m, i, m);
    assert (x / m - i) * m == 0;
    NonzeroFactor(x / m - i, m);
  }

  lemma NonzeroFactor(q: int, m: nat)
    requires m > 0 && q * m == 0
    ensures q == 0
  {
  }

  function Rotates(c: Case, i: nat, k: nat, m: nat, seed: nat): Placement
    requires m > 0
  {
    Placement(c.id, c.hash, c.oracle, i, k, (seed + i + k) % m)
  }

  /** The placements a runner writes: case after case, position after position, conditions rotated. */
  predicate Rotation(ps: seq<Placement>, cases: seq<Case>, m: nat, seed: nat)
    requires m > 0
  {
    && |ps| == m * |cases|
    && forall x :: 0 <= x < |ps| ==>
      CaseOf(x, m) < |cases| && ps[x] == Rotates(cases[CaseOf(x, m)], CaseOf(x, m), SlotOf(x, m), m, seed)
  }

  lemma {:induction false} DistinctIds(cases: seq<Case>, n: nat)
    requires Unique(cases) && n <= |cases|
    ensures |set i | 0 <= i < n :: cases[i].id| == n
  {
    if n > 0 {
      DistinctIds(cases, n - 1);
      var before := set i | 0 <= i < n - 1 :: cases[i].id;
      assert (set i | 0 <= i < n :: cases[i].id) == before + {cases[n - 1].id};
      assert cases[n - 1].id !in before;
    }
  }

  lemma RotationRow(ps: seq<Placement>, cases: seq<Case>, m: nat, seed: nat, i: nat, k: nat)
    requires m > 0 && Rotation(ps, cases, m, seed) && i < |cases| && k < m
    ensures RowNumber(i, k, m) < |ps| && ps[RowNumber(i, k, m)] == Rotates(cases[i], i, k, m, seed)
  {
    Renumbered(i, k, m, |cases|);
    hide CaseOf, SlotOf, Rotates, RowNumber;
  }

  lemma RotationCases(ps: seq<Placement>, cases: seq<Case>, m: nat, seed: nat)
    requires m > 0 && Rotation(ps, cases, m, seed) && Unique(cases)
    ensures |CaseIds(ps)| == |cases|
  {
    hide CaseOf, SlotOf, RowNumber;
    var ids := set i | 0 <= i < |cases| :: cases[i].id;
    forall c | c in ids ensures c in CaseIds(ps) {
      var i :| 0 <= i < |cases| && cases[i].id == c;
      RotationRow(ps, cases, m, seed, i, 0);
    }
    assert CaseIds(ps) == ids;
    DistinctIds(cases, |cases|);
  }

  lemma RotationRowsDiffer(ps: seq<Placement>, cases: seq<Case>, m: nat, seed: nat, x: nat, y: nat)
    requires m > 0 && Rotation(ps, cases, m, seed) && Unique(cases) && x < y < |ps|
    ensures ps[x].caseId != ps[y].caseId || ps[x].arm != ps[y].arm
  {
    Numbered(x, m);
    Numbered(y, m);
    hide CaseOf, SlotOf, RowNumber;
    if CaseOf(x, m) == CaseOf(y, m) && ps[x].arm == ps[y].arm {
      SameResidue(seed + CaseOf(x, m), SlotOf(x, m), SlotOf(y, m), m);
    }
  }

  lemma RotationHasRow(ps: seq<Placement>, cases: seq<Case>, m: nat, seed: nat, i: nat, arm: nat)
    requires m > 0 && Rotation(ps, cases, m, seed) && i < |cases| && arm < m
    ensures HasRow(ps, cases[i].id, arm)
  {
    var k := ResidueReached(seed + i, arm, m);
    RotationRow(ps, cases, m, seed, i, k);
    assert ps[RowNumber(i, k, m)].arm == arm;
  }

  lemma RotationEachOnce(ps: seq<Placement>, cases: seq<Case>, m: nat, seed: nat)
    requires m > 0 && Rotation(ps, cases, m, seed) && Unique(cases)
    ensures EachOnce(ps, m)
  {
    hide CaseOf, SlotOf, RowNumber, HasRow;
    forall i, j | 0 <= i < j < |ps| ensures ps[i].caseId != ps[j].caseId || ps[i].arm != ps[j].arm {
      RotationRowsDiffer(ps, cases, m, seed, i, j);
    }
    forall i, l | 0 <= i < |ps| && 0 <= l < m ensures HasRow(ps, ps[i].caseId, l) {
      RotationHasRow(ps, cases, m, seed, CaseOf(i, m), l);
    }
  }

  lemma RotationContiguous(ps: seq<Placement>, cases: seq<Case>, m: nat, seed: nat)
    requires m > 0 && Rotation(ps, cases, m, seed) && Unique(cases)
    ensures Contiguous(ps)
  {
    RotationCases(ps, cases, m, seed);
    hide CaseIds, CaseOf, SlotOf, RowNumber;
    forall k | 0 <= k < |CaseIds(ps)| ensures HasIndex(ps, k) {
      RotationRow(ps, cases, m, seed, k, 0);
    }
  }

  lemma RotationAgrees(ps: seq<Placement>, cases: seq<Case>, m: nat, seed: nat)
    requires m > 0 && Rotation(ps, cases, m, seed) && Unique(cases) && forall i :: 0 <= i < |cases| ==>
               CaseValid(cases[i])
    ensures CasesAgree(ps)
  {
    hide CaseOf, SlotOf;
    forall x, y | 0 <= x < |ps| && 0 <= y < |ps|
      ensures ps[x].caseId == ps[y].caseId <==> CaseOf(x, m) == CaseOf(y, m)
    {
      assert CaseOf(x, m) < CaseOf(y, m) || CaseOf(x, m) == CaseOf(y, m) || CaseOf(y, m) < CaseOf(x, m);
    }
    hide Unique;
  }

  /** The two encodings agree: a written rotation is a complete design. */
  lemma RotationIsComplete(ps: seq<Placement>, cases: seq<Case>, m: nat, seed: nat)
    requires m > 0 && Rotation(ps, cases, m, seed) && Unique(cases) && forall i :: 0 <= i < |cases| ==>
               CaseValid(cases[i])
    ensures Complete(ps, m, seed)
  {
    RotationEachOnce(ps, cases, m, seed);
    RotationContiguous(ps, cases, m, seed);
    RotationAgrees(ps, cases, m, seed);
    hide EachOnce, Contiguous, CasesAgree, Unique, CaseOf, SlotOf;
    forall x | 0 <= x < |ps| ensures Positioned(ps[x], m, seed) {
      Numbered(x, m);
    }
  }
}
