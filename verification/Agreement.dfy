/** What the generators of designs write is what the validator judges complete. */
module Agreement {
  import opened Wrappers
  import opened Designs
  import opened Evaluation
  import opened Summaries

  /** The row was written under these controls, for a proper case, by a verifier that looked at the answer. */
  predicate Bears(row: Row, c: Controls) {
    && row.oracle.Is? && row.oracle.value != [] && row.evidence.Is? && row.outcome.Is?
    && row.verified == Is(Supports(row.oracle.value, Answer(row.outcome.value, row.evidence.value)))
    && row.caseId.Is? && row.caseId.value != "" && row.seed == Is(c.seed) && row.controlsHash == Is(c.hash)
    && row.model == Is(c.model) && row.settingsHash == Is(c.settingsHash)
    && row.capabilityRevision == Is(c.capabilityRevision)
    && row.policyRevision == Is(c.policyRevision) && row.fixturesHash == Is(c.fixturesHash)
    && row.environmentHash == Is(c.environmentHash) && row.tier == Is(c.tier)
  }

  lemma BaseRowBears(c: Case, index: nat, controls: Controls, answer: Answer)
    requires CaseValid(c)
    ensures Bears(BaseRow(c, index, controls, answer), controls)
  {
    assert answer == Answer(answer.outcome, answer.evidence);
  }

  lemma SharedMetadata(rows: seq<Row>, c: Controls)
    requires ControlsValid(c) && forall n :: 0 <= n < |rows| ==> Bears(rows[n], c)
    ensures MetadataOk(rows)
  {
  }

  lemma ReadableRow(row: Row, c: Controls)
    requires Bears(row, c)
    ensures Readable(row) && Named(row)
  {
  }

  lemma {:induction false} PlacedRows(rows: seq<Row>, place: Row -> Option<Placement>, ps: seq<Placement>)
    requires |ps| == |rows| && forall n :: 0 <= n < |rows| ==> place(rows[n]) == Some(ps[n])
    ensures Placements(rows, place) == Some(ps)
  {
    if rows != [] {
      PlacedRows(rows[..|rows| - 1], place, ps[..|ps| - 1]);
      assert ps == ps[..|ps| - 1] + [ps[|ps| - 1]];
    }
  }

  /** Rows placed one by one as a rotation make a complete design. */
  lemma RotatedRowsAreComplete(rows: seq<Row>, place: Row -> Option<Placement>, cases: seq<Case>, m: nat, c: Controls)
    requires m > 0 && rows != [] && |rows| == m * |cases| && Unique(cases) && ControlsValid(c)
    requires forall i :: 0 <= i < |cases| ==> CaseValid(cases[i])
    requires forall n :: 0 <= n < |rows| ==> Bears(rows[n], c) && CaseOf(n, m) < |cases|
    requires forall n :: 0 <= n < |rows| ==>
      place(rows[n]) == Some(Rotates(cases[CaseOf(n, m)], CaseOf(n, m), SlotOf(n, m), m, c.seed))
    ensures DesignComplete(rows, place, m)
  {
    hide CaseOf, SlotOf, Rotates;
    SharedMetadata(rows, c);
    hide MetadataOk;
    var ps := seq(|rows|, n requires 0 <= n < |rows| =>
      Rotates(cases[CaseOf(n, m)], CaseOf(n, m), SlotOf(n, m), m, c.seed));
    PlacedRows(rows, place, ps);
    RotationIsComplete(ps, cases, m, c.seed);
    hide Complete, Unique, Rotation;
    assert Bears(rows[0], c);
  }

  lemma RemainderOfSum(a: nat, k: nat)
    ensures (a % 4 + k) % 4 == (a + k) % 4
  {
  }

  /** A row for an arm is placed where the arm's number says. */
  lemma InArmPlaced(row: Row, c: Case, i: nat, k: nat, arm: Arm)
    requires row.caseId == Is(c.id) && row.caseHash == Is(c.hash)
    requires row.oracle == Is(c.oracle) && row.caseIndex == Is(i as int)
    requires row.armIndex == Is(k as int) && row.surface == Is(arm.surface) && row.downstream == Is(arm.downstream)
    ensures PlaceArm(row) == Some(Placement(c.id, c.hash, c.oracle, i, k, ArmNumber(arm.surface, arm.downstream)))
  {
    hide ArmNumber;
  }

  lemma ArmRowPlaced(cases: seq<Case>, c: Controls, answers: (nat, nat) -> Answer, i: nat, k: nat)
    requires i < |cases| && k < 4 && CaseValid(cases[i])
    ensures var row := ArmRow(cases, c, answers, i, k);
      Bears(row, c) && Labeled(row) && row.surface.Is? && row.downstream.Is?
        && PlaceArm(row) == Some(Rotates(cases[i], i, k, 4, c.seed))
  {
    var row, arm := ArmRow(cases, c, answers, i, k), Rotated((c.seed + i) % 4)[k];
    RotatedArm((c.seed + i) % 4, k);
    RemainderOfSum(c.seed + i, k);
    hide Rotated, ArmNumber, Supports, PlaceArm;
    BaseRowBears(cases[i], i, c, answers(i, k));
    InArmPlaced(row, cases[i], i, k, arm);
    hide ARMS;
  }

  /** Whatever the arms answer, a finished experiment is judged a complete four-arm design. */
  lemma ExperimentsAreComplete(rows: seq<Row>, cases: seq<Case>, c: Controls, answers: (nat, nat) -> Answer)
    requires cases != [] && Unique(cases) && ControlsValid(c) && forall i :: 0 <= i < |cases| ==> CaseValid(cases[i])
    requires |rows| == 4 * |cases| && forall n :: 0 <= n < |rows| ==> rows[n] == ArmRow(cases, c, answers, n / 4, n % 4)
    ensures Judge(rows) == Ok(FourArm(true))
  {
    forall n | 0 <= n < |rows|
      ensures Bears(rows[n], c) && Readable(rows[n]) && Named(rows[n]) && Labeled(rows[n])
      ensures rows[n].surface.Is? && rows[n].downstream.Is? && CaseOf(n, 4) < |cases|
      ensures PlaceArm(rows[n]) == Some(Rotates(cases[CaseOf(n, 4)], CaseOf(n, 4), SlotOf(n, 4), 4, c.seed))
    {
      ArmRowPlaced(cases, c, answers, n / 4, n % 4);
      ReadableRow(rows[n], c);
    }
    hide *;
    RotatedRowsAreComplete(rows, PlaceArm, cases, 4, c);
    FourArmJudgement(rows);
  }

  lemma FourArmJudgement(rows: seq<Row>)
    requires rows != [] && DesignComplete(rows, PlaceArm, 4)
    requires forall n :: 0 <= n < |rows| ==>
      Readable(rows[n]) && Named(rows[n]) && Labeled(rows[n]) && rows[n].surface.Is? && rows[n].downstream.Is?
    ensures Judge(rows) == Ok(FourArm(true))
  {
    hide DesignComplete, Readable, Named, Labeled, PlaceArm;
    assert Labeled(rows[0]);
  }

  lemma ConditionRowPlaced(cases: seq<Case>, c: Controls, f: Feature, answers: (nat, nat) -> Answer, i: nat, k: nat)
    requires i < |cases| && k < 2 && CaseValid(cases[i])
    ensures var row := ConditionRow(cases, c, f, answers, i, k);
      Bears(row, c) && !Labeled(row) && Conditioned(row) && row.feature == Is(f) && row.enabled.Is?
      && PlaceCondition(row) == Some(Rotates(cases[i], i, k, 2, c.seed))
  {
    BaseRowBears(cases[i], i, c, answers(i, k));
  }

  /** Whatever the runs answer, a finished ablation is judged a complete ablation. */
  lemma AblationsAreComplete(rows: seq<Row>, cases: seq<Case>, c: Controls, f: Feature, answers: (nat, nat) -> Answer)
    requires cases != [] && Unique(cases) && ControlsValid(c) && forall i :: 0 <= i < |cases| ==> CaseValid(cases[i])
    requires |rows| == 2 * |cases| && forall n :: 0 <= n < |rows| ==>
               rows[n] == ConditionRow(cases, c, f, answers, n / 2, n % 2)
    ensures Judge(rows) == Ok(Ablation(true))
  {
    forall n | 0 <= n < |rows|
      ensures Bears(rows[n], c) && Readable(rows[n]) && Named(rows[n]) && !Labeled(rows[n]) && Conditioned(rows[n])
      ensures rows[n].feature == Is(f) && rows[n].enabled.Is? && CaseOf(n, 2) < |cases|
      ensures PlaceCondition(rows[n]) == Some(Rotates(cases[CaseOf(n, 2)], CaseOf(n, 2), SlotOf(n, 2), 2, c.seed))
    {
      ConditionRowPlaced(cases, c, f, answers, n / 2, n % 2);
      ReadableRow(rows[n], c);
    }
    hide *;
    RotatedRowsAreComplete(rows, PlaceCondition, cases, 2, c);
    AblationJudgement(rows, f);
  }

  lemma AblationJudgement(rows: seq<Row>, f: Feature)
    requires rows != [] && DesignComplete(rows, PlaceCondition, 2)
    requires forall n :: 0 <= n < |rows| ==>
      Readable(rows[n]) && Named(rows[n]) && !Labeled(rows[n]) && Conditioned(rows[n]) && rows[n].feature == Is(f)
        && rows[n].enabled.Is?
    ensures Judge(rows) == Ok(Ablation(true))
  {
    hide DesignComplete, Readable, Named, Labeled, Conditioned, PlaceCondition;
    assert Conditioned(rows[0]);
  }
}
