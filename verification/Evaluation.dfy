/** The experiment runners and the summary that re-derives, from raw rows alone, whether they form a complete design. */
module Evaluation {
  import opened Wrappers

  datatype Surface = NativeFunctionSchema | HttpSemanticOperation

  datatype Downstream = NativeHttp | McpAdapter

  datatype Arm = Arm(surface: Surface, downstream: Downstream)

  const ARMS := [Arm(NativeFunctionSchema, NativeHttp), Arm(NativeFunctionSchema, McpAdapter),
                 Arm(HttpSemanticOperation, NativeHttp), Arm(HttpSemanticOperation, McpAdapter)]

  datatype Feature = OnDemandCatalog | Classifier | Skills | ChildRuns

  datatype Outcome = Succeeded | Failed | Timeout | Blocked

  datatype Tier = Controlled | LiveProvider

  /** A value of a raw row, which may be absent or of a type nobody expects. */
  datatype Cell<T> = Missing | Odd | Is(value: T)

  /** A case; its hash stands for the 64 hexadecimal digits of its SHA-256. */
  datatype Case = Case(id: string, hash: string, oracle: seq<string>)

  datatype Controls = Controls(
    hash: string, model: string, settingsHash: string, capabilityRevision: string, policyRevision: string,
    fixturesHash: string, environmentHash: string, tier: Tier, seed: nat)

  datatype Answer = Answer(outcome: Outcome, evidence: seq<string>)

  datatype Row = Row(
    caseId: Cell<string>, caseHash: Cell<string>, oracle: Cell<seq<string>>, caseIndex: Cell<int>,
    armIndex: Cell<int>, conditionIndex: Cell<int>, seed: Cell<int>, controlsHash: Cell<string>,
    model: Cell<string>, settingsHash: Cell<string>, capabilityRevision: Cell<string>, policyRevision: Cell<string>,
    fixturesHash: Cell<string>, environmentHash: Cell<string>, tier: Cell<Tier>,
    surface: Cell<Surface>, downstream: Cell<Downstream>, feature: Cell<Feature>, enabled: Cell<bool>,
    outcome: Cell<Outcome>, evidence: Cell<seq<string>>, verified: Cell<bool>)

  // ---- Running ----

  predicate Hash(text: string) {
    |text| == 64
  }

  /** The hash that stands for an environment nobody has named. */
  predicate NoEnvironment(text: string) {
    Hash(text) && forall i :: 0 <= i < |text| ==> text[i] == '0'
  }

  /** What the constructors of the records demand. */
  predicate ControlsValid(c: Controls) {
    && Hash(c.hash) && Hash(c.settingsHash) && Hash(c.environmentHash)
    && c.model != "" && c.capabilityRevision != "" && c.policyRevision != "" && c.fixturesHash != ""
    && (c.tier.LiveProvider? ==> !NoEnvironment(c.environmentHash))
  }

  predicate CaseValid(c: Case) {
    c.id != "" && Hash(c.hash) && c.oracle != []
  }

  predicate Unique(cases: seq<Case>) {
    forall i, j :: 0 <= i < j < |cases| ==> cases[i].id != cases[j].id
  }

  predicate Supports(oracle: seq<string>, answer: Answer) {
    answer.outcome.Succeeded? && forall i :: 0 <= i < |oracle| ==> oracle[i] in answer.evidence
  }

  /** What both kinds of row record. */
  function BaseRow(c: Case, index: nat, controls: Controls, answer: Answer): Row {
    Row(Is(c.id), Is(c.hash), Is(c.oracle), Is(index), Missing, Missing, Is(controls.seed), Is(controls.hash),
        Is(controls.model), Is(controls.settingsHash), Is(controls.capabilityRevision), Is(controls.policyRevision),
        Is(controls.fixturesHash), Is(controls.environmentHash), Is(controls.tier),
        Missing, Missing, Missing, Missing, Is(answer.outcome), Is(answer.evidence), Is(Supports(c.oracle, answer)))
  }

  /** The four arms, the order rotated by the seed and the case. */
  function Rotated(offset: nat): (arms: seq<Arm>)
    requires offset < 4
    ensures |arms| == 4
  {
    ARMS[offset..] + ARMS[..offset]
  }

  function ArmRow(cases: seq<Case>, controls: Controls, answers: (nat, nat) -> Answer, i: nat, k: nat): Row
    requires i < |cases| && k < 4
  {
    var arm := Rotated((controls.seed + i) % 4)[k];
    BaseRow(cases[i], i, controls, answers(i, k)).(armIndex := Is(k), surface := Is(arm.surface),
                                                   downstream := Is(arm.downstream))
  }

  /** Whether the feature is on in the `k`-th run of case `i`. */
  function Enabled(seed: nat, i: nat, k: nat): bool
    requires k < 2
  {
    (if (seed + i) % 2 == 0 then [false, true] else [true, false])[k]
  }

  function ConditionRow(cases: seq<Case>, controls: Controls, feature: Feature, answers: (nat, nat) -> Answer, i: nat,
                        k: nat): Row
    requires i < |cases| && k < 2
  {
    BaseRow(cases[i], i, controls, answers(i, k))
      .(conditionIndex := Is(k), feature := Is(feature), enabled := Is(Enabled(controls.seed, i, k)))
  }

  /** Runs every case in all four arms under the same controls. `answers` is whatever the executor comes back with. */
  class ExperimentRunner {
    const answers: (nat, nat) -> Answer

    constructor (answers: (nat, nat) -> Answer)
      ensures this.answers == answers
    {
      this.answers := answers;
    }

    method Run(cases: seq<Case>, controls: Controls) returns (r: Result<seq<Row>>)
      ensures if cases == [] || !Unique(cases) then r == Err(InvalidArgument) else r.Ok?
      ensures r.Ok? ==> |r.value| == 4 * |cases|
      ensures r.Ok? ==> forall n :: 0 <= n < |r.value| ==> r.value[n] == ArmRow(cases, controls, answers, n / 4, n % 4)
    {
      if cases == [] || !Unique(cases) { return Err(InvalidArgument); }
      var records: seq<Row> := [];
      for index := 0 to |cases|
        invariant |records| == 4 * index
        invariant forall n :: 0 <= n < |records| ==> records[n] == ArmRow(cases, controls, answers, n / 4, n % 4)
      {
        var offset := (controls.seed + index) % |ARMS|;
        var ordered := ARMS[offset..] + ARMS[..offset];
        for position := 0 to |ordered|
          invariant |records| == 4 * index + position
          invariant forall n :: 0 <= n < |records| ==> records[n] == ArmRow(cases, controls, answers, n / 4, n % 4)
        {
          var arm := ordered[position];
          records := records + [BaseRow(cases[index], index, controls, answers(index, position))
            .(armIndex := Is(position), surface := Is(arm.surface), downstream := Is(arm.downstream))];
        }
      }
      r := Ok(records);
    }
  }

  /** Runs every case with a feature off and on. */
  class AblationRunner {
    const answers: (nat, nat) -> Answer

    constructor (answers: (nat, nat) -> Answer)
      ensures this.answers == answers
    {
      this.answers := answers;
    }

    method Run(cases: seq<Case>, controls: Controls, feature: Feature) returns (r: Result<seq<Row>>)
      ensures if cases == [] || !Unique(cases) then r == Err(InvalidArgument) else r.Ok?
      ensures r.Ok? ==> |r.value| == 2 * |cases|
      ensures r.Ok? ==> forall n :: 0 <= n < |r.value| ==>
                r.value[n] == ConditionRow(cases, controls, feature, answers, n / 2, n % 2)
    {
      if cases == [] || !Unique(cases) { return Err(InvalidArgument); }
      var records: seq<Row> := [];
      for index := 0 to |cases|
        invariant |records| == 2 * index
        invariant forall n :: 0 <= n < |records| ==>
                    records[n] == ConditionRow(cases, controls, feature, answers, n / 2, n % 2)
      {
        var order := if (controls.seed + index) % 2 == 0 then [false, true] else [true, false];
        for position := 0 to |order|
          invariant |records| == 2 * index + position
          invariant forall n :: 0 <= n < |records| ==>
                      records[n] == ConditionRow(cases, controls, feature, answers, n / 2, n % 2)
        {
          records := records + [BaseRow(cases[index], index, controls, answers(index, position))
            .(conditionIndex := Is(position), feature := Is(feature), enabled := Is(order[position]))];
        }
      }
      r := Ok(records);
    }
  }
}
