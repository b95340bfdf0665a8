/** What the validator judges complete is a rotated full factorial, for arms and for ablations. */
module Factorials {
  import opened Wrappers
  import opened Designs
  import opened DesignChecks
  import opened Evaluation
  import opened Summaries

  // ---- How many rows a complete design has ----

  lemma {:induction false} DistinctNumbers(ps: seq<Placement>, number: Placement -> int, n: nat)
    requires n <= |ps| && forall i, j :: 0 <= i < j < |ps| ==> number(ps[i]) != number(ps[j])
    ensures |set r | 0 <= r < n :: number(ps[r])| == n
  {
    if n > 0 {
      DistinctNumbers(ps, number, n - 1);
      var before := set r | 0 <= r < n - 1 :: number(ps[r]);
      assert (set r | 0 <= r < n :: number(ps[r])) == before + {number(ps[n - 1])};
      assert number(ps[n - 1]) !in before;
    }
  }

  /** The place of a row in the grid of cases and positions. */
  function PlaceNumber(p: Placement, m: nat): nat {
    if p.index >= 0 && p.position >= 0 then RowNumber(p.index, p.position, m) else 0
  }

  lemma InGrid(ps: seq<Placement>, m: nat, seed: nat, r: nat)
    requires m > 0 && Complete(ps, m, seed) && r < |ps|
    ensures 0 <= ps[r].index < |CaseIds(ps)| && 0 <= ps[r].position < m
  {
    assert Positioned(ps[r], m, seed);
  }

  lemma PlacesDiffer(ps: seq<Placement>, m: nat, seed: nat, q: nat, r: nat)
    requires m > 0 && Complete(ps, m, seed) && q < |ps| && r < |ps| && PlaceNumber(ps[q], m) == PlaceNumber(ps[r], m)
    ensures q == r
  {
    InGrid(ps, m, seed, q);
    InGrid(ps, m, seed, r);
    Renumbered(ps[q].index, ps[q].position, m, |CaseIds(ps)|);
    Renumbered(ps[r].index, ps[r].position, m, |CaseIds(ps)|);
    CompleteIsFullFactorial(ps, m, seed, ps[r].index, ps[r].position);
    hide Complete, RowNumber, CaseOf, SlotOf;
    assert IsAt(ps, q, ps[r].index, ps[r].position) && IsAt(ps, r, ps[r].index, ps[r].position);
  }

  lemma GridInRange(x: nat, m: nat, n: nat)
    requires m > 0 && x < m * n
    ensures CaseOf(x, m) < n && SlotOf(x, m) < m
  {
    assert x == (x / m) * m + x % m;
    var q := x / m;
    if q >= n {
      assert q * m >= n * m;
    }
  }

  lemma NumberInRange(ps: seq<Placement>, m: nat, seed: nat, r: nat)
    requires m > 0 && Complete(ps, m, seed) && r < |ps|
    ensures PlaceNumber(ps[r], m) < m * |CaseIds(ps)|
  {
    InGrid(ps, m, seed, r);
    Renumbered(ps[r].index, ps[r].position, m, |CaseIds(ps)|);
  }

  lemma NumberReached(ps: seq<Placement>, m: nat, seed: nat, x: nat)
    requires m > 0 && Complete(ps, m, seed) && x < m * |CaseIds(ps)|
    ensures exists r :: 0 <= r < |ps| && PlaceNumber(ps[r], m) == x
  {
    Numbered(x, m);
    GridInRange(x, m, |CaseIds(ps)|);
    CompleteIsFullFactorial(ps, m, seed, CaseOf(x, m), SlotOf(x, m));
    hide Complete, CaseIds, RowNumber, CaseOf, SlotOf;
    var r :| IsAt(ps, r, CaseOf(x, m), SlotOf(x, m));
    assert PlaceNumber(ps[r], m) == x;
  }

  /** A complete design has one row for each case and position, and no other. */
  lemma CompleteHasAllRows(ps: seq<Placement>, m: nat, seed: nat)
    requires m > 0 && Complete(ps, m, seed)
    ensures |ps| == m * |CaseIds(ps)|
  {
    hide Complete, PlaceNumber, CaseIds;
    var all := m * |CaseIds(ps)|;
    var number: Placement -> int := p => PlaceNumber(p, m);
    var numbers := set r | 0 <= r < |ps| :: number(ps[r]);
    forall i, j | 0 <= i < j < |ps| ensures number(ps[i]) != number(ps[j]) {
      if number(ps[i]) == number(ps[j]) { PlacesDiffer(ps, m, seed, i, j); }
    }
    DistinctNumbers(ps, number, |ps|);
    forall r | 0 <= r < |ps| ensures 0 <= number(ps[r]) < all { NumberInRange(ps, m, seed, r); }
    forall x | 0 <= x < all ensures x in numbers {
      NumberReached(ps, m, seed, x);
      var r :| 0 <= r < |ps| && PlaceNumber(ps[r], m) == x;
      assert number(ps[r]) == x;
    }
    assert numbers == FirstInts(all);
  }

  // ---- Judged rows as placements ----

  /** The number of different cases the rows name. */
  function CaseCount(rows: seq<Row>): nat {
    |set r | 0 <= r < |rows| && rows[r].caseId.Is? :: rows[r].caseId.value|
  }

  /** What a placement takes over from its row. */
  predicate PlacedFrom(row: Row, p: Placement, position: Cell<int>) {
    row.caseId == Is(p.caseId) && row.caseIndex == Is(p.index) && position == Is(p.position)
  }

  lemma SameCases(rows: seq<Row>, ps: seq<Placement>)
    requires |ps| == |rows| && forall r :: 0 <= r < |rows| ==> rows[r].caseId == Is(ps[r].caseId)
    ensures |CaseIds(ps)| == CaseCount(rows)
  {
    assert CaseIds(ps) == (set r | 0 <= r < |rows| && rows[r].caseId.Is? :: rows[r].caseId.value);
  }

  /** The row claims one of the places of the grid. */
  predicate Within(row: Row, position: Cell<int>, cases: nat, m: nat) {
    row.caseIndex.Is? && 0 <= row.caseIndex.value < cases && position.Is? && 0 <= position.value < m
  }

  // ---- Arms ----

  predicate InArm(row: Row, arm: Arm) {
    row.surface == Is(arm.surface) && row.downstream == Is(arm.downstream)
  }

  /** Row `r` claims to be the one of case `i` at position `k`. */
  predicate ArmAt(rows: seq<Row>, r: int, i: int, k: int) {
    0 <= r < |rows| && rows[r].caseIndex == Is(i) && rows[r].armIndex == Is(k)
  }

  lemma ArmPlacement(row: Row)
    requires PlaceArm(row).Some?
    ensures var p := PlaceArm(row).value;
      PlacedFrom(row, p, row.armIndex) && p.arm < 4 && InArm(row, ARMS[p.arm])
      && forall arm: Arm :: InArm(row, arm) ==> arm == ARMS[p.arm]
  {
  }

  lemma JudgedArms(rows: seq<Row>) returns (ps: seq<Placement>, seed: nat)
    requires Judge(rows) == Ok(FourArm(true))
    ensures rows != [] && rows[0].seed == Is(seed) && Complete(ps, 4, seed)
    ensures |ps| == |rows| && |CaseIds(ps)| == CaseCount(rows)
    ensures forall r :: 0 <= r < |rows| ==> PlaceArm(rows[r]) == Some(ps[r])
  {
    hide Complete, PlaceArm, CaseCount, CaseIds;
    ps, seed := Placements(rows, PlaceArm).value, rows[0].seed.value;
    forall r | 0 <= r < |rows| ensures rows[r].caseId == Is(ps[r].caseId) { ArmPlacement(rows[r]); }
    SameCases(rows, ps);
  }

  lemma ArmAtIff(rows: seq<Row>, ps: seq<Placement>, r: int, i: int, k: int)
    requires |ps| == |rows| && forall r :: 0 <= r < |rows| ==> PlaceArm(rows[r]) == Some(ps[r])
    ensures IsAt(ps, r, i, k) <==> ArmAt(rows, r, i, k)
  {
    if 0 <= r < |rows| {
      ArmPlacement(rows[r]);
    }
  }

  /**
   Rows judged complete are a full factorial in rotated order: for every case index and every position exactly
   one row claims that place, its arm is the one the rotation puts there, and there are no other rows.
   */
  lemma JudgedCompleteIsFactorial(rows: seq<Row>, i: nat, k: nat) returns (r: int)
    requires Judge(rows) == Ok(FourArm(true)) && i < CaseCount(rows) && k < 4
    ensures rows != [] && rows[0].seed.Is? && rows[0].seed.value >= 0 && |rows| == 4 * CaseCount(rows)
    ensures ArmAt(rows, r, i, k) && InArm(rows[r], ARMS[(rows[0].seed.value + i + k) % 4])
    ensures forall q :: ArmAt(rows, q, i, k) ==> q == r
    ensures forall q :: 0 <= q < |rows| ==> Within(rows[q], rows[q].armIndex, CaseCount(rows), 4)
  {
    hide Judge;
    var ps, seed := JudgedArms(rows);
    CompleteHasAllRows(ps, 4, seed);
    hide CaseCount, PlaceArm, InArm;
    forall q | 0 <= q < |rows| ensures Within(rows[q], rows[q].armIndex, CaseCount(rows), 4) {
      InGrid(ps, 4, seed, q);
      ArmPlacement(rows[q]);
    }
    CompleteIsFullFactorial(ps, 4, seed, i, k);
    hide Complete;
    forall q ensures IsAt(ps, q, i, k) <==> ArmAt(rows, q, i, k) { ArmAtIff(rows, ps, q, i, k); }
    r :| IsAt(ps, r, i, k);
    ArmPlacement(rows[r]);
  }

  /** Balance: among any four consecutive cases each arm stands at each position once. */
  lemma JudgedCompleteIsBalanced(rows: seq<Row>, first: nat, k: nat, arm: Arm) returns (r: int, i: nat)
    requires Judge(rows) == Ok(FourArm(true)) && first + 4 <= CaseCount(rows) && k < 4
    ensures first <= i < first + 4 && ArmAt(rows, r, i, k) && InArm(rows[r], arm)
    ensures forall q, j :: first <= j < first + 4 && ArmAt(rows, q, j, k) && InArm(rows[q], arm) ==> q == r && j == i
  {
    hide Judge;
    var ps, seed := JudgedArms(rows);
    hide Complete, CaseCount, PlaceArm;
    var n := NumberOfArm(arm);
    ConsecutiveCasesCover(ps, 4, seed, first, k, n);
    var r0, i0 :| first <= i0 < first + 4 && Shows(ps, r0, i0, k, n);
    r, i := r0, i0;
    ArmPlacement(rows[r]);
    forall q, j | first <= j < first + 4 && ArmAt(rows, q, j, k) && InArm(rows[q], arm) ensures q == r && j == i {
      ArmAtIff(rows, ps, q, j, k);
      ArmPlacement(rows[q]);
      OneNumber(ps[q].arm, n, arm);
      ConsecutiveCasesDoNotRepeat(ps, 4, seed, first, k, n, r, i, q, j);
    }
  }

  lemma NumberOfArm(arm: Arm) returns (n: nat)
    ensures n < 4 && ARMS[n] == arm
  {
    n := ArmNumber(arm.surface, arm.downstream);
  }

  lemma OneNumber(a: nat, b: nat, arm: Arm)
    requires a < 4 && b < 4 && ARMS[a] == arm && ARMS[b] == arm
    ensures a == b
  {
  }

  // ---- Ablations ----

  /** Row `r` claims to be the one of case `i` in run `k`, the feature off or on. */
  predicate RunAt(rows: seq<Row>, r: int, i: int, k: int) {
    0 <= r < |rows| && rows[r].caseIndex == Is(i) && rows[r].conditionIndex == Is(k)
  }

  lemma ConditionPlacement(row: Row)
    requires PlaceCondition(row).Some?
    ensures var p := PlaceCondition(row).value;
      PlacedFrom(row, p, row.conditionIndex) && p.arm < 2 && row.enabled == Is(p.arm == 1)
  {
  }

  lemma JudgedConditions(rows: seq<Row>) returns (ps: seq<Placement>, seed: nat)
    requires Judge(rows) == Ok(Ablation(true))
    ensures rows != [] && rows[0].seed == Is(seed) && Complete(ps, 2, seed)
    ensures |ps| == |rows| && |CaseIds(ps)| == CaseCount(rows)
    ensures forall r :: 0 <= r < |rows| ==> PlaceCondition(rows[r]) == Some(ps[r])
    ensures forall r :: 0 <= r < |rows| ==> rows[r].feature == rows[0].feature
  {
    hide Complete, PlaceCondition, CaseCount, CaseIds;
    ps, seed := Placements(rows, PlaceCondition).value, rows[0].seed.value;
    forall r | 0 <= r < |rows| ensures rows[r].caseId == Is(ps[r].caseId) { ConditionPlacement(rows[r]); }
    SameCases(rows, ps);
  }

  lemma RunAtIff(rows: seq<Row>, ps: seq<Placement>, r: int, i: int, k: int)
    requires |ps| == |rows| && forall r :: 0 <= r < |rows| ==> PlaceCondition(rows[r]) == Some(ps[r])
    ensures IsAt(ps, r, i, k) <==> RunAt(rows, r, i, k)
  {
    if 0 <= r < |rows| {
      ConditionPlacement(rows[r]);
    }
  }

  /**
   An ablation judged complete is about one feature, runs every case exactly once with it off and once with it
   on, first off or first on as the seed and the case say, and has no other rows.
   */
  lemma JudgedAblationIsFactorial(rows: seq<Row>, i: nat, k: nat) returns (r: int)
    requires Judge(rows) == Ok(Ablation(true)) && i < CaseCount(rows) && k < 2
    ensures rows != [] && rows[0].seed.Is? && rows[0].seed.value >= 0 && |rows| == 2 * CaseCount(rows)
    ensures RunAt(rows, r, i, k) && rows[r].enabled == Is((rows[0].seed.value + i + k) % 2 == 1)
    ensures forall q :: RunAt(rows, q, i, k) ==> q == r
    ensures forall q :: 0 <= q < |rows| ==>
      rows[q].feature == rows[0].feature && Within(rows[q], rows[q].conditionIndex, CaseCount(rows), 2)
  {
    hide Judge;
    var ps, seed := JudgedConditions(rows);
    CompleteHasAllRows(ps, 2, seed);
    hide CaseCount, PlaceCondition;
    forall q | 0 <= q < |rows| ensures Within(rows[q], rows[q].conditionIndex, CaseCount(rows), 2) {
      InGrid(ps, 2, seed, q);
      ConditionPlacement(rows[q]);
    }
    CompleteIsFullFactorial(ps, 2, seed, i, k);
    hide Complete;
    forall q ensures IsAt(ps, q, i, k) <==> RunAt(rows, q, i, k) { RunAtIff(rows, ps, q, i, k); }
    r :| IsAt(ps, r, i, k);
    ConditionPlacement(rows[r]);
  }

  /** Balance: of any two consecutive cases one runs with the feature off first, the other with it on first. */
  lemma JudgedAblationIsBalanced(rows: seq<Row>, first: nat, k: nat, enabled: bool) returns (r: int, i: nat)
    requires Judge(rows) == Ok(Ablation(true)) && first + 2 <= CaseCount(rows) && k < 2
    ensures first <= i < first + 2 && RunAt(rows, r, i, k) && rows[r].enabled == Is(enabled)
    ensures forall q, j :: first <= j < first + 2 && RunAt(rows, q, j, k) && rows[q].enabled == Is(enabled) ==>
              q == r && j == i
  {
    hide Judge;
    var ps, seed := JudgedConditions(rows);
    hide Complete, CaseCount, PlaceCondition;
    var n := if enabled then 1 else 0;
    ConsecutiveCasesCover(ps, 2, seed, first, k, n);
    var r0, i0 :| first <= i0 < first + 2 && Shows(ps, r0, i0, k, n);
    r, i := r0, i0;
    ConditionPlacement(rows[r]);
    forall q, j | first <= j < first + 2 && RunAt(rows, q, j, k) && rows[q].enabled == Is(enabled)
      ensures q == r && j == i
    {
      RunAtIff(rows, ps, q, j, k);
      ConditionPlacement(rows[q]);
      ConsecutiveCasesDoNotRepeat(ps, 2, seed, first, k, n, r, i, q, j);
    }
  }
}
