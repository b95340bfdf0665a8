/**
 Counterbalanced designs. Every case is run under each of `m` conditions, in an order that is rotated
 from case to case. One encoding writes the rotation down, another recognises it by arithmetic.
 */
module Designs {
  /** One raw result as far as the design is concerned: which case, which condition, at which position. */
  datatype Placement = Placement(caseId: string, caseHash: string, oracle: seq<string>, index: int, position: int,
                                 arm: nat)

  function CaseIds(ps: seq<Placement>): set<string> {
    set i | 0 <= i < |ps| :: ps[i].caseId
  }

  /** Rows of one case agree about it, and rows of different cases do not share an index. */
  predicate CasesAgree(ps: seq<Placement>) {
    && (forall i :: 0 <= i < |ps| ==> |ps[i].caseHash| == 64 && ps[i].oracle != [] && ps[i].index >= 0)
    && (forall i, j :: 0 <= i < |ps| && 0 <= j < |ps| && ps[i].caseId == ps[j].caseId ==>
          ps[i].caseHash == ps[j].caseHash && ps[i].oracle == ps[j].oracle && ps[i].index == ps[j].index)
    && (forall i, j :: 0 <= i < |ps| && 0 <= j < |ps| && ps[i].index == ps[j].index ==> ps[i].caseId == ps[j].caseId)
  }

  predicate HasRow(ps: seq<Placement>, caseId: string, arm: nat) {
    exists j :: 0 <= j < |ps| && ps[j].caseId == caseId && ps[j].arm == arm
  }

  /** Every case has every condition exactly once. */
  predicate EachOnce(ps: seq<Placement>, m: nat) {
    && (forall i, j :: 0 <= i < j < |ps| ==> ps[i].caseId != ps[j].caseId || ps[i].arm != ps[j].arm)
    && (forall i, l :: 0 <= i < |ps| && 0 <= l < m ==> HasRow(ps, ps[i].caseId, l))
  }

  predicate HasIndex(ps: seq<Placement>, k: int) {
    exists i :: 0 <= i < |ps| && ps[i].index == k
  }

  /** The indices are 0 up to the number of cases. */
  predicate Contiguous(ps: seq<Placement>) {
    && (forall i :: 0 <= i < |ps| ==> ps[i].index < |CaseIds(ps)|)
    && (forall k :: 0 <= k < |CaseIds(ps)| ==> HasIndex(ps, k))
  }

  predicate Positioned(p: Placement, m: nat, seed: nat)
    requires m > 0
  {
    0 <= p.position < m && p.arm == (seed + p.index + p.position) % m
  }

  /** What the validator accepts as a complete design. */
  predicate Complete(ps: seq<Placement>, m: nat, seed: nat)
    requires m > 0
  {
    CasesAgree(ps) && EachOnce(ps, m) && Contiguous(ps) && forall i :: 0 <= i < |ps| ==> Positioned(ps[i], m, seed)
  }

  // ---- What completeness means ----

  /** Row `r` is the one of case `i` at position `k`. */
  predicate IsAt(ps: seq<Placement>, r: int, i: int, k: int) {
    0 <= r < |ps| && ps[r].index == i && ps[r].position == k
  }

  lemma SameResidue(a: int, j: nat, k: nat, m: nat)
    requires j < m && k < m && (a + j) % m == (a + k) % m
    ensures j == k
  {
    var x, y := (a + j) / m, (a + k) / m;
    assert a + j == x * m + (a + j) % m && a + k == y * m + (a + k) % m;
    assert j - k == (x - y) * m by { Distribute(x, y, m); }
    SmallMultiple(j - k, x - y, m);
  }

  lemma Distribute(x: int, y: int, m: int)
    ensures x * m - y * m == (x - y) * m
  {
  }

  lemma SmallMultiple(d: int, q: int, m: nat)
    requires d == q * m && -(m as int) < d < m
    ensures d == 0
  {
    assert q >= 1 ==> q * m >= m;
    assert q <= -1 ==> q * m <= -(m as int);
  }

  /**
   A complete design is a full factorial in rotated order: for every case index and every position there
   is exactly one row, and its condition is the one the rotation puts there.
   */
  lemma CompleteIsFullFactorial(ps: seq<Placement>, m: nat, seed: nat, i: nat, k: nat)
    requires m > 0 && Complete(ps, m, seed) && i < |CaseIds(ps)| && k < m
    ensures exists r :: IsAt(ps, r, i, k)
    ensures forall r :: IsAt(ps, r, i, k) ==> ps[r].arm == (seed + i + k) % m
    ensures forall r, q :: IsAt(ps, r, i, k) && IsAt(ps, q, i, k) ==> r == q
  {
    assert HasIndex(ps, i);
    var c :| 0 <= c < |ps| && ps[c].index == i;
    var arm := (seed + i + k) % m;
    assert HasRow(ps, ps[c].caseId, arm);
    var r :| 0 <= r < |ps| && ps[r].caseId == ps[c].caseId && ps[r].arm == arm;
    assert Positioned(ps[r], m, seed);
    SameResidue(seed + i, ps[r].position, k, m);
    assert IsAt(ps, r, i, k);
  }

  lemma ResidueReached(a: int, arm: nat, m: nat) returns (j: nat)
    requires arm < m
    ensures j < m && (a + j) % m == arm
  {
    var off := a % m;
    var q := a / m;
    assert a == q * m + off;
    j := if off <= arm then arm - off else arm + m - off;
    var whole := if off <= arm then q else q + 1;
    assert a + j == whole * m + arm by { if off > arm { assert (q + 1) * m == q * m + m; } }
    RemainderOf(whole, m, arm);
  }

  lemma RemainderOf(q: int, m: nat, r: nat)
    requires r < m
    ensures (q * m + r) % m == r
  {
    var x := q * m + r;
    assert x == (x / m) * m + x % m;
    assert r - x % m == (x / m - q) * m by { Distribute(x / m, q, m); }
    SmallMultiple(r - x % m, x / m - q, m);
  }

  /** Row `r` shows condition `arm` at position `k` of case `i`. */
  predicate Shows(ps: seq<Placement>, r: int, i: int, k: int, arm: nat) {
    IsAt(ps, r, i, k) && ps[r].arm == arm
  }

  /** Balance: among any `m` consecutive cases every condition stands at every position... */
  lemma ConsecutiveCasesCover(ps: seq<Placement>, m: nat, seed: nat, first: nat, k: nat, arm: nat)
    requires m > 0 && Complete(ps, m, seed) && first + m <= |CaseIds(ps)| && k < m && arm < m
    ensures exists r, i :: first <= i < first + m && Shows(ps, r, i, k, arm)
  {
    var d := ResidueReached(seed + first + k, arm, m);
    hide Complete;
    CompleteIsFullFactorial(ps, m, seed, first + d, k);
    var r :| IsAt(ps, r, first + d, k);
    assert seed + (first + d) + k == seed + first + k + d;
    assert Shows(ps, r, first + d, k, arm);
  }

  /** ...and stands there only once. */
  lemma ConsecutiveCasesDoNotRepeat(ps: seq<Placement>, m: nat, seed: nat, first: nat, k: nat, arm: nat, r: int, i: nat,
                                    q: int, j: nat)
    requires m > 0 && Complete(ps, m, seed) && first + m <= |CaseIds(ps)| && k < m
    requires first <= i < first + m && first <= j < first + m && Shows(ps, r, i, k, arm) && Shows(ps, q, j, k, arm)
    ensures i == j && r == q
  {
    hide Complete;
    CompleteIsFullFactorial(ps, m, seed, i, k);
    CompleteIsFullFactorial(ps, m, seed, j, k);
    assert seed + i + k == seed + first + k + (i - first) && seed + j + k == seed + first + k + (j - first);
    SameResidue(seed + first + k, i - first, j - first, m);
  }
}
