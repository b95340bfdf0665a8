/** Checking a design case by case, with the counters and sets of the summary. */
module DesignChecks {
  import opened Designs

  /** The rows of one case, in order. */
  function Filter(ps: seq<Placement>, c: string): seq<Placement> {
    if ps == [] then []
    else
      var rest, last := Filter(ps[..|ps| - 1], c), ps[|ps| - 1];
      if last.caseId == c then rest + [last] else rest
  }

  /** How many rows show a condition. */
  function Count(rows: seq<Placement>, arm: nat): nat {
    if rows == [] then 0 else Count(rows[..|rows| - 1], arm) + (if rows[|rows| - 1].arm == arm then 1 else 0)
  }

  lemma {:induction false} FilterMembers(ps: seq<Placement>, c: string)
    ensures forall p :: p in Filter(ps, c) <==> p in ps && p.caseId == c
  {
    if ps != [] {
      FilterMembers(ps[..|ps| - 1], c);
      assert ps == ps[..|ps| - 1] + [ps[|ps| - 1]];
    }
  }

  lemma CountOfAppended(rows: seq<Placement>, p: Placement, arm: nat)
    ensures Count(rows + [p], arm) == Count(rows, arm) + (if p.arm == arm then 1 else 0)
  {
    assert (rows + [p])[..|rows|] == rows;
  }

  /** No two rows of the case show the condition. */
  predicate AtMostOnce(ps: seq<Placement>, c: string, arm: nat) {
    forall i, j :: 0 <= i < j < |ps| ==> !(ps[i].caseId == c == ps[j].caseId && ps[i].arm == arm == ps[j].arm)
  }

  lemma {:induction false} CountTells(ps: seq<Placement>, c: string, arm: nat)
    ensures Count(Filter(ps, c), arm) > 0 <==> HasRow(ps, c, arm)
    ensures Count(Filter(ps, c), arm) <= 1 <==> AtMostOnce(ps, c, arm)
  {
    if ps != [] {
      var n := |ps| - 1;
      var rest, last := ps[..n], ps[n];
      CountTells(rest, c, arm);
      CountOfAppended(Filter(rest, c), last, arm);
      LastRow(ps, c, arm);
    }
  }

  /** What the last row adds. */
  lemma LastRow(ps: seq<Placement>, c: string, arm: nat)
    requires ps != []
    ensures var rest, last := ps[..|ps| - 1], ps[|ps| - 1];
      && (HasRow(ps, c, arm) <==> HasRow(rest, c, arm) || (last.caseId == c && last.arm == arm))
      && (AtMostOnce(ps, c, arm) <==>
          AtMostOnce(rest, c, arm) && !(last.caseId == c && last.arm == arm && HasRow(rest, c, arm)))
  {
    var n := |ps| - 1;
    var rest, last := ps[..n], ps[n];
    if last.caseId == c && last.arm == arm { assert ps[n].caseId == c; }
    if HasRow(rest, c, arm) {
      var j :| 0 <= j < |rest| && rest[j].caseId == c && rest[j].arm == arm;
      assert ps[j] == rest[j];
    }
    if HasRow(ps, c, arm) {
      var j :| 0 <= j < |ps| && ps[j].caseId == c && ps[j].arm == arm;
      assert j < n ==> rest[j] == ps[j];
    }
    if AtMostOnce(ps, c, arm) {
      forall i, j | 0 <= i < j < |rest|
        ensures !(rest[i].caseId == c == rest[j].caseId && rest[i].arm == arm == rest[j].arm)
      {
        assert rest[i] == ps[i] && rest[j] == ps[j];
      }
    }
  }

  // ---- Cases ----

  /** A row describes its case properly, and as the first row of that case does. */
  predicate RowOk(p: Placement, first: Placement) {
    && |p.caseHash| == 64 && p.oracle != [] && p.index >= 0
    && p.caseHash == first.caseHash && p.oracle == first.oracle && p.index == first.index
  }

  predicate ArmsOk(rows: seq<Placement>, m: nat) {
    forall arm :: 0 <= arm < m ==> Count(rows, arm) == 1
  }

  predicate RowsOk(rows: seq<Placement>, m: nat, seed: nat)
    requires m > 0 && rows != []
  {
    forall i :: 0 <= i < |rows| ==> RowOk(rows[i], rows[0]) && Positioned(rows[i], m, seed)
  }

  method CheckArms(rows: seq<Placement>, m: nat) returns (ok: bool)
    ensures ok <==> ArmsOk(rows, m)
  {
    ok := true;
    for arm := 0 to m
      invariant ok <==> ArmsOk(rows, arm)
    {
      var count := 0;
      for k := 0 to |rows|
        invariant count == Count(rows[..k], arm)
      {
        assert rows[..k + 1] == rows[..k] + [rows[k]];
        CountOfAppended(rows[..k], rows[k], arm);
        if rows[k].arm == arm { count := count + 1; }
      }
      assert rows[..|rows|] == rows;
      assert ArmsOk(rows, arm + 1) <==> ArmsOk(rows, arm) && Count(rows, arm) == 1;
      if count != 1 { ok := false; }
    }
  }

  method CheckRows(rows: seq<Placement>, m: nat, seed: nat) returns (ok: bool)
    requires m > 0 && rows != []
    ensures ok <==> RowsOk(rows, m, seed)
  {
    ok := true;
    for k := 0 to |rows|
      invariant ok <==> forall i :: 0 <= i < k ==> RowOk(rows[i], rows[0]) && Positioned(rows[i], m, seed)
    {
      if !RowOk(rows[k], rows[0]) || !Positioned(rows[k], m, seed) { ok := false; }
    }
  }

  /** The rows grouped by case. */
  ghost predicate Grouped(ps: seq<Placement>, byCase: map<string, seq<Placement>>) {
    && byCase.Keys == CaseIds(ps)
    && forall c :: c in byCase ==> byCase[c] == Filter(ps, c) && byCase[c] != []
  }

  method Group(ps: seq<Placement>) returns (byCase: map<string, seq<Placement>>)
    ensures Grouped(ps, byCase)
  {
    byCase := map[];
    for n := 0 to |ps|
      invariant Grouped(ps[..n], byCase)
    {
      var c := ps[n].caseId;
      NotThere(ps[..n], c);
      GroupStep(ps[..n], ps[n], byCase);
      assert ps[..n + 1] == ps[..n] + [ps[n]];
      byCase := byCase[c := (if c in byCase then byCase[c] else []) + [ps[n]]];
    }
    assert ps[..|ps|] == ps;
  }

  lemma NotThere(ps: seq<Placement>, c: string)
    ensures c !in CaseIds(ps) ==> Filter(ps, c) == []
  {
    FilterMembers(ps, c);
    if Filter(ps, c) != [] {
      var p := Filter(ps, c)[0];
      assert p in ps;
      var i :| 0 <= i < |ps| && ps[i] == p;
      assert ps[i].caseId == c;
    }
  }

  lemma GroupStep(ps: seq<Placement>, p: Placement, byCase: map<string, seq<Placement>>)
    requires Grouped(ps, byCase) && (p.caseId !in CaseIds(ps) ==> Filter(ps, p.caseId) == [])
    ensures Grouped(ps + [p], byCase[p.caseId := (if p.caseId in byCase then byCase[p.caseId] else []) + [p]])
  {
    var more := ps + [p];
    assert more[..|ps|] == ps && more[|ps|] == p;
    assert CaseIds(more) == CaseIds(ps) + {p.caseId} by {
      forall i | 0 <= i < |ps| ensures more[i] == ps[i] { }
      assert more[|ps|].caseId in CaseIds(more);
      forall c | c in CaseIds(ps) ensures c in CaseIds(more) {
        var i :| 0 <= i < |ps| && ps[i].caseId == c;
        assert more[i].caseId == c;
      }
    }
  }

  predicate CaseOk(byCase: map<string, seq<Placement>>, c: string, m: nat, seed: nat)
    requires m > 0 && c in byCase && byCase[c] != []
  {
    ArmsOk(byCase[c], m) && RowsOk(byCase[c], m, seed)
  }

  /** No index belongs to two cases of this set. */
  predicate IndicesDistinct(byCase: map<string, seq<Placement>>, cases: set<string>)
    requires forall c :: c in cases ==> c in byCase && byCase[c] != []
  {
    forall c, d :: c in cases && d in cases && byCase[c][0].index == byCase[d][0].index ==> c == d
  }

  predicate AllOk(byCase: map<string, seq<Placement>>, cases: set<string>, m: nat, seed: nat)
    requires m > 0 && forall c :: c in cases ==> c in byCase && byCase[c] != []
  {
    forall c :: c in cases ==> CaseOk(byCase, c, m, seed)
  }

  function Indices(byCase: map<string, seq<Placement>>, cases: set<string>): set<int>
    requires forall c :: c in cases ==> c in byCase && byCase[c] != []
  {
    set c | c in cases :: byCase[c][0].index
  }

  function FirstInts(n: nat): (ints: set<int>)
    ensures (forall k :: k in ints <==> 0 <= k < n) && |ints| == n
  {
    if n == 0 then {} else FirstInts(n - 1) + {n - 1}
  }

  /** What is known after some cases: the indices seen, and whether nothing is wrong with these cases. */
  predicate Seen(byCase: map<string, seq<Placement>>, cases: set<string>, m: nat, seed: nat, indices: set<int>,
                 ok: bool)
    requires m > 0 && forall c :: c in cases ==> c in byCase && byCase[c] != []
  {
    indices == Indices(byCase, cases) && (ok <==> AllOk(byCase, cases, m, seed) && IndicesDistinct(byCase, cases))
  }

  lemma SeenMore(byCase: map<string, seq<Placement>>, cases: set<string>, c: string, m: nat, seed: nat,
                 indices: set<int>, ok: bool)
    requires m > 0 && (forall d :: d in cases + {c} ==> d in byCase && byCase[d] != []) && c !in cases
    requires Seen(byCase, cases, m, seed, indices, ok)
    ensures Seen(byCase, cases + {c}, m, seed, indices + {byCase[c][0].index},
                 ok && CaseOk(byCase, c, m, seed) && byCase[c][0].index !in indices)
  {
    OneMoreCase(byCase, cases, c, m, seed);
    hide Indices, AllOk, IndicesDistinct, ArmsOk, RowsOk;
  }

  method CheckCase(byCase: map<string, seq<Placement>>, c: string, m: nat, seed: nat) returns (ok: bool)
    requires m > 0 && c in byCase && byCase[c] != []
    ensures ok <==> CaseOk(byCase, c, m, seed)
  {
    var arms := CheckArms(byCase[c], m);
    var rows := CheckRows(byCase[c], m, seed);
    ok := arms && rows;
  }

  /** Walk over the cases, keeping the set of indices seen. */
  method CheckDesign(ps: seq<Placement>, m: nat, seed: nat) returns (complete: bool)
    requires m > 0
    ensures complete <==> Complete(ps, m, seed)
  {
    var byCase := Group(ps);
    complete := true;
    var indices: set<int> := {};
    var left := byCase.Keys;
    assert Seen(byCase, {}, m, seed, {}, true);
    assert byCase.Keys - left == {};
    while left != {}
      invariant left <= byCase.Keys && forall c :: c in byCase ==> byCase[c] != []
      invariant Seen(byCase, byCase.Keys - left, m, seed, indices, complete)
      decreases left
    {
      hide Seen, CaseOk, Complete, Grouped;
      var c :| c in left;
      var ok := CheckCase(byCase, c, m, seed);
      SeenMore(byCase, byCase.Keys - left, c, m, seed, indices, complete);
      assert byCase.Keys - left + {c} == byCase.Keys - (left - {c});
      complete := complete && ok && byCase[c][0].index !in indices;
      indices := indices + {byCase[c][0].index};
      left := left - {c};
    }
    if indices != FirstInts(|byCase.Keys|) { complete := false; }
    assert byCase.Keys - left == byCase.Keys;
    CasesTellComplete(ps, byCase, m, seed);
    hide AllOk, IndicesDistinct, Indices, Complete;
  }

  lemma OneMoreCase(byCase: map<string, seq<Placement>>, cases: set<string>, c: string, m: nat, seed: nat)
    requires m > 0 && (forall d :: d in cases + {c} ==> d in byCase && byCase[d] != []) && c !in cases
    ensures Indices(byCase, cases + {c}) == Indices(byCase, cases) + {byCase[c][0].index}
    ensures AllOk(byCase, cases + {c}, m, seed) <==>
              AllOk(byCase, cases, m, seed) && ArmsOk(byCase[c], m) && RowsOk(byCase[c], m, seed)
    ensures IndicesDistinct(byCase, cases + {c}) <==>
              IndicesDistinct(byCase, cases) && byCase[c][0].index !in Indices(byCase, cases)
  {
    hide ArmsOk, RowsOk;
    forall k | k in Indices(byCase, cases) ensures k in Indices(byCase, cases + {c}) {
      var d :| d in cases && byCase[d][0].index == k;
      assert d in cases + {c};
    }
    assert c in cases + {c};
    if AllOk(byCase, cases + {c}, m, seed) {
      forall d | d in cases + {c} ensures CaseOk(byCase, d, m, seed) { }
    }
    forall d | d in cases
      ensures IndicesDistinct(byCase, cases + {c}) ==> byCase[d][0].index != byCase[c][0].index
    {
      assert d in cases + {c};
    }
  }

  // ---- From cases to the whole design ----

  lemma InCase(ps: seq<Placement>, byCase: map<string, seq<Placement>>, i: nat)
    requires Grouped(ps, byCase) && i < |ps|
    ensures ps[i].caseId in byCase && ps[i] in byCase[ps[i].caseId]
  {
    FilterMembers(ps, ps[i].caseId);
    assert ps[i].caseId in CaseIds(ps);
  }

  lemma FirstInCase(ps: seq<Placement>, byCase: map<string, seq<Placement>>, c: string) returns (i: nat)
    requires Grouped(ps, byCase) && c in byCase
    ensures i < |ps| && ps[i] == byCase[c][0] && ps[i].caseId == c
  {
    FilterMembers(ps, c);
    assert byCase[c][0] in Filter(ps, c);
    i :| 0 <= i < |ps| && ps[i] == byCase[c][0];
  }

  /** Rows that agree case by case, at their positions, agree in the whole list. */
  lemma RowsTell(ps: seq<Placement>, byCase: map<string, seq<Placement>>, m: nat, seed: nat)
    requires m > 0 && Grouped(ps, byCase)
    ensures (forall c :: c in byCase ==> RowsOk(byCase[c], m, seed)) && IndicesDistinct(byCase, byCase.Keys)
       <==> CasesAgree(ps) && forall i :: 0 <= i < |ps| ==> Positioned(ps[i], m, seed)
  {
    if (forall c :: c in byCase ==> RowsOk(byCase[c], m, seed)) && IndicesDistinct(byCase, byCase.Keys) {
      forall i | 0 <= i < |ps|
        ensures ps[i].caseId in byCase && RowOk(ps[i], byCase[ps[i].caseId][0]) && Positioned(ps[i], m, seed)
      {
        InCase(ps, byCase, i);
        var rows := byCase[ps[i].caseId];
        var k :| 0 <= k < |rows| && rows[k] == ps[i];
        assert RowsOk(rows, m, seed);
      }
    }
    if CasesAgree(ps) && forall i :: 0 <= i < |ps| ==> Positioned(ps[i], m, seed) {
      forall c | c in byCase ensures RowsOk(byCase[c], m, seed) {
        RowsOfCase(ps, byCase, c, m, seed);
      }
      forall c, d | c in byCase && d in byCase && byCase[c][0].index == byCase[d][0].index ensures c == d {
        var i := FirstInCase(ps, byCase, c);
        var j := FirstInCase(ps, byCase, d);
      }
    }
  }

  lemma RowsOfCase(ps: seq<Placement>, byCase: map<string, seq<Placement>>, c: string, m: nat, seed: nat)
    requires m > 0 && Grouped(ps, byCase) && c in byCase
    requires CasesAgree(ps) && forall i :: 0 <= i < |ps| ==> Positioned(ps[i], m, seed)
    ensures RowsOk(byCase[c], m, seed)
  {
    var first := FirstInCase(ps, byCase, c);
    FilterMembers(ps, c);
    forall k | 0 <= k < |byCase[c]| ensures RowOk(byCase[c][k], byCase[c][0]) && Positioned(byCase[c][k], m, seed) {
      assert byCase[c][k] in Filter(ps, c);
      var i :| 0 <= i < |ps| && ps[i] == byCase[c][k];
      assert ps[i].caseId == ps[first].caseId;
    }
  }

  /** Counting each condition once in each case is the same as finding it there, and not twice. */
  lemma ArmsTell(ps: seq<Placement>, byCase: map<string, seq<Placement>>, m: nat)
    requires Grouped(ps, byCase) && forall i :: 0 <= i < |ps| ==> ps[i].arm < m
    ensures (forall c :: c in byCase ==> ArmsOk(byCase[c], m)) <==> EachOnce(ps, m)
  {
    forall c, arm: nat | c in byCase && arm < m
      ensures Count(byCase[c], arm) == 1 <==> HasRow(ps, c, arm) && AtMostOnce(ps, c, arm)
    {
      CountTells(ps, c, arm);
    }
    if forall c :: c in byCase ==> ArmsOk(byCase[c], m) {
      forall i, j | 0 <= i < j < |ps| ensures ps[i].caseId != ps[j].caseId || ps[i].arm != ps[j].arm {
        InCase(ps, byCase, i);
        assert ArmsOk(byCase[ps[i].caseId], m) && Count(byCase[ps[i].caseId], ps[i].arm) == 1;
      }
      forall i, l | 0 <= i < |ps| && 0 <= l < m ensures HasRow(ps, ps[i].caseId, l) {
        InCase(ps, byCase, i);
        assert ArmsOk(byCase[ps[i].caseId], m) && Count(byCase[ps[i].caseId], l) == 1;
      }
    }
    if EachOnce(ps, m) {
      forall c | c in byCase ensures ArmsOk(byCase[c], m) {
        var i := FirstInCase(ps, byCase, c);
        forall arm | 0 <= arm < m ensures Count(byCase[c], arm) == 1 {
          assert HasRow(ps, ps[i].caseId, arm);
        }
      }
    }
  }

  lemma IndexTells(ps: seq<Placement>, byCase: map<string, seq<Placement>>, k: int)
    requires Grouped(ps, byCase) && CasesAgree(ps)
    ensures k in Indices(byCase, byCase.Keys) <==> HasIndex(ps, k)
  {
    if k in Indices(byCase, byCase.Keys) {
      var c :| c in byCase && byCase[c][0].index == k;
      var i := FirstInCase(ps, byCase, c);
    }
    if HasIndex(ps, k) {
      var i :| 0 <= i < |ps| && ps[i].index == k;
      InCase(ps, byCase, i);
      var j := FirstInCase(ps, byCase, ps[i].caseId);
      assert ps[j].index == k;
    }
  }

  lemma IndicesTell(ps: seq<Placement>, byCase: map<string, seq<Placement>>)
    requires Grouped(ps, byCase) && CasesAgree(ps)
    ensures Indices(byCase, byCase.Keys) == FirstInts(|byCase.Keys|) <==> Contiguous(ps)
  {
    forall k: int ensures k in Indices(byCase, byCase.Keys) <==> HasIndex(ps, k) { IndexTells(ps, byCase, k); }
    if Indices(byCase, byCase.Keys) == FirstInts(|byCase.Keys|) {
      forall i | 0 <= i < |ps| ensures ps[i].index < |CaseIds(ps)| { assert HasIndex(ps, ps[i].index); }
      forall k | 0 <= k < |CaseIds(ps)| ensures HasIndex(ps, k) { assert k in FirstInts(|byCase.Keys|); }
    }
    if Contiguous(ps) {
      forall k | k in Indices(byCase, byCase.Keys) ensures k in FirstInts(|byCase.Keys|) { }
      forall k | k in FirstInts(|byCase.Keys|) ensures k in Indices(byCase, byCase.Keys) { assert HasIndex(ps, k); }
    }
  }

  lemma CasesTellComplete(ps: seq<Placement>, byCase: map<string, seq<Placement>>, m: nat, seed: nat)
    requires m > 0 && Grouped(ps, byCase)
    ensures AllOk(byCase, byCase.Keys, m, seed) && IndicesDistinct(byCase, byCase.Keys)
            && Indices(byCase, byCase.Keys) == FirstInts(|byCase.Keys|)
       <==> Complete(ps, m, seed)
  {
    RowsTell(ps, byCase, m, seed);
    if forall i :: 0 <= i < |ps| ==> Positioned(ps[i], m, seed) {
      ArmsTell(ps, byCase, m);
    }
    if CasesAgree(ps) { IndicesTell(ps, byCase); }
    hide ArmsOk, RowsOk, IndicesDistinct, Indices, CasesAgree, EachOnce, Contiguous, Grouped, FirstInts, Positioned;
    assert AllOk(byCase, byCase.Keys, m, seed) <==>
      (forall c :: c in byCase ==> ArmsOk(byCase[c], m))
        && (forall c :: c in byCase ==> RowsOk(byCase[c], m, seed)) by {
      if AllOk(byCase, byCase.Keys, m, seed) {
        forall c | c in byCase ensures ArmsOk(byCase[c], m) && RowsOk(byCase[c], m, seed) {
          assert CaseOk(byCase, c, m, seed);
        }
      }
    }
  }
}
