/**
 Spending over a tree of Runs. Every Run stays within its own limits, a child's limit is held back by
 its parent, and so the whole subtree stays within the limit of its root, except for what was given
 free again while the child could still spend it.
 */
module BudgetTrees {
  import opened Wrappers
  import opened Budgets
  import opened Records
  import opened Evolution
  import opened Kernel
  import opened KernelEvolution
  import Runs = RunTransactions

  // ---- What every reachable state satisfies ----

  ghost predicate BudgetOk(s: Store, r: Id)
    requires r in s.runs
  {
    && s.runs[r].budget.Sound()
    && (s.runs[r].parent.Some? ==>
          s.runs[r].parent.value in s.runs && Backs(s.runs[s.runs[r].parent.value].budget, r, s.runs[r].budget.limits))
  }

  ghost predicate BudgetsOk(s: Store) {
    forall r {:trigger BudgetOk(s, r)} :: r in s.runs ==> BudgetOk(s, r)
  }

  lemma BacksKept(b: Budget, b': Budget, child: Id, limits: Limits)
    requires Backs(b, child, limits) && BudgetEvolves(b, b')
    ensures Backs(b', child, limits)
  {
    forall d: Dimension | limits.At(d).Some? ensures exists i :: RowBacks(b', i, child, d, limits.At(d).value) {
      var i :| RowBacks(b, i, child, d, limits.At(d).value);
      assert RowEvolves(b.rows[i], b'.rows[i]);
      assert RowBacks(b', i, child, d, limits.At(d).value);
    }
  }

  lemma NewRunSound(s: Store, s': Store, r: Id)
    requires r in s'.runs && NewRun(s, s', r)
    ensures s'.runs[r].budget.Sound()
  {
    assert s'.runs[r].budget.Sound() by {
      forall d: Dimension ensures NOTHING_USED.At(d) == 0 {
        match d case _ =>
      }
    }
  }

  lemma RunBudgetStep(r: Run, r': Run)
    requires RunEvolves(r, r')
    ensures BudgetEvolves(r.budget, r'.budget) && r'.parent == r.parent
    ensures r'.budget.limits == r.budget.limits
    ensures r.budget.Sound() ==> r'.budget.Sound()
  {
  }

  lemma BudgetsStep(s: Store, s': Store)
    requires BudgetsOk(s) && RunsEvolve(s, s')
    ensures BudgetsOk(s')
  {
    hide RunEvolves, Budget.Sound, BudgetEvolves, Backs;
    forall r | r in s'.runs ensures BudgetOk(s', r) {
      if r in s.runs {
        assert BudgetOk(s, r);
        assert RunEvolves(s.runs[r], s'.runs[r]);
        RunBudgetStep(s.runs[r], s'.runs[r]);
        if s.runs[r].parent.Some? {
          var p := s.runs[r].parent.value;
          assert RunEvolves(s.runs[p], s'.runs[p]);
          RunBudgetStep(s.runs[p], s'.runs[p]);
          BacksKept(s.runs[p].budget, s'.runs[p].budget, r, s.runs[r].budget.limits);
        }
      } else {
        NewRunSound(s, s', r);
      }
    }
  }

  lemma {:induction false} BudgetsAlwaysOk(txs: seq<Tx>)
    ensures BudgetsOk(Execute(EMPTY_STORE, txs))
  {
    if txs != [] {
      hide Apply, BudgetsOk, Sound, ActionsEvolve, RunsEvolve, JobsEvolve;
      var before, tx := Execute(EMPTY_STORE, txs[..|txs| - 1]), txs[|txs| - 1];
      BudgetsAlwaysOk(txs[..|txs| - 1]);
      ReachableSound(txs[..|txs| - 1]);
      StepParts(before, tx);
      BudgetsStep(before, Apply(before, tx));
    }
  }

  /** Every Run, in every reachable state: what is used is what was settled, and used plus held back fits each limit. */
  lemma NoRunOverspends(txs: seq<Tx>, r: Id, d: Dimension)
    requires r in Execute(EMPTY_STORE, txs).runs
    ensures var b := Execute(EMPTY_STORE, txs).runs[r].budget;
      && b.used.At(d) == SumSpent(b.rows, d)
      && (b.limits.At(d).Some? ==> b.used.At(d) + SumHeld(b.rows, d) <= b.limits.At(d).value)
  {
    hide Apply;
    BudgetsAlwaysOk(txs);
    assert BudgetOk(Execute(EMPTY_STORE, txs), r);
  }

  // ---- Sums over sets of Runs ----

  ghost function Sum(ids: set<Id>, amount: map<Id, nat>): nat
    requires ids <= amount.Keys
  {
    if ids == {} then 0
    else
      var x :| x in ids;
      amount[x] + Sum(ids - {x}, amount)
  }

  lemma {:induction false} SumRemove(ids: set<Id>, amount: map<Id, nat>, x: Id)
    requires ids <= amount.Keys && x in ids
    ensures Sum(ids, amount) == amount[x] + Sum(ids - {x}, amount)
    decreases |ids|
  {
    var y :| y in ids && Sum(ids, amount) == amount[y] + Sum(ids - {y}, amount);
    if y != x {
      SumRemove(ids - {y}, amount, x);
      SumRemove(ids - {x}, amount, y);
      assert ids - {y} - {x} == ids - {x} - {y};
    }
  }

  lemma {:induction false} SumUnion(a: set<Id>, b: set<Id>, amount: map<Id, nat>)
    requires a + b <= amount.Keys && a !! b
    ensures Sum(a + b, amount) == Sum(a, amount) + Sum(b, amount)
    decreases |a|
  {
    if a == {} {
      assert a + b == b;
    } else {
      var x :| x in a;
      SumRemove(a, amount, x);
      SumRemove(a + b, amount, x);
      assert a + b - {x} == (a - {x}) + b;
      SumUnion(a - {x}, b, amount);
    }
  }

  // ---- One Run and its children ----

  /** The limits of a Run in one dimension, 0 where it has none. */
  function Cap(s: Store, d: Dimension): map<Id, nat> {
    map r | r in s.runs :: if s.runs[r].budget.limits.At(d).Some? then s.runs[r].budget.limits.At(d).value else 0
  }

  function Used(s: Store, d: Dimension): map<Id, nat> {
    map r | r in s.runs :: s.runs[r].budget.used.At(d)
  }

  /** A parent still holds back this Run's limit. */
  ghost predicate StillHeld(s: Store, c: Id, d: Dimension)
    requires c in s.runs
  {
    && s.runs[c].parent.Some? && s.runs[c].parent.value in s.runs
    && var rows := s.runs[s.runs[c].parent.value].budget.rows;
       var at := Find(rows, ChildKey(c, d));
       at.Some? && rows[at.value].status.Reserved?
  }

  /** The children whose limits Run `x` still holds back. */
  ghost function HeldChildren(s: Store, x: Id, d: Dimension): set<Id> {
    set c | c in s.runs && s.runs[c].parent == Some(x) && StillHeld(s, c, d)
  }

  /** Row `i` still holds back a child's limit. */
  predicate RowHolds(rows: seq<Reservation>, i: int, child: Id, d: Dimension, amount: nat) {
    && 0 <= i < |rows| && rows[i].key == ChildKey(child, d) && rows[i].dimension == d
    && rows[i].amount == amount && rows[i].status.Reserved?
  }

  /** Rows of different children are different rows, so together they hold back the sum of the limits. */
  lemma {:induction false} HeldCoversChildren(rows: seq<Reservation>, children: set<Id>, cap: map<Id, nat>,
                                              d: Dimension)
    requires UniqueKeys(rows) && children <= cap.Keys
    requires forall c :: c in children ==> exists i :: RowHolds(rows, i, c, d, cap[c])
    ensures Sum(children, cap) <= SumHeld(rows, d)
    decreases |rows|
  {
    if rows == [] {
      assert children == {};
    } else {
      var n := |rows| - 1;
      var last := rows[n];
      var rest := if last.key.ChildKey? && last.key.dimension == d then children - {last.key.child} else children;
      forall c | c in rest ensures exists i :: RowHolds(rows[..n], i, c, d, cap[c]) {
        var i :| RowHolds(rows, i, c, d, cap[c]);
        assert RowHolds(rows[..n], i, c, d, cap[c]);
      }
      HeldCoversChildren(rows[..n], rest, cap, d);
      if rest != children {
        if last.key.child in children {
          SumRemove(children, cap, last.key.child);
        }
      }
    }
  }

  /** What a Run used, plus the limits of the children it still backs, fits its own limit. */
  lemma FamilyFits(s: Store, x: Id, d: Dimension)
    requires BudgetsOk(s) && x in s.runs && s.runs[x].budget.limits.At(d).Some?
    ensures Used(s, d)[x] + Sum(HeldChildren(s, x, d), Cap(s, d)) <= Cap(s, d)[x]
  {
    var b := s.runs[x].budget;
    assert BudgetOk(s, x);
    forall c | c in HeldChildren(s, x, d) ensures exists i :: RowHolds(b.rows, i, c, d, Cap(s, d)[c]) {
      ChildRow(s, x, c, d);
      assert RowHolds(b.rows, Find(b.rows, ChildKey(c, d)).value, c, d, Cap(s, d)[c]);
    }
    HeldCoversChildren(b.rows, HeldChildren(s, x, d), Cap(s, d), d);
  }

  /** A child is limited wherever its parent is, and the row under its key holds that limit. */
  lemma ChildRow(s: Store, x: Id, c: Id, d: Dimension)
    requires BudgetsOk(s) && x in s.runs && c in s.runs && s.runs[c].parent == Some(x)
    requires s.runs[x].budget.limits.At(d).Some?
    ensures s.runs[c].budget.limits.At(d).Some?
    ensures var rows := s.runs[x].budget.rows; var at := Find(rows, ChildKey(c, d));
      at.Some? && rows[at.value].dimension == d && rows[at.value].amount == Cap(s, d)[c]
  {
    hide BudgetEvolves;
    assert BudgetOk(s, c) && BudgetOk(s, x);
    var limits, rows := s.runs[c].budget.limits, s.runs[x].budget.rows;
    assert limits.At(d).Some?;
    var i :| RowBacks(s.runs[x].budget, i, c, d, limits.At(d).value);
    assert Find(rows, ChildKey(c, d)) == Some(i);
  }

  // ---- The tree ----

  ghost function Subtree(s: Store, root: Id): set<Id> {
    set r | r in s.runs && Runs.Below(s.runs, root, r)
  }

  /** The Runs of the subtree, other than its root, whose limit nobody holds back any more. */
  ghost function Freed(s: Store, ids: set<Id>, root: Id, d: Dimension): set<Id>
    requires ids <= s.runs.Keys
  {
    set r | r in ids && r != root && !StillHeld(s, r, d)
  }

  /** `ids` contains `root` and, with any other Run, its parent; all limited in this dimension. */
  ghost predicate Closed(s: Store, ids: set<Id>, root: Id, d: Dimension) {
    && ids <= s.runs.Keys && root in ids
    && (forall x :: x in ids ==> s.runs[x].budget.limits.At(d).Some?)
    && (forall x :: x in ids && x != root ==> s.runs[x].parent.Some? && s.runs[x].parent.value in ids)
  }

  /** Backed children that are not in the set themselves. */
  ghost function Border(s: Store, ids: set<Id>, root: Id, d: Dimension): set<Id> {
    set c | c in s.runs && c !in ids && s.runs[c].parent.Some? && s.runs[c].parent.value in ids && StillHeld(s, c, d)
  }

  lemma {:induction false} Deepest(s: Store, ids: set<Id>) returns (x: Id)
    requires ids != {} && ids <= s.runs.Keys
    ensures x in ids && forall y :: y in ids ==> s.runs[y].depth <= s.runs[x].depth
    decreases |ids|
  {
    x :| x in ids;
    if ids != {x} {
      var y := Deepest(s, ids - {x});
      if s.runs[x].depth < s.runs[y].depth { x := y; }
    }
  }

  /** Taking a leaf out of the set puts it on the border and takes its own children off it. */
  lemma BorderOfLeaf(s: Store, ids: set<Id>, root: Id, d: Dimension, x: Id)
    requires Sound(s) && Closed(s, ids, root, d) && x in ids && x != root
    requires forall y :: y in ids ==> s.runs[y].depth <= s.runs[x].depth
    ensures Closed(s, ids - {x}, root, d)
    ensures var outer := Border(s, ids - {x}, root, d) - {x};
      && Border(s, ids, root, d) == outer + HeldChildren(s, x, d)
      && outer !! HeldChildren(s, x, d)
      && (x in Border(s, ids - {x}, root, d) <==> StillHeld(s, x, d))
  {
    hide StillHeld, Budget.Sound, ActionRefsOk, RequestRefsOk;
    forall y | y in ids ensures s.runs[y].parent != Some(x) {
      assert ParentOk(s, y);
    }
    assert ParentOk(s, x);
  }

  /** Growing the set from the root, what is used and what is promised beyond the border fits the root's limit. */
  lemma {:induction false} ChargeFits(s: Store, ids: set<Id>, root: Id, d: Dimension)
    requires Sound(s) && BudgetsOk(s) && Closed(s, ids, root, d)
    requires forall y :: y in ids ==>
               s.runs[root].depth <= s.runs[y].depth && (y != root ==> s.runs[root].depth < s.runs[y].depth)
    ensures Sum(ids, Used(s, d)) + Sum(Border(s, ids, root, d), Cap(s, d))
         <= Cap(s, d)[root] + Sum(Freed(s, ids, root, d), Cap(s, d))
    decreases |ids|
  {
    hide Sound, BudgetsOk, StillHeld;
    var cap, used := Cap(s, d), Used(s, d);
    if ids == {root} {
      assert Border(s, ids, root, d) == HeldChildren(s, root, d) by { RootBorder(s, root, d); }
      FamilyFits(s, root, d);
      SumRemove(ids, used, root);
      assert ids - {root} == {};
    } else {
      var x := Deepest(s, ids);
      assert exists y :: y in ids && y != root by { assert ids - {root} != {}; }
      BorderOfLeaf(s, ids, root, d, x);
      ChargeFits(s, ids - {x}, root, d);
      FamilyFits(s, x, d);
      LeafCharge(s, ids, root, d, x);
    }
  }

  lemma RootBorder(s: Store, root: Id, d: Dimension)
    requires Sound(s) && root in s.runs
    ensures Border(s, {root}, root, d) == HeldChildren(s, root, d)
  {
    hide StillHeld, ActionRefsOk, RequestRefsOk;
    forall c | c in HeldChildren(s, root, d) ensures c != root {
      assert ParentOk(s, c);
    }
  }

  lemma LeafCharge(s: Store, ids: set<Id>, root: Id, d: Dimension, x: Id)
    requires ids <= s.runs.Keys && x in ids && x != root
    requires var outer := Border(s, ids - {x}, root, d) - {x};
      && Border(s, ids, root, d) == outer + HeldChildren(s, x, d)
      && outer !! HeldChildren(s, x, d)
      && (x in Border(s, ids - {x}, root, d) <==> StillHeld(s, x, d))
    ensures var cap, used, inner := Cap(s, d), Used(s, d), ids - {x};
      && Sum(ids, used) == used[x] + Sum(inner, used)
      && Sum(Border(s, ids, root, d), cap) + (if StillHeld(s, x, d) then cap[x] else 0)
         == Sum(Border(s, inner, root, d), cap) + Sum(HeldChildren(s, x, d), cap)
      && Sum(Freed(s, ids, root, d), cap) == Sum(Freed(s, inner, root, d), cap) +
        (if StillHeld(s, x, d) then 0 else cap[x])
  {
    hide StillHeld;
    var cap, used, inner := Cap(s, d), Used(s, d), ids - {x};
    var border := Border(s, inner, root, d);
    SumRemove(ids, used, x);
    SumUnion(border - {x}, HeldChildren(s, x, d), cap);
    if StillHeld(s, x, d) {
      SumRemove(border, cap, x);
      assert Freed(s, ids, root, d) == Freed(s, inner, root, d);
    } else {
      assert border - {x} == border;
      SumRemove(Freed(s, ids, root, d), cap, x);
      assert Freed(s, ids, root, d) - {x} == Freed(s, inner, root, d);
    }
  }

  lemma {:induction false} BelowDeeper(s: Store, root: Id, r: Id, d: Dimension)
    requires Sound(s) && BudgetsOk(s) && root in s.runs && Runs.Below(s.runs, root, r)
    requires s.runs[root].budget.limits.At(d).Some?
    ensures s.runs[root].depth <= s.runs[r].depth && (r != root ==> s.runs[root].depth < s.runs[r].depth)
    ensures s.runs[r].budget.limits.At(d).Some?
    ensures r != root ==> s.runs[r].parent.Some? && s.runs[r].parent.value in Subtree(s, root)
    decreases s.runs[r].depth
  {
    if r != root {
      var p := s.runs[r].parent.value;
      BelowDeeper(s, root, p, d);
      ChildRow(s, p, r, d);
    }
  }

  /**
   Tree-wide spending, in every reachable state: all Runs of a subtree together use at most the limit of
   its root plus the limits of those Runs in it whose reservation their parent no longer holds.
   */
  lemma SubtreeSpendingBounded(txs: seq<Tx>, root: Id, d: Dimension)
    requires var s := Execute(EMPTY_STORE, txs); root in s.runs && s.runs[root].budget.limits.At(d).Some?
    ensures var s := Execute(EMPTY_STORE, txs);
      Sum(Subtree(s, root), Used(s, d)) <= Cap(s, d)[root] + Sum(Freed(s, Subtree(s, root), root, d), Cap(s, d))
  {
    hide Apply, Sound, BudgetsOk, StillHeld;
    var s := Execute(EMPTY_STORE, txs);
    ReachableSound(txs);
    BudgetsAlwaysOk(txs);
    forall r | r in Subtree(s, root)
      ensures s.runs[root].depth <= s.runs[r].depth && (r != root ==> s.runs[root].depth < s.runs[r].depth)
      ensures s.runs[r].budget.limits.At(d).Some?
      ensures r != root ==> s.runs[r].parent.Some? && s.runs[r].parent.value in Subtree(s, root)
    {
      BelowDeeper(s, root, r, d);
    }
    ChargeFits(s, Subtree(s, root), root, d);
  }

  /** While every child reservation in the subtree is still held, the subtree never passes the limit of its root. */
  lemma SubtreeStaysWithinRoot(txs: seq<Tx>, root: Id, d: Dimension)
    requires var s := Execute(EMPTY_STORE, txs);
      && root in s.runs && s.runs[root].budget.limits.At(d).Some?
      && forall r :: r in Subtree(s, root) && r != root ==> StillHeld(s, r, d)
    ensures var s := Execute(EMPTY_STORE, txs);
      Sum(Subtree(s, root), Used(s, d)) <= s.runs[root].budget.limits.At(d).value
  {
    SubtreeSpendingBounded(txs, root, d);
    assert Freed(Execute(EMPTY_STORE, txs), Subtree(Execute(EMPTY_STORE, txs), root), root, d) == {};
  }
}
