/**
 The bound on the spending of a tree is attained: plain spending can bring a subtree exactly to the limit of its
 root plus the limits of the Runs in it that nobody holds back any more. So plain spending stays within the
 root's limit if and only if there are none such.
 */
module SpendingBound {
  import opened Wrappers
  import opened Budgets
  import opened Records
  import opened Evolution
  import opened Kernel
  import opened KernelEvolution
  import opened BudgetTrees
  import Runs = RunTransactions

  // ---- Plain spending ----

  /** The key under which Run `x` holds back a limit of one of its children. */
  predicate Backing(s: Store, x: Id, key: ReservationKey) {
    && key.ChildKey? && key.child in s.runs && s.runs[key.child].parent == Some(x)
    && s.runs[key.child].budget.limits.At(key.dimension).Some?
  }

  /** Reserving, and settling anything but what is held back for a child. */
  predicate Spends(s: Store, tx: Tx) {
    tx.ReserveBudget? || (tx.SettleBudget? && !Backing(s, tx.run, tx.reservation))
  }

  predicate SpendsOnly(s: Store, txs: seq<Tx>) {
    forall i :: 0 <= i < |txs| ==> Spends(s, txs[i])
  }

  /** Rows keep their keys and places, and those held back for children keep everything. */
  predicate RowsKept(s: Store, x: Id, rows: seq<Reservation>, rows': seq<Reservation>) {
    |rows| <= |rows'| && forall i :: 0 <= i < |rows| ==>
      rows'[i].key == rows[i].key && (Backing(s, x, rows[i].key) ==> rows'[i] == rows[i])
  }

  predicate RunKept(s: Store, x: Id, r: Run, r': Run) {
    && r'.parent == r.parent && r'.depth == r.depth && r'.budget.limits == r.budget.limits
    && RowsKept(s, x, r.budget.rows, r'.budget.rows)
  }

  /** The same tree with the same limits, and the same of it held back. */
  predicate SameTree(s: Store, s': Store) {
    s'.runs.Keys == s.runs.Keys && forall x :: x in s.runs ==> RunKept(s, x, s.runs[x], s'.runs[x])
  }

  lemma SameBacking(s: Store, s': Store, x: Id, key: ReservationKey)
    requires SameTree(s, s')
    ensures Backing(s', x, key) <==> Backing(s, x, key)
  {
  }

  lemma LimitsStay(s: Store, s': Store, x: Id)
    requires SameTree(s, s') && x in s.runs
    ensures x in s'.runs && s'.runs[x].budget.limits == s.runs[x].budget.limits
  {
  }

  lemma SameTreeOn(s: Store, s': Store, s'': Store)
    requires SameTree(s, s') && SameTree(s', s'')
    ensures SameTree(s, s'')
  {
    hide Backing;
    forall x | x in s.runs ensures RunKept(s, x, s.runs[x], s''.runs[x]) {
      var rows, rows', rows'' := s.runs[x].budget.rows, s'.runs[x].budget.rows, s''.runs[x].budget.rows;
      assert RunKept(s, x, s.runs[x], s'.runs[x]) && RunKept(s', x, s'.runs[x], s''.runs[x]);
      forall i | 0 <= i < |rows|
        ensures rows''[i].key == rows[i].key && (Backing(s, x, rows[i].key) ==> rows''[i] == rows[i])
      {
        SameBacking(s, s', x, rows[i].key);
      }
    }
  }

  lemma OneBudget(s: Store, run: Id, budget: Budget)
    requires run in s.runs && budget.limits == s.runs[run].budget.limits
    requires RowsKept(s, run, s.runs[run].budget.rows, budget.rows)
    ensures SameTree(s, s.WithRun(run, s.runs[run].(budget := budget)))
  {
  }

  lemma SpendsStep(s: Store, tx: Tx)
    requires Spends(s, tx)
    ensures SameTree(s, Apply(s, tx))
  {
    hide ApplyRun, ApplyRunEnd, ApplyAction, ApplyInput, ApplyJob, SameTree, Backing, Store.Fence;
    SameTreeAlways(s);
    if tx.run in s.runs {
      var b := s.runs[tx.run].budget;
      OneBudget(s, tx.run, if tx.ReserveBudget? then b.Reserve(tx.reservation, tx.dimension, tx.amount).0
                           else b.Settle(tx.reservation, tx.actual).0);
    }
  }

  lemma SameTreeAlways(s: Store)
    ensures SameTree(s, s)
  {
  }

  lemma {:induction false} SpendingKeepsTree(s: Store, txs: seq<Tx>)
    requires SpendsOnly(s, txs)
    ensures SameTree(s, Execute(s, txs))
  {
    if txs == [] {
      SameTreeAlways(s);
    } else {
      hide Apply, SameTree, Backing;
      var before, tx := Execute(s, txs[..|txs| - 1]), txs[|txs| - 1];
      SpendingKeepsTree(s, txs[..|txs| - 1]);
      if tx.SettleBudget? { SameBacking(s, before, tx.run, tx.reservation); }
      SpendsStep(before, tx);
      SameTreeOn(s, before, Apply(before, tx));
    }
  }

  // ---- One Run spends what it may ----

  /** The row holds something back in this dimension that is not for a child. */
  predicate Loose(s: Store, x: Id, row: Reservation, d: Dimension) {
    row.status.Reserved? && row.dimension == d && !Backing(s, x, row.key)
  }

  predicate NothingLoose(s: Store, x: Id, d: Dimension)
    requires x in s.runs
  {
    forall i :: 0 <= i < |s.runs[x].budget.rows| ==> !Loose(s, x, s.runs[x].budget.rows[i], d)
  }

  /** The store with another account for this Run. */
  predicate OnlyBudget(s: Store, s': Store, x: Id)
    requires x in s.runs
  {
    x in s'.runs && s'.runs == s.runs[x := s.runs[x].(budget := s'.runs[x].budget)]
  }

  /** A held row can always be settled for what it holds. */
  lemma SettlesInFull(b: Budget, i: nat)
    requires b.Sound() && i < |b.rows| && b.rows[i].status.Reserved?
    ensures var b' := b.Settle(b.rows[i].key, b.rows[i].amount).0;
      && b'.Sound() && b'.limits == b.limits
      && b'.rows == b.rows[i := b.rows[i].(status := Settled, actual := b.rows[i].amount)]
  {
    var row := b.rows[i];
    assert Find(b.rows, row.key) == Some(i);
    SumsAfterUpdate(b.rows, i, row.Freed(), row.dimension);
    SettleEvolves(b, row.key, row.amount);
  }

  lemma SettleTx(s: Store, x: Id, i: nat)
    requires x in s.runs && s.runs[x].budget.Sound() && i < |s.runs[x].budget.rows|
    requires s.runs[x].budget.rows[i].status.Reserved?
    ensures var row := s.runs[x].budget.rows[i]; var s' := Apply(s, Tx.SettleBudget(x, row.key, row.amount, None));
      && OnlyBudget(s, s', x) && s'.runs[x].budget.Sound()
      && s'.runs[x].budget.rows == s.runs[x].budget.rows[i := row.(status := Settled, actual := row.amount)]
  {
    SettlesInFull(s.runs[x].budget, i);
    assert Find(s.runs[x].budget.rows, s.runs[x].budget.rows[i].key).Some?;
    hide ApplyRun, ApplyRunEnd, ApplyAction, ApplyInput, ApplyJob, Budget.Settle, Budget.Sound, Find;
  }

  /** One stretch of spending after another. */
  lemma SpendsInTurn(s: Store, first: seq<Tx>, rest: seq<Tx>)
    requires SpendsOnly(s, first) && SpendsOnly(Execute(s, first), rest)
    ensures SpendsOnly(s, first + rest) && Execute(s, first + rest) == Execute(Execute(s, first), rest)
  {
    hide Execute, SameTree, Backing;
    ExecuteConcat(s, first, rest);
    SpendingKeepsTree(s, first);
    forall i | 0 <= i < |rest| ensures Spends(s, rest[i]) {
      if rest[i].SettleBudget? { SameBacking(s, Execute(s, first), rest[i].run, rest[i].reservation); }
    }
  }

  lemma OneSpends(s: Store, tx: Tx)
    requires Spends(s, tx)
    ensures SpendsOnly(s, [tx]) && Execute(s, [tx]) == Apply(s, tx)
  {
    hide Apply;
    assert Execute(s, [tx][..0]) == s;
  }

  /** All that Run `x` holds back loosely from row `k` on is spent. */
  lemma {:induction false} SettleFrom(s: Store, x: Id, d: Dimension, k: nat) returns (txs: seq<Tx>)
    requires x in s.runs && s.runs[x].budget.Sound() && k <= |s.runs[x].budget.rows|
    requires forall i :: 0 <= i < k ==> !Loose(s, x, s.runs[x].budget.rows[i], d)
    ensures SpendsOnly(s, txs)
    ensures var s' := Execute(s, txs);
      && OnlyBudget(s, s', x) && s'.runs[x].budget.Sound()
      && NothingLoose(s', x, d)
    decreases |s.runs[x].budget.rows| - k
  {
    hide Apply, Budget.Sound, Backing, SameTree;
    var rows := s.runs[x].budget.rows;
    if k == |rows| {
      txs := [];
    } else if !Loose(s, x, rows[k], d) {
      txs := SettleFrom(s, x, d, k + 1);
    } else {
      var tx := Tx.SettleBudget(x, rows[k].key, rows[k].amount, None);
      SettleTx(s, x, k);
      OneSpends(s, tx);
      SpendsStep(s, tx);
      var s1 := Apply(s, tx);
      forall i | 0 <= i < k + 1 ensures !Loose(s1, x, s1.runs[x].budget.rows[i], d) {
        SameBacking(s, s1, x, s1.runs[x].budget.rows[i].key);
      }
      var rest := SettleFrom(s1, x, d, k + 1);
      SpendsInTurn(s, [tx], rest);
      txs := [tx] + rest;
    }
  }

  lemma ReserveTx(s: Store, x: Id, key: ReservationKey, d: Dimension, amount: nat)
    requires x in s.runs && s.runs[x].budget.Sound() && amount > 0 && Find(s.runs[x].budget.rows, key).None?
    requires s.runs[x].budget.Fits(d, SumHeld(s.runs[x].budget.rows, d), amount)
    ensures var s' := Apply(s, Tx.ReserveBudget(x, key, d, amount, None));
      && OnlyBudget(s, s', x) && s'.runs[x].budget.Sound() && s'.runs[x].budget.used == s.runs[x].budget.used
      && s'.runs[x].budget.rows == s.runs[x].budget.rows + [Reservation(key, d, amount, Reserved, 0)]
  {
    ReserveEvolves(s.runs[x].budget, key, d, amount);
    hide ApplyRun, ApplyRunEnd, ApplyAction, ApplyInput, ApplyJob, Budget.Sound, SumHeld;
  }

  lemma UnusedKey(rows: seq<Reservation>) returns (key: ReservationKey)
    ensures key.ToolKey? && Find(rows, key).None?
  {
    var turns := set i | 0 <= i < |rows| && rows[i].key.ToolKey? :: rows[i].key.turn;
    var n := Bound(turns);
    key := ToolKey(n, 0);
    forall i | 0 <= i < |rows| ensures rows[i].key != key {
      assert rows[i].key.ToolKey? ==> rows[i].key.turn in turns;
    }
  }

  lemma SumsOfSettled(rows: seq<Reservation>, row: Reservation, d: Dimension)
    requires row.status.Settled? && row.dimension == d
    ensures SumHeld(rows + [row], d) == SumHeld(rows, d) && SumSpent(rows + [row], d) == SumSpent(rows, d) + row.actual
  {
    assert (rows + [row])[..|rows|] == rows;
  }

  /** Nothing loose is held back, and what is used and held back is all the Run may spend. */
  predicate Full(s: Store, x: Id, d: Dimension) {
    && x in s.runs && s.runs[x].budget.limits.At(d).Some?
    && s.runs[x].budget.used.At(d) + SumHeld(s.runs[x].budget.rows, d) == s.runs[x].budget.limits.At(d).value
    && NothingLoose(s, x, d)
  }

  lemma ToppedUp(b: Budget, b': Budget, key: ReservationKey, d: Dimension, rest: nat)
    requires b.Sound() && b'.Sound() && b'.limits == b.limits && b.limits.At(d).Some?
    requires b.used.At(d) + SumHeld(b.rows, d) + rest == b.limits.At(d).value
    requires b'.rows == b.rows + [Reservation(key, d, rest, Settled, rest)]
    ensures b'.used.At(d) + SumHeld(b'.rows, d) == b'.limits.At(d).value
  {
    SumsOfSettled(b.rows, Reservation(key, d, rest, Settled, rest), d);
    assert b.used.At(d) == SumSpent(b.rows, d) && b'.used.At(d) == SumSpent(b'.rows, d);
    hide SumHeld, SumSpent, Budget.Sound;
  }

  lemma StillNotLoose(s: Store, s': Store, x: Id, d: Dimension, row: Reservation)
    requires SameTree(s, s') && x in s.runs && x in s'.runs && row.status.Settled?
    requires s'.runs[x].budget.rows == s.runs[x].budget.rows + [row]
    requires NothingLoose(s, x, d)
    ensures NothingLoose(s', x, d)
  {
    hide Backing, SameTree;
    forall i | 0 <= i < |s'.runs[x].budget.rows| ensures !Loose(s', x, s'.runs[x].budget.rows[i], d) {
      SameBacking(s, s', x, s'.runs[x].budget.rows[i].key);
    }
  }

  /** Some amount that fits is reserved and settled under a new key. */
  lemma SpendNew(s: Store, x: Id, d: Dimension, amount: nat) returns (txs: seq<Tx>, key: ReservationKey)
    requires x in s.runs && s.runs[x].budget.Sound() && amount > 0
    requires s.runs[x].budget.Fits(d, SumHeld(s.runs[x].budget.rows, d), amount)
    ensures SpendsOnly(s, txs)
    ensures var s' := Execute(s, txs);
      && OnlyBudget(s, s', x) && s'.runs[x].budget.Sound()
      && s'.runs[x].budget.rows == s.runs[x].budget.rows + [Reservation(key, d, amount, Settled, amount)]
  {
    key := UnusedKey(s.runs[x].budget.rows);
    hide Apply, SumHeld, SumSpent, Find, Budget.Sound;
    var rows := s.runs[x].budget.rows;
    var reserve, settle := Tx.ReserveBudget(x, key, d, amount, None), Tx.SettleBudget(x, key, amount, None);
    ReserveTx(s, x, key, d, amount);
    var s1 := Apply(s, reserve);
    SettleTx(s1, x, |rows|);
    OneSpends(s, reserve);
    OneSpends(s1, settle);
    SpendsInTurn(s, [reserve], [settle]);
    txs := [reserve] + [settle];
  }

  /** The rest of the limit is spent. */
  lemma TopUp(s: Store, x: Id, d: Dimension) returns (txs: seq<Tx>)
    requires x in s.runs && s.runs[x].budget.Sound() && s.runs[x].budget.limits.At(d).Some?
    requires NothingLoose(s, x, d)
    ensures SpendsOnly(s, txs)
    ensures var s' := Execute(s, txs); OnlyBudget(s, s', x) && s'.runs[x].budget.Sound() && Full(s', x, d)
  {
    var b := s.runs[x].budget;
    assert b.used.At(d) + SumHeld(b.rows, d) <= b.limits.At(d).value;
    var rest := b.limits.At(d).value - b.used.At(d) - SumHeld(b.rows, d);
    hide SumHeld, SumSpent, NothingLoose, Budget.Sound, Apply, SameTree;
    txs := [];
    if rest > 0 {
      var key;
      txs, key := SpendNew(s, x, d, rest);
      var s' := Execute(s, txs);
      SpendingKeepsTree(s, txs);
      LimitsStay(s, s', x);
      hide Execute;
      ToppedUp(b, s'.runs[x].budget, key, d, rest);
      StillNotLoose(s, s', x, d, Reservation(key, d, rest, Settled, rest));
    }
  }

  /** A Run spends all it may. */
  lemma Fill(s: Store, x: Id, d: Dimension) returns (txs: seq<Tx>)
    requires x in s.runs && s.runs[x].budget.Sound() && s.runs[x].budget.limits.At(d).Some?
    ensures SpendsOnly(s, txs)
    ensures var s' := Execute(s, txs); OnlyBudget(s, s', x) && s'.runs[x].budget.Sound() && Full(s', x, d)
  {
    hide Execute, Budget.Sound, Backing, SameTree, Full, Loose;
    var first := SettleFrom(s, x, d, 0);
    var s1 := Execute(s, first);
    SpendingKeepsTree(s, first);
    assert s1.runs[x].budget.limits == s.runs[x].budget.limits by { LimitsStay(s, s1, x); }
    var second := TopUp(s1, x, d);
    SpendsInTurn(s, first, second);
    txs := first + second;
  }

  lemma FullStays(s: Store, s': Store, x: Id, y: Id, d: Dimension)
    requires Full(s, x, d) && y in s.runs && OnlyBudget(s, s', y) && x != y && SameTree(s, s')
    ensures Full(s', x, d)
  {
    hide Backing, SameTree;
    forall i | 0 <= i < |s'.runs[x].budget.rows| ensures !Loose(s', x, s'.runs[x].budget.rows[i], d) {
      SameBacking(s, s', x, s'.runs[x].budget.rows[i].key);
    }
  }

  ghost predicate AllSound(s: Store) {
    forall x :: x in s.runs ==> s.runs[x].budget.Sound()
  }

  /** All Runs of a set spend all they may. */
  lemma {:induction false} FillAll(s: Store, ids: set<Id>, d: Dimension) returns (txs: seq<Tx>)
    requires AllSound(s) && ids <= s.runs.Keys && forall x :: x in ids ==> s.runs[x].budget.limits.At(d).Some?
    ensures SpendsOnly(s, txs)
    ensures forall x :: x in ids ==> Full(Execute(s, txs), x, d)
    ensures AllSound(Execute(s, txs))
    decreases |ids|
  {
    hide Execute, Budget.Sound, Backing, SameTree, Full;
    if ids == {} {
      txs := [];
      assert Execute(s, []) == s by { Still(s); }
    } else {
      var x :| x in ids;
      var rest := FillAll(s, ids - {x}, d);
      var s1 := Execute(s, rest);
      SpendingKeepsTree(s, rest);
      LimitsStay(s, s1, x);
      var more := Fill(s1, x, d);
      SpendingKeepsTree(s1, more);
      SpendsInTurn(s, rest, more);
      txs := rest + more;
      forall y | y in ids ensures Full(Execute(s, txs), y, d) {
        if y != x { FullStays(s1, Execute(s1, more), y, x, d); }
      }
    }
  }

  lemma Still(s: Store)
    ensures Execute(s, []) == s
  {
  }

  // ---- The bound is attained ----

  /** Everything a full Run holds back in this dimension, it holds back for children. */
  lemma {:induction false} HeldAreChildren(rows: seq<Reservation>, children: set<Id>, cap: map<Id, nat>, d: Dimension)
    requires UniqueKeys(rows) && children <= cap.Keys
    requires forall i :: 0 <= i < |rows| && rows[i].status.Reserved? && rows[i].dimension == d ==>
      rows[i].key.ChildKey? && rows[i].key.dimension == d && rows[i].key.child in children
        && rows[i].amount == cap[rows[i].key.child]
    ensures SumHeld(rows, d) <= Sum(children, cap)
    decreases |rows|
  {
    if rows != [] {
      var n := |rows| - 1;
      var last := rows[n];
      if last.status.Reserved? && last.dimension == d {
        HeldAreChildren(rows[..n], children - {last.key.child}, cap, d);
        SumRemove(children, cap, last.key.child);
      } else {
        HeldAreChildren(rows[..n], children, cap, d);
      }
    }
  }

  lemma HeldRowIsChild(s: Store, x: Id, d: Dimension, i: nat)
    requires BudgetsOk(s) && Full(s, x, d) && i < |s.runs[x].budget.rows|
    requires s.runs[x].budget.rows[i].status.Reserved? && s.runs[x].budget.rows[i].dimension == d
    ensures var row := s.runs[x].budget.rows[i];
      row.key.ChildKey? && row.key.dimension == d && row.key.child in HeldChildren(s, x, d)
        && row.amount == Cap(s, d)[row.key.child]
  {
    hide BudgetEvolves;
    var rows, row := s.runs[x].budget.rows, s.runs[x].budget.rows[i];
    assert !Loose(s, x, row, d);
    var c, e := row.key.child, row.key.dimension;
    assert BudgetOk(s, c) && BudgetOk(s, x);
    var j :| RowBacks(s.runs[x].budget, j, c, e, s.runs[c].budget.limits.At(e).value);
    assert j == i;
    assert Find(rows, row.key) == Some(i);
  }

  lemma FullFamily(s: Store, x: Id, d: Dimension)
    requires BudgetsOk(s) && Full(s, x, d)
    ensures Used(s, d)[x] + Sum(HeldChildren(s, x, d), Cap(s, d)) == Cap(s, d)[x]
  {
    FamilyFits(s, x, d);
    assert BudgetOk(s, x);
    forall i | 0 <= i < |s.runs[x].budget.rows| && s.runs[x].budget.rows[i].status.Reserved?
      && s.runs[x].budget.rows[i].dimension == d
      ensures var row := s.runs[x].budget.rows[i];
        row.key.ChildKey? && row.key.dimension == d && row.key.child in HeldChildren(s, x, d)
          && row.amount == Cap(s, d)[row.key.child]
    {
      HeldRowIsChild(s, x, d, i);
    }
    hide BudgetsOk, StillHeld, Loose;
    HeldAreChildren(s.runs[x].budget.rows, HeldChildren(s, x, d), Cap(s, d), d);
  }

  /** Where every Run of a set spends all it may, the estimate for the set is exact. */
  lemma {:induction false} ChargeExact(s: Store, ids: set<Id>, root: Id, d: Dimension)
    requires Sound(s) && BudgetsOk(s) && BudgetTrees.Closed(s, ids, root, d)
    requires forall y :: y in ids ==>
               s.runs[root].depth <= s.runs[y].depth && (y != root ==> s.runs[root].depth < s.runs[y].depth)
    requires forall y :: y in ids ==> Used(s, d)[y] + Sum(HeldChildren(s, y, d), Cap(s, d)) == Cap(s, d)[y]
    ensures Sum(ids, Used(s, d)) + Sum(Border(s, ids, root, d), Cap(s, d))
         == Cap(s, d)[root] + Sum(BudgetTrees.Freed(s, ids, root, d), Cap(s, d))
    decreases |ids|
  {
    hide Sound, BudgetsOk, StillHeld;
    var used := Used(s, d);
    if ids == {root} {
      RootBorder(s, root, d);
      SumRemove(ids, used, root);
      assert ids - {root} == {} && BudgetTrees.Freed(s, ids, root, d) == {};
    } else {
      var x := Deepest(s, ids);
      assert exists y :: y in ids && y != root by { assert ids - {root} != {}; }
      BorderOfLeaf(s, ids, root, d, x);
      ChargeExact(s, ids - {x}, root, d);
      LeafCharge(s, ids, root, d, x);
    }
  }

  /** All Runs of a subtree spend all they may. */
  lemma FullTree(txs: seq<Tx>, root: Id, d: Dimension)
    requires var s := Execute(EMPTY_STORE, txs);
      root in s.runs && s.runs[root].budget.limits.At(d).Some? && forall x :: x in Subtree(s, root) ==> Full(s, x, d)
    ensures var s := Execute(EMPTY_STORE, txs);
      Sum(Subtree(s, root), Used(s, d)) ==
        Cap(s, d)[root] + Sum(BudgetTrees.Freed(s, Subtree(s, root), root, d), Cap(s, d))
  {
    hide Apply, Sound, BudgetsOk, StillHeld, Full;
    var s := Execute(EMPTY_STORE, txs);
    ReachableSound(txs);
    BudgetsAlwaysOk(txs);
    var ids := Subtree(s, root);
    forall r | r in ids
      ensures s.runs[root].depth <= s.runs[r].depth && (r != root ==> s.runs[root].depth < s.runs[r].depth)
      ensures s.runs[r].budget.limits.At(d).Some?
      ensures r != root ==> s.runs[r].parent.Some? && s.runs[r].parent.value in ids
      ensures Used(s, d)[r] + Sum(HeldChildren(s, r, d), Cap(s, d)) == Cap(s, d)[r]
    {
      BelowDeeper(s, root, r, d);
      FullFamily(s, r, d);
    }
    ChargeExact(s, ids, root, d);
    NoBorder(s, root, d);
  }

  /** Every child of a Run of a subtree is in it. */
  lemma NoBorder(s: Store, root: Id, d: Dimension)
    requires Sound(s) && root in s.runs
    ensures Border(s, Subtree(s, root), root, d) == {}
  {
    hide StillHeld, ActionRefsOk, RequestRefsOk;
    forall c | c in s.runs && s.runs[c].parent.Some? && s.runs[c].parent.value in Subtree(s, root)
      ensures c in Subtree(s, root)
    {
      assert ParentOk(s, c);
    }
  }

  // ---- The tree after plain spending ----

  lemma {:induction false} SameBelow(s: Store, s': Store, root: Id, r: Id)
    requires SameTree(s, s') && r in s.runs
    ensures Runs.Below(s'.runs, root, r) <==> Runs.Below(s.runs, root, r)
    decreases s.runs[r].depth
  {
    assert RunKept(s, r, s.runs[r], s'.runs[r]);
    hide Backing, RowsKept;
    if s.runs[r].parent.Some? && s.runs[r].parent.value in s.runs {
      var p := s.runs[r].parent.value;
      assert RunKept(s, p, s.runs[p], s'.runs[p]);
      if s.runs[p].depth < s.runs[r].depth { SameBelow(s, s', root, p); }
    }
  }

  lemma SameHeld(s: Store, s': Store, c: Id, d: Dimension)
    requires SameTree(s, s') && BudgetsOk(s) && AllSound(s') && c in s.runs && s.runs[c].parent.Some?
    requires s.runs[c].parent.value in s.runs && s.runs[s.runs[c].parent.value].budget.limits.At(d).Some?
    ensures StillHeld(s', c, d) <==> StillHeld(s, c, d)
  {
    var p := s.runs[c].parent.value;
    ChildRow(s, p, c, d);
    var rows, rows' := s.runs[p].budget.rows, s'.runs[p].budget.rows;
    var at := Find(rows, ChildKey(c, d)).value;
    assert RunKept(s, p, s.runs[p], s'.runs[p]) && Backing(s, p, rows[at].key);
    assert rows'[at] == rows[at];
    assert s'.runs[p].budget.Sound();
    assert Find(rows', ChildKey(c, d)) == Some(at);
  }

  lemma SameTreeSums(s: Store, s': Store, root: Id, d: Dimension)
    requires SameTree(s, s') && Sound(s) && BudgetsOk(s) && AllSound(s')
    requires root in s.runs && s.runs[root].budget.limits.At(d).Some?
    ensures Subtree(s', root) == Subtree(s, root) && Cap(s', d) == Cap(s, d)
    ensures BudgetTrees.Freed(s', Subtree(s', root), root, d) == BudgetTrees.Freed(s, Subtree(s, root), root, d)
  {
    hide Sound, BudgetsOk, AllSound, StillHeld, Backing, RowsKept, Runs.Below;
    forall r | r in s.runs ensures Runs.Below(s'.runs, root, r) <==>
      Runs.Below(s.runs, root, r) { SameBelow(s, s', root, r); }
    forall r | r in s.runs ensures s'.runs[r].budget.limits == s.runs[r].budget.limits { LimitsStay(s, s', r); }
    forall c | c in Subtree(s, root) && c != root ensures StillHeld(s', c, d) <==> StillHeld(s, c, d) {
      BelowDeeper(s, root, c, d);
      BelowDeeper(s, root, s.runs[c].parent.value, d);
      SameHeld(s, s', c, d);
    }
  }

  lemma ReachableAllSound(txs: seq<Tx>)
    ensures AllSound(Execute(EMPTY_STORE, txs))
  {
    hide Execute, Budget.Sound;
    BudgetsAlwaysOk(txs);
    var s := Execute(EMPTY_STORE, txs);
    forall x | x in s.runs ensures s.runs[x].budget.Sound() { assert BudgetOk(s, x); }
  }

  // ---- The promises ----

  /** What all Runs of a subtree have used after some more transactions. */
  ghost function TreeUse(txs: seq<Tx>, root: Id, d: Dimension): nat {
    var s := Execute(EMPTY_STORE, txs);
    Sum(Subtree(s, root), Used(s, d))
  }

  /** The limits of those Runs of the subtree that are not held back any more. */
  ghost function FreedLimits(txs: seq<Tx>, root: Id, d: Dimension): nat {
    var s := Execute(EMPTY_STORE, txs);
    Sum(BudgetTrees.Freed(s, Subtree(s, root), root, d), Cap(s, d))
  }

  /** The bound is attained: from every reachable state plain spending leads exactly to it. */
  lemma SpendingReachesBound(txs: seq<Tx>, root: Id, d: Dimension) returns (more: seq<Tx>)
    requires var s := Execute(EMPTY_STORE, txs); root in s.runs && s.runs[root].budget.limits.At(d).Some?
    ensures SpendsOnly(Execute(EMPTY_STORE, txs), more)
    ensures TreeUse(txs + more, root, d) == Cap(Execute(EMPTY_STORE, txs), d)[root] + FreedLimits(txs, root, d)
  {
    hide Apply, Sound, BudgetsOk, AllSound, StillHeld, Full, SameTree;
    var s := Execute(EMPTY_STORE, txs);
    ReachableSound(txs);
    BudgetsAlwaysOk(txs);
    ReachableAllSound(txs);
    forall r | r in Subtree(s, root) ensures s.runs[r].budget.limits.At(d).Some? { BelowDeeper(s, root, r, d); }
    more := FillAll(s, Subtree(s, root), d);
    ExecuteConcat(EMPTY_STORE, txs, more);
    SpendingKeepsTree(s, more);
    var s' := Execute(EMPTY_STORE, txs + more);
    SameTreeSums(s, s', root, d);
    LimitsStay(s, s', root);
    FullTree(txs + more, root, d);
  }

  /** However a tree is spent from, it stays within the limit of its root if and only if nothing in it was freed. */
  lemma SpendingStaysWithinIff(txs: seq<Tx>, root: Id, d: Dimension)
    requires var s := Execute(EMPTY_STORE, txs); root in s.runs && s.runs[root].budget.limits.At(d).Some?
    ensures (forall more :: SpendsOnly(Execute(EMPTY_STORE, txs), more) ==>
               TreeUse(txs + more, root, d) <= Execute(EMPTY_STORE, txs).runs[root].budget.limits.At(d).value)
       <==> FreedLimits(txs, root, d) == 0
  {
    hide Apply, Sound, BudgetsOk, AllSound, StillHeld, SameTree, Execute;
    var s := Execute(EMPTY_STORE, txs);
    ReachableSound(txs);
    BudgetsAlwaysOk(txs);
    var most := SpendingReachesBound(txs, root, d);
    forall more | SpendsOnly(s, more) && FreedLimits(txs, root, d) == 0
      ensures TreeUse(txs + more, root, d) <= s.runs[root].budget.limits.At(d).value
    {
      ExecuteConcat(EMPTY_STORE, txs, more);
      SpendingKeepsTree(s, more);
      ReachableAllSound(txs + more);
      SameTreeSums(s, Execute(EMPTY_STORE, txs + more), root, d);
      LimitsStay(s, Execute(EMPTY_STORE, txs + more), root);
      SubtreeSpendingBounded(txs + more, root, d);
    }
  }

  // ---- Freeing a child's row by hand ----

  /** Released, or settled for nothing, the row of a child is no longer held. */
  lemma FreedRow(b: Budget, key: ReservationKey)
    requires b.Sound() && Find(b.rows, key).Some? && b.rows[Find(b.rows, key).value].status.Reserved?
    ensures forall b' :: b' == b.Release(key).0 || b' == b.Settle(key, 0).0 ==>
      b'.limits == b.limits && Find(b'.rows, key).Some? && !b'.rows[Find(b'.rows, key).value].status.Reserved?
  {
    var at := Find(b.rows, key).value;
    SumsAfterUpdate(b.rows, at, b.rows[at].Freed(), b.rows[at].dimension);
    forall b' | b' == b.Release(key).0 || b' == b.Settle(key, 0).0
      ensures b'.limits == b.limits && Find(b'.rows, key).Some? && !b'.rows[Find(b'.rows, key).value].status.Reserved?
    {
      assert b'.rows[at].key == key && !b'.rows[at].status.Reserved?;
      ReleaseEvolves(b, key);
      SettleEvolves(b, key, 0);
      assert UniqueKeys(b'.rows);
      assert Find(b'.rows, key) == Some(at);
    }
  }

  lemma FreedTx(s: Store, p: Id, key: ReservationKey, tx: Tx)
    requires p in s.runs && s.runs[p].budget.Sound() && Find(s.runs[p].budget.rows, key).Some?
    requires s.runs[p].budget.rows[Find(s.runs[p].budget.rows, key).value].status.Reserved?
    requires tx == Tx.ReleaseBudget(p, key, None) || tx == Tx.SettleBudget(p, key, 0, None)
    ensures var s' := Apply(s, tx);
      && OnlyBudget(s, s', p) && s'.runs[p].budget.limits == s.runs[p].budget.limits
      && var rows := s'.runs[p].budget.rows; Find(rows, key).Some? && !rows[Find(rows, key).value].status.Reserved?
  {
    FreedRow(s.runs[p].budget, key);
    FreedStore(s, p, key, tx);
    hide Apply, Budget.Sound, Budget.Release, Budget.Settle, Find;
  }

  /** The store of such a transaction. */
  lemma FreedStore(s: Store, p: Id, key: ReservationKey, tx: Tx)
    requires p in s.runs && Find(s.runs[p].budget.rows, key).Some?
    requires tx == Tx.ReleaseBudget(p, key, None) || tx == Tx.SettleBudget(p, key, 0, None)
    ensures var b := s.runs[p].budget;
      var b' := if tx.ReleaseBudget? then b.Release(key).0 else b.Settle(key, 0).0;
      Apply(s, tx) == s.WithRun(p, s.runs[p].(budget := b'))
  {
    hide ApplyRun, ApplyRunEnd, ApplyAction, ApplyInput, ApplyJob, Budget.Release, Budget.Settle;
  }

  /**
   Releasing the row of a child by hand, or settling it, is enough: if the child has any limit there, the tree
   of its parent can then pass the parent's limit by plain spending.
   */
  lemma FreeingByHandOverspends(txs: seq<Tx>, p: Id, c: Id, d: Dimension, tx: Tx) returns (more: seq<Tx>)
    requires var s := Execute(EMPTY_STORE, txs);
      && p in s.runs && c in s.runs && s.runs[c].parent == Some(p) && StillHeld(s, c, d)
      && s.runs[p].budget.limits.At(d).Some? && Cap(s, d)[c] > 0
    requires tx == Tx.ReleaseBudget(p, ChildKey(c, d), None) || tx == Tx.SettleBudget(p, ChildKey(c, d), 0, None)
    ensures SpendsOnly(Execute(EMPTY_STORE, txs + [tx]), more)
    ensures TreeUse(txs + [tx] + more, p, d) > Execute(EMPTY_STORE, txs).runs[p].budget.limits.At(d).value
  {
    hide Apply, Sound, BudgetsOk, AllSound;
    var s := Execute(EMPTY_STORE, txs);
    ReachableAllSound(txs);
    assert s.runs[p].budget.Sound() by { SoundBudget(s, p); }
    hide Budget.Sound;
    FreedTx(s, p, ChildKey(c, d), tx);
    assert (txs + [tx])[..|txs|] == txs;
    var s' := Execute(EMPTY_STORE, txs + [tx]);
    assert s' == Apply(s, tx);
    ReachableSound(txs + [tx]);
    assert ParentOk(s', c) by { ParentIsOk(s', c); }
    assert !StillHeld(s', c, d);
    hide StillHeld;
    assert Runs.Below(s'.runs, p, p) && Runs.Below(s'.runs, p, c);
    more := SpendingReachesBound(txs + [tx], p, d);
    SumRemove(BudgetTrees.Freed(s', Subtree(s', p), p, d), Cap(s', d), c);
  }

  lemma SoundBudget(s: Store, x: Id)
    requires AllSound(s) && x in s.runs
    ensures s.runs[x].budget.Sound()
  {
  }

  lemma ParentIsOk(s: Store, r: Id)
    requires Sound(s) && r in s.runs
    ensures ParentOk(s, r)
  {
  }
}
