/** Whole-tree spending over runs: the limit of the root holds as long as nobody frees what its subtree holds back. */
module TreeSpending {
  import opened Wrappers
  import opened Budgets
  import opened Records
  import opened Evolution
  import opened Kernel
  import opened KernelEvolution
  import opened RunAccounts
  import opened BudgetTrees
  import Runs = RunTransactions

  /**
   The transactions that take a child's reservation away from Run `r`: ending it by force, or settling or
   releasing the row by hand.
   */
  predicate Frees(tx: Tx, r: Id) {
    || (tx.TerminateRun? && tx.run == r)
    || (tx.SettleBudget? && tx.run == r && tx.reservation.ChildKey?)
    || (tx.ReleaseBudget? && tx.run == r && tx.reservation.ChildKey?)
  }

  lemma HeldStep(b: Budget, b': Budget, tx: Tx, p: Id, c: Id)
    requires AllHeld(b, c) && BudgetMove(b, b', tx, p) && !Frees(tx, p)
    ensures AllHeld(b', c)
  {
  }

  /** Run `c` hangs below `p`, which holds back all its limits. */
  predicate Secured(s: Store, c: Id, p: Id) {
    c in s.runs && s.runs[c].parent == Some(p) && p in s.runs && AllHeld(s.runs[p].budget, c)
  }

  lemma SecuredStep(s: Store, s': Store, tx: Tx, c: Id, p: Id)
    requires Secured(s, c, p) && p in s'.runs && c in s'.runs && s'.runs[c].parent == s.runs[c].parent
    requires BudgetMove(s.runs[p].budget, s'.runs[p].budget, tx, p) && !Frees(tx, p)
    ensures Secured(s', c, p)
  {
    HeldStep(s.runs[p].budget, s'.runs[p].budget, tx, p, c);
  }

  lemma SecuredAtFirst(s: Store, s': Store, c: Id, p: Id)
    requires RunsEvolve(s, s') && c in s'.runs && c !in s.runs && s'.runs[c].parent == Some(p)
    ensures Secured(s', c, p)
  {
    hide RunEvolves, LogOk, Backs;
    assert NewRun(s, s', c);
  }

  predicate NeverFreed(txs: seq<Tx>, p: Id) {
    forall i :: 0 <= i < |txs| ==> !Frees(txs[i], p)
  }

  /** As long as nobody frees what `p` holds back, its children stay secured. */
  lemma {:induction false} ChildrenStaySecured(txs: seq<Tx>, c: Id, p: Id)
    requires var s := Execute(EMPTY_STORE, txs); c in s.runs && s.runs[c].parent == Some(p)
    requires NeverFreed(txs, p)
    ensures Secured(Execute(EMPTY_STORE, txs), c, p)
  {
    if txs != [] {
      hide Apply, Sound, ActionsEvolve, JobsEvolve, RunEvolves, BudgetMove, CallsMove, AllHeld, Frees;
      var before, tx := Execute(EMPTY_STORE, txs[..|txs| - 1]), txs[|txs| - 1];
      ReachableSound(txs[..|txs| - 1]);
      StepParts(before, tx);
      if c in before.runs {
        assert RunEvolves(before.runs[c], Apply(before, tx).runs[c]);
        RunBudgetStep(before.runs[c], Apply(before, tx).runs[c]);
        hide RunsEvolve;
        ChildrenStaySecured(txs[..|txs| - 1], c, p);
        StepAccounts(before, tx, p);
        SecuredStep(before, Apply(before, tx), tx, c, p);
      } else {
        SecuredAtFirst(before, Apply(before, tx), c, p);
      }
    }
  }

  lemma SecuredIsHeld(s: Store, c: Id, p: Id, d: Dimension)
    requires BudgetsOk(s) && Secured(s, c, p) && s.runs[p].budget.limits.At(d).Some?
    ensures StillHeld(s, c, d)
  {
    hide Budget.Sound, BudgetEvolves, RunEvolves;
    ChildRow(s, p, c, d);
  }

  /**
   While no Run of the subtree was terminated by force and no child reservation in it was settled or
   released by hand, all Runs of the subtree together use at most the limit of its root.
   */
  lemma TreeStaysWithinRoot(txs: seq<Tx>, root: Id, d: Dimension)
    requires var s := Execute(EMPTY_STORE, txs); root in s.runs && s.runs[root].budget.limits.At(d).Some?
    requires forall r :: r in Subtree(Execute(EMPTY_STORE, txs), root) ==> NeverFreed(txs, r)
    ensures var s := Execute(EMPTY_STORE, txs);
      Sum(Subtree(s, root), Used(s, d)) <= s.runs[root].budget.limits.At(d).value
  {
    hide Apply, Sound, BudgetsOk, StillHeld, NeverFreed, Runs.Below;
    var s := Execute(EMPTY_STORE, txs);
    ReachableSound(txs);
    BudgetsAlwaysOk(txs);
    forall r | r in Subtree(s, root) && r != root ensures StillHeld(s, r, d) {
      BelowDeeper(s, root, r, d);
      var p := s.runs[r].parent.value;
      BelowDeeper(s, root, p, d);
      ChildrenStaySecured(txs, r, p);
      SecuredIsHeld(s, r, p, d);
    }
    SubtreeStaysWithinRoot(txs, root, d);
  }
}
