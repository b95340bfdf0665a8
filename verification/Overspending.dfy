/**
 A history in which a forced ending frees what a live child may still spend, and the tree passes the limit of
 its root.
 */
module Overspending {
  import opened States
  import opened Wrappers
  import opened Budgets
  import opened Vaults
  import opened Records
  import opened Kernel
  import opened Histories
  import Runs = RunTransactions
  import Accounts = AccountTransactions

  const USER := Owner(0, 0)
  const LIMITS := Limits(Some(1), Some(1), Some(1), None)
  const ASKED := Request(7, OtherCapability(0), 0, Unsafe, None)
  const TOOL := ToolKey(0, 0)

  /** The parent with its account. */
  predicate Parent(s: Store, status: RunStatus, budget: Budget) {
    && s.now == 0 && 1 in s.runs && s.runs[1].owner == USER && s.runs[1].status == status
    && s.runs[1].parent.None? && s.runs[1].depth == 0 && s.runs[1].budget == budget
  }

  /** The child, live, with its account. */
  predicate Child(s: Store, budget: Budget) {
    s.runs.Keys == {1, 2} && s.runs[2].status.Queued? && s.runs[2].parent == Some(1) && s.runs[2].depth == 1
      && s.runs[2].budget == budget
  }

  const FRESH := Budget(LIMITS, None, NOTHING_USED, [])
  const BACKING := FRESH.(rows := Runs.ChildRows(2, LIMITS))
  const FREED := BACKING.ReleaseAll()

  function Spending(b: Budget): Budget {
    b.(rows := b.rows + [Reservation(TOOL, ToolCalls, 1, Reserved, 0)])
  }

  function Spent(b: Budget): Budget {
    b.(used := Usage(0, 1, 0, 0), rows := b.rows + [Reservation(TOOL, ToolCalls, 1, Settled, 1)])
  }

  lemma Begin()
    ensures var s := Apply(EMPTY_STORE, Tx.AdmitRun(USER, 0, 0, LIMITS, None, 1, 1));
      Parent(s, RunStatus.Queued, FRESH) && s.runs.Keys == {1} && s.jobs.Keys == {1} && s.actions == map[]
        && s.slots == map[]
      && s.admissions.Keys == {AdmissionKey(USER, RunsRoute, 0)}
  {
    hide ApplyRunEnd, ApplyAction, ApplyInput, ApplyAccount, ApplyJob;
  }

  lemma Start(s: Store)
    requires Parent(s, RunStatus.Queued, FRESH)
    ensures var s' := Apply(s, Tx.EnsureRunning(1, None));
      Parent(s', RunStatus.Running, FRESH) && s' == s.(runs := s'.runs) && s'.runs.Keys == s.runs.Keys
  {
    hide ApplyRunEnd, ApplyAction, ApplyInput, ApplyAccount, ApplyJob;
  }

  lemma Propose(s: Store)
    requires Parent(s, RunStatus.Running, FRESH) && s.actions == map[] && s.slots == map[]
    ensures var s' := Apply(s, Tx.AdmitAction(USER, Slot(1, 0, 0), ASKED, None, 10));
      Parent(s', RunStatus.Running, FRESH) && s'.runs.Keys == s.runs.Keys && s'.jobs == s.jobs
        && s'.admissions == s.admissions
      && 10 in s'.actions && s'.actions[10].status.Ready? && s'.actions[10].slot == Slot(1, 0, 0)
  {
    hide ApplyRun, ApplyRunEnd, ApplyAction, ApplyAccount, ApplyJob;
  }

  lemma Send(s: Store)
    requires Parent(s, RunStatus.Running, FRESH) && 10 in s.actions
    requires s.actions[10].status.Ready? && s.actions[10].slot == Slot(1, 0, 0)
    ensures var s' := Apply(s, Tx.BeginDispatch(10, None, None));
      Parent(s', RunStatus.Running, FRESH) && s'.runs.Keys == s.runs.Keys && s'.jobs == s.jobs
        && s'.admissions == s.admissions
      && 10 in s'.actions && s'.actions[10].status.Running? && s'.actions[10].slot == Slot(1, 0, 0)
  {
    hide ApplyRun, ApplyRunEnd, ApplyInput, ApplyAccount, ApplyJob;
  }

  lemma Fork(s: Store)
    requires Parent(s, RunStatus.Running, FRESH) && s.runs.Keys == {1} && s.jobs.Keys == {1}
    requires s.admissions.Keys == {AdmissionKey(USER, RunsRoute, 0)}
    ensures var s' := Apply(s, Tx.AdmitChild(USER, 1, 0, 0, LIMITS, None, 1, 1, 2, 2));
      Parent(s', RunStatus.Running, BACKING) && Child(s', FRESH) && s'.actions == s.actions
  {
    hide ApplyRunEnd, ApplyAction, ApplyInput, ApplyAccount, ApplyJob;
    assert Runs.Children(s, 1) == {};
    assert FRESH.rows + Runs.ChildRows(2, LIMITS) == BACKING.rows;
  }

  lemma Terminate(s: Store)
    requires Parent(s, RunStatus.Running, BACKING) && Child(s, FRESH)
    requires 10 in s.actions && s.actions[10].status.Running? && s.actions[10].slot == Slot(1, 0, 0)
    ensures var s' := Apply(s, Tx.TerminateRun(1, None));
      Parent(s', RunStatus.Blocked, FREED) && Child(s', FRESH)
  {
    hide ApplyRun, ApplyAction, ApplyInput, ApplyAccount, ApplyJob;
    var swept := s.WithRun(1, s.runs[1].(budget := FREED)).(actions := SweepActions(s.actions, {1}));
    assert swept.actions[10] == s.actions[10];
    assert swept.HasUncertainEffects(1);
  }

  lemma Hold(s: Store, run: Id, b: Budget)
    requires run in s.runs && s.runs[run].budget == b && (b == FRESH || b == FREED)
    ensures var s' := Apply(s, Tx.ReserveBudget(run, TOOL, ToolCalls, 1, None));
      s' == s.WithRun(run, s.runs[run].(budget := Spending(b)))
  {
    hide ApplyRun, ApplyRunEnd, ApplyAction, ApplyInput, ApplyJob;
    NothingHeld(b);
  }

  lemma NothingHeld(b: Budget)
    requires b == FRESH || b == FREED
    ensures SumHeld(b.rows, ToolCalls) == 0 && Find(b.rows, TOOL).None?
  {
    if b == FREED {
      ReleaseAllEvolves(BACKING);
      assert forall i :: 0 <= i < |BACKING.rows| ==> BACKING.rows[i].key.ChildKey?;
    }
  }

  lemma Use(s: Store, run: Id, b: Budget)
    requires run in s.runs && s.runs[run].budget == Spending(b) && (b == FRESH || b == FREED)
    ensures var s' := Apply(s, Tx.SettleBudget(run, TOOL, 1, None));
      s' == s.WithRun(run, s.runs[run].(budget := Spent(b)))
  {
    UseTx(s, run, b);
    hide ApplyRun, ApplyRunEnd, ApplyAction, ApplyInput, ApplyJob, Accounts.SettleBudget, Spending, Spent, FREED, FRESH;
  }

  lemma UseTx(s: Store, run: Id, b: Budget)
    requires run in s.runs && s.runs[run].budget == Spending(b) && (b == FRESH || b == FREED)
    ensures Accounts.SettleBudget(s, run, TOOL, 1, None).store == s.WithRun(run, s.runs[run].(budget := Spent(b)))
  {
    Settling(b);
    hide Budget.Settle, Spending, Spent, Find, FREED, FRESH;
    Charged(s, run, s.runs[run].budget.Settle(TOOL, 1));
    hide Accounts.Charge;
  }

  lemma Charged(s: Store, run: Id, move: (Budget, Result<Reservation>))
    requires run in s.runs
    ensures Accounts.Charge(s, run, None, move).store == s.WithRun(run, s.runs[run].(budget := move.0))
  {
  }

  lemma Settling(b: Budget)
    requires b == FRESH || b == FREED
    ensures Find(Spending(b).rows, TOOL).Some?
    ensures Spending(b).Settle(TOOL, 1).0 == Spent(b)
  {
    NothingHeld(b);
    var n := |b.rows|;
    var rows := Spending(b).rows;
    assert rows[..n] == b.rows;
    assert Find(rows, TOOL) == Some(n);
    var free := rows[n := rows[n].Freed()];
    assert free[..n] == b.rows;
    assert SumHeld(free, ToolCalls) == 0;
    assert rows[n := rows[n].(status := Settled, actual := 1)] == Spent(b).rows;
  }

  lemma TerminatedBesideChild() returns (s: Store)
    ensures Leads(EMPTY_STORE, s) && Parent(s, RunStatus.Blocked, FREED) && Child(s, FRESH)
  {
    hide *;
    LeadsNowhere(EMPTY_STORE);
    s := EMPTY_STORE;
    Begin();
    s := Go(s, Tx.AdmitRun(USER, 0, 0, LIMITS, None, 1, 1));
    Start(s);
    s := Go(s, Tx.EnsureRunning(1, None));
    Propose(s);
    s := Go(s, Tx.AdmitAction(USER, Slot(1, 0, 0), ASKED, None, 10));
    Send(s);
    s := Go(s, Tx.BeginDispatch(10, None, None));
    Fork(s);
    s := Go(s, Tx.AdmitChild(USER, 1, 0, 0, LIMITS, None, 1, 1, 2, 2));
    Terminate(s);
    s := Go(s, Tx.TerminateRun(1, None));
  }

  /** The child still spends its whole limit, and so does the parent, which has that limit only once. */
  lemma ForcedEndingOverspends() returns (s: Store)
    ensures Leads(EMPTY_STORE, s)
    ensures 1 in s.runs && 2 in s.runs && s.runs[2].parent == Some(1) && s.runs[1].budget.limits.tools == Some(1)
    ensures s.runs[1].budget.used.tools + s.runs[2].budget.used.tools == 2
  {
    s := TerminatedBesideChild();
    hide Apply, Leads;
    Hold(s, 1, FREED);
    s := Go(s, Tx.ReserveBudget(1, TOOL, ToolCalls, 1, None));
    Use(s, 1, FREED);
    s := Go(s, Tx.SettleBudget(1, TOOL, 1, None));
    Hold(s, 2, FRESH);
    s := Go(s, Tx.ReserveBudget(2, TOOL, ToolCalls, 1, None));
    Use(s, 2, FRESH);
    s := Go(s, Tx.SettleBudget(2, TOOL, 1, None));
  }
}
