/**
 The restartable model loop. However often a turn is cut off and begun again, by whichever worker, it is
 charged once, each of its tool calls is charged once, and no more turns are closed than were charged.
 */
module ModelTurns {
  import opened Wrappers
  import opened Budgets
  import opened Records
  import opened Evolution
  import opened Kernel
  import opened KernelEvolution
  import opened RunAccounts
  import opened BudgetTrees
  import Accounts = AccountTransactions

  // ---- Runners beside the kernel ----

  /** A process that came back from settling a turn of a Run; only from there does it go on to close the turn. */
  datatype Runner = Runner(run: Id, turn: nat)

  datatype System = System(store: Store, runners: seq<Runner>)

  datatype Step =
    | Environment(tx: Tx)
    | Settle(run: Id, turn: nat, claim: Option<Claim>)
    | Close(i: nat, valid: bool, claim: Option<Claim>)

  /** Reservations under a turn's or a tool call's key are only ever made and settled the way the loop does it. */
  predicate LoopKeys(tx: Tx) {
    && (tx.ReserveBudget? ==>
          && (tx.reservation.TurnKey? ==> tx.dimension.ModelTurns?)
          && (tx.reservation.ToolKey? ==> tx.dimension.ToolCalls?))
    && (tx.SettleBudget? && (tx.reservation.TurnKey? || tx.reservation.ToolKey?) ==> tx.actual == 1)
  }

  predicate Allowed(step: Step) {
    step.Environment? ==> LoopKeys(step.tx) && !step.tx.MarkModelCall?
  }

  ghost function Next(sys: System, step: Step): System {
    match step
    case Environment(tx) => sys.(store := Apply(sys.store, tx))
    case Settle(run, turn, claim) =>
      var c := Accounts.SettleBudget(sys.store, run, TurnKey(turn), 1, claim);
      System(c.store, if c.result.Ok? then sys.runners + [Runner(run, turn)] else sys.runners)
    case Close(i, valid, claim) =>
      if i < |sys.runners|
      then sys.(store := Accounts.MarkModelCall(sys.store, sys.runners[i].run, sys.runners[i].turn, valid, claim).store)
      else sys
  }

  // ---- Accounts ----

  predicate RowOk(row: Reservation) {
    && (row.key.TurnKey? ==> row.dimension.ModelTurns? && (row.status.Settled? ==> row.actual == 1))
    && (row.key.ToolKey? ==> row.dimension.ToolCalls? && (row.status.Settled? ==> row.actual == 1))
  }

  ghost predicate RowsOk(b: Budget) {
    forall i :: 0 <= i < |b.rows| ==> RowOk(b.rows[i])
  }

  predicate TurnSettled(b: Budget, turn: nat) {
    exists i :: 0 <= i < |b.rows| && b.rows[i].key == TurnKey(turn) && b.rows[i].status.Settled?
  }

  lemma RowsStep(b: Budget, b': Budget, tx: Tx, r: Id)
    requires RowsOk(b) && BudgetMove(b, b', tx, r) && LoopKeys(tx)
    ensures RowsOk(b')
  {
    forall i | 0 <= i < |b'.rows| ensures RowOk(b'.rows[i]) {
      assert i < |b.rows| ==> RowOk(b.rows[i]);
    }
  }

  lemma SettledStays(b: Budget, b': Budget, turn: nat)
    requires BudgetEvolves(b, b') && TurnSettled(b, turn)
    ensures TurnSettled(b', turn)
  {
    var i :| 0 <= i < |b.rows| && b.rows[i].key == TurnKey(turn) && b.rows[i].status.Settled?;
    assert RowEvolves(b.rows[i], b'.rows[i]);
  }

  /** Settling under a turn's key, when it succeeds, leaves that turn settled. */
  lemma SettleSettles(b: Budget, turn: nat)
    requires b.Settle(TurnKey(turn), 1).1.Ok?
    ensures TurnSettled(b.Settle(TurnKey(turn), 1).0, turn)
  {
    var at := Find(b.rows, TurnKey(turn)).value;
    assert b.Settle(TurnKey(turn), 1).0.rows[at].status.Settled?;
  }

  ghost function ClosedTurns(r: Run): set<nat> {
    set t | t in r.calls && CallClosed(r.calls[t])
  }

  ghost predicate RunOk(r: Run) {
    RowsOk(r.budget) && forall t :: t in ClosedTurns(r) ==> TurnSettled(r.budget, t)
  }

  ghost predicate SystemOk(sys: System) {
    && Sound(sys.store)
    && (forall r :: r in sys.store.runs ==> RunOk(sys.store.runs[r]))
    && (forall i :: 0 <= i < |sys.runners| ==>
          sys.runners[i].run in sys.store.runs
            && TurnSettled(sys.store.runs[sys.runners[i].run].budget, sys.runners[i].turn))
  }

  lemma RunStep(r: Id, run: Run, s': Store, tx: Tx)
    requires RunOk(run) && Accounted(r, run, s', tx) && RunEvolves(run, s'.runs[r]) && LoopKeys(tx)
    requires tx.MarkModelCall? && tx.run == r ==> TurnSettled(run.budget, tx.turn)
    ensures RunOk(s'.runs[r])
  {
    hide LogOk, LogExtends, BudgetEvolves, RowOk, LoopKeys;
    var run' := s'.runs[r];
    assert RowsOk(run'.budget) by { RowsStep(run.budget, run'.budget, tx, r); }
    hide BudgetMove, RowsOk;
    forall t | t in ClosedTurns(run') ensures TurnSettled(run'.budget, t) {
      assert TurnSettled(run.budget, t);
      SettledStays(run.budget, run'.budget, t);
    }
  }

  /** One transaction of the environment or of a runner. */
  lemma TxKeeps(sys: System, tx: Tx)
    requires SystemOk(sys) && LoopKeys(tx)
    requires tx.MarkModelCall? && tx.run in sys.store.runs ==> TurnSettled(sys.store.runs[tx.run].budget, tx.turn)
    ensures SystemOk(sys.(store := Apply(sys.store, tx)))
  {
    hide Apply, Sound, RunEvolves, RunOk, TurnSettled, LoopKeys, BudgetEvolves;
    var s, s' := sys.store, Apply(sys.store, tx);
    SoundAfter(s, tx);
    forall r | r in s'.runs ensures RunOk(s'.runs[r]) {
      if r in s.runs {
        StepRun(s, tx, r);
        StepAccounts(s, tx, r);
        RunStep(r, s.runs[r], s', tx);
      } else {
        NewRunOk(s, tx, r);
      }
    }
    forall i | 0 <= i < |sys.runners|
      ensures sys.runners[i].run in s'.runs && TurnSettled(s'.runs[sys.runners[i].run].budget, sys.runners[i].turn)
    {
      var run := sys.runners[i].run;
      StepRun(s, tx, run);
      BudgetAfter(s.runs[run], s'.runs[run]);
      SettledStays(s.runs[run].budget, s'.runs[run].budget, sys.runners[i].turn);
    }
  }

  lemma BudgetAfter(r: Run, r': Run)
    requires RunEvolves(r, r')
    ensures BudgetEvolves(r.budget, r'.budget)
  {
  }

  lemma SoundAfter(s: Store, tx: Tx)
    requires Sound(s)
    ensures Sound(Apply(s, tx))
  {
    hide *;
    StepParts(s, tx);
  }

  lemma NewRunOk(s: Store, tx: Tx, r: Id)
    requires Sound(s) && r in Apply(s, tx).runs && r !in s.runs
    ensures RunOk(Apply(s, tx).runs[r])
  {
    hide Apply, Sound, ActionsEvolve, JobsEvolve, RunEvolves, LogOk, Backs;
    StepParts(s, tx);
    assert NewRun(s, Apply(s, tx), r);
  }

  lemma SettleKeeps(sys: System, run: Id, turn: nat, claim: Option<Claim>)
    requires SystemOk(sys)
    ensures SystemOk(Next(sys, Settle(run, turn, claim)))
  {
    hide Sound, RunOk;
    var tx := SettleBudget(run, TurnKey(turn), 1, claim);
    TxKeeps(sys, tx);
    var c := Accounts.SettleBudget(sys.store, run, TurnKey(turn), 1, claim);
    assert Apply(sys.store, tx) == c.store;
    if c.result.Ok? {
      SettleSettles(sys.store.runs[run].budget, turn);
    }
  }

  lemma CloseKeeps(sys: System, i: nat, valid: bool, claim: Option<Claim>)
    requires SystemOk(sys)
    ensures SystemOk(Next(sys, Close(i, valid, claim)))
  {
    hide Sound, RunOk, TurnSettled;
    if i < |sys.runners| {
      var tx := MarkModelCall(sys.runners[i].run, sys.runners[i].turn, valid, claim);
      TxKeeps(sys, tx);
      assert Apply(sys.store, tx) == Accounts.MarkModelCall(sys.store, tx.run, tx.turn, valid, claim).store;
    }
  }

  ghost function Reached(steps: seq<Step>): Option<System> {
    if steps == [] then Some(System(EMPTY_STORE, []))
    else
      var before, step := Reached(steps[..|steps| - 1]), steps[|steps| - 1];
      if before.Some? && Allowed(step) then Some(Next(before.value, step)) else None
  }

  lemma TxKept(sys: System, tx: Tx)
    requires SystemOk(sys) && LoopKeys(tx) && !tx.MarkModelCall?
    ensures SystemOk(sys.(store := Apply(sys.store, tx)))
  {
    hide SystemOk, Apply, LoopKeys;
    TxKeeps(sys, tx);
  }

  /** The transactions a step consists of. */
  function StepTxs(sys: System, step: Step): seq<Tx> {
    match step
    case Environment(tx) => [tx]
    case Settle(run, turn, claim) => [SettleBudget(run, TurnKey(turn), 1, claim)]
    case Close(i, valid, claim) =>
      if i < |sys.runners| then [MarkModelCall(sys.runners[i].run, sys.runners[i].turn, valid, claim)] else []
  }

  lemma StepIsTxs(sys: System, step: Step)
    ensures Next(sys, step).store == Execute(sys.store, StepTxs(sys, step))
  {
    hide Accounts.SettleBudget, Accounts.MarkModelCall, ApplyRun, ApplyRunEnd, ApplyAction, ApplyInput, ApplyJob;
    var txs := StepTxs(sys, step);
    if txs != [] {
      assert Execute(sys.store, txs) == Apply(Execute(sys.store, txs[..0]), txs[0]);
      assert txs[..0] == [];
    }
  }

  lemma NextKeeps(sys: System, step: Step)
    requires SystemOk(sys) && Allowed(step)
    ensures SystemOk(Next(sys, step))
  {
    hide SystemOk, Apply, LoopKeys, Accounts.SettleBudget, Accounts.MarkModelCall;
    match step
    case Environment(tx) => TxKept(sys, tx);
    case Settle(run, turn, claim) => SettleKeeps(sys, run, turn, claim);
    case Close(i, valid, claim) => CloseKeeps(sys, i, valid, claim);
  }

  lemma {:induction false} ReachedOk(steps: seq<Step>, sys: System)
    requires Reached(steps) == Some(sys)
    ensures SystemOk(sys)
  {
    if steps == [] {
      EmptySound();
    } else {
      hide SystemOk, Next, Allowed;
      var before := Reached(steps[..|steps| - 1]).value;
      ReachedOk(steps[..|steps| - 1], before);
      NextKeeps(before, steps[|steps| - 1]);
    }
  }

  /** A state reached with runners is one the kernel reaches. */
  lemma {:induction false} ReachedByKernel(steps: seq<Step>, sys: System) returns (txs: seq<Tx>)
    requires Reached(steps) == Some(sys)
    ensures sys.store == Execute(EMPTY_STORE, txs)
  {
    hide Next, Allowed, Apply;
    if steps == [] {
      txs := [];
    } else {
      var before, step := Reached(steps[..|steps| - 1]).value, steps[|steps| - 1];
      var earlier := ReachedByKernel(steps[..|steps| - 1], before);
      StepIsTxs(before, step);
      ExecuteConcat(EMPTY_STORE, earlier, StepTxs(before, step));
      txs := earlier + StepTxs(before, step);
    }
  }

  // ---- The promises ----

  /** Distinct settled turns are distinct rows, each spending one turn. */
  lemma {:induction false} SpentCoversTurns(rows: seq<Reservation>, turns: set<nat>)
    requires UniqueKeys(rows) && (forall i :: 0 <= i < |rows| ==> RowOk(rows[i]))
    requires forall t :: t in turns ==>
               exists i :: 0 <= i < |rows| && rows[i].key == TurnKey(t) && rows[i].status.Settled?
    ensures |turns| <= SumSpent(rows, ModelTurns)
    decreases |rows|
  {
    if rows == [] {
      assert turns == {};
    } else {
      var n := |rows| - 1;
      var last := rows[n];
      var rest := if last.key.TurnKey? && last.status.Settled? then turns - {last.key.turn} else turns;
      forall t | t in rest
        ensures exists i :: 0 <= i < n && rows[..n][i].key == TurnKey(t) && rows[..n][i].status.Settled?
      {
        var i :| 0 <= i < |rows| && rows[i].key == TurnKey(t) && rows[i].status.Settled?;
        assert rows[..n][i] == rows[i];
      }
      SpentCoversTurns(rows[..n], rest);
      assert RowOk(last);
    }
  }

  /**
   However many times turns are cut off and rerun: the model calls closed as processed or invalid are at
   most the turns charged, and so at most the turns the Run may take.
   */
  lemma ClosedCallsAreCharged(steps: seq<Step>, sys: System, r: Id)
    requires Reached(steps) == Some(sys) && r in sys.store.runs
    ensures var b := sys.store.runs[r].budget;
      && |ClosedTurns(sys.store.runs[r])| <= b.used.At(ModelTurns)
      && (b.limits.At(ModelTurns).Some? ==> |ClosedTurns(sys.store.runs[r])| <= b.limits.At(ModelTurns).value)
  {
    hide Apply, Sound;
    ReachedOk(steps, sys);
    var txs := ReachedByKernel(steps, sys);
    var run := sys.store.runs[r];
    BudgetsAlwaysOk(txs);
    assert BudgetOk(sys.store, r);
    assert RunOk(run);
    SpentCoversTurns(run.budget.rows, ClosedTurns(run));
    NoRunOverspends(txs, r, ModelTurns);
  }

  /** A tool call of a turn has at most one row in its Run's account, and that row spends at most one call. */
  lemma ToolCallsAreChargedOnce(steps: seq<Step>, sys: System, r: Id, turn: nat, index: nat, i: nat, j: nat)
    requires Reached(steps) == Some(sys) && r in sys.store.runs
    requires var rows := sys.store.runs[r].budget.rows;
      i < |rows| && j < |rows| && rows[i].key == ToolKey(turn, index) == rows[j].key
    ensures i == j && forall d: Dimension :: Spent(sys.store.runs[r].budget.rows[i], d) <= if d.ToolCalls? then 1 else 0
  {
    hide Apply, Sound;
    ReachedOk(steps, sys);
    var txs := ReachedByKernel(steps, sys);
    BudgetsAlwaysOk(txs);
    assert BudgetOk(sys.store, r);
    assert RunOk(sys.store.runs[r]) && RowOk(sys.store.runs[r].budget.rows[i]);
  }

  /** A slot of a turn holds at most one Action, whatever is rerun. */
  lemma SlotsHoldOneAction(txs: seq<Tx>, a: Id, b: Id)
    requires var s := Execute(EMPTY_STORE, txs);
      a in s.actions && b in s.actions && s.actions[a].slot == s.actions[b].slot
    ensures a == b
  {
    hide Apply;
    ReachableSound(txs);
    assert ActionRefsOk(Execute(EMPTY_STORE, txs), a) && ActionRefsOk(Execute(EMPTY_STORE, txs), b);
  }
}
