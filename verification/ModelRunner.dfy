/** The runner's way through a committed model response: charge the turn, carry out its operations, close the call. */
module ModelRunner {
  import opened Wrappers
  import opened Budgets
  import opened Records
  import opened Kernel
  import opened ModelTurns
  import opened RunControllers
  import Accounts = AccountTransactions

  // ---- Steps of the system of runners ----

  /** The second state is reached some steps after the first ones. */
  ghost predicate Extends(steps: seq<Step>, sys: System) {
    exists more :: Reached(steps + more) == Some(sys)
  }

  /** Wherever the first state is reached, the second is reached from it. */
  ghost predicate Leads(sys: System, sys': System) {
    forall steps :: Reached(steps) == Some(sys) ==> Extends(steps, sys')
  }

  lemma LeadsNowhere(sys: System)
    ensures Leads(sys, sys)
  {
    hide Next;
    forall steps | Reached(steps) == Some(sys) ensures Extends(steps, sys) {
      assert steps + [] == steps;
    }
  }

  lemma LeadsOn(sys: System, sys': System, step: Step)
    requires Leads(sys, sys') && Allowed(step)
    ensures Leads(sys, Next(sys', step))
  {
    hide Next, Allowed;
    forall steps | Reached(steps) == Some(sys) ensures Extends(steps, Next(sys', step)) {
      assert Extends(steps, sys');
      var more :| Reached(steps + more) == Some(sys');
      var all := steps + (more + [step]);
      assert all[..|all| - 1] == steps + more && all[|all| - 1] == step;
    }
  }

  lemma ReserveStep(sys: System, sys': System, run: Id, key: ReservationKey, d: Dimension, amount: int,
                    claim: Option<Claim>)
    requires Leads(sys, sys') && LoopKeys(Tx.ReserveBudget(run, key, d, amount, claim))
    ensures Leads(sys, sys'.(store := Accounts.ReserveBudget(sys'.store, run, key, d, amount, claim).store))
  {
    var tx := Tx.ReserveBudget(run, key, d, amount, claim);
    LeadsOn(sys, sys', Environment(tx));
    hide Leads, Accounts.ReserveBudget;
    assert Apply(sys'.store, tx) == Accounts.ReserveBudget(sys'.store, run, key, d, amount, claim).store;
  }

  lemma SpendStep(sys: System, sys': System, run: Id, key: ReservationKey, actual: int, claim: Option<Claim>)
    requires Leads(sys, sys') && LoopKeys(Tx.SettleBudget(run, key, actual, claim))
    ensures Leads(sys, sys'.(store := Accounts.SettleBudget(sys'.store, run, key, actual, claim).store))
  {
    var tx := Tx.SettleBudget(run, key, actual, claim);
    LeadsOn(sys, sys', Environment(tx));
    hide Leads, Accounts.SettleBudget;
    assert Apply(sys'.store, tx) == Accounts.SettleBudget(sys'.store, run, key, actual, claim).store;
  }

  lemma SettleStep(sys: System, sys': System, run: Id, turn: nat, claim: Option<Claim>)
    requires Leads(sys, sys')
    ensures var c := Accounts.SettleBudget(sys'.store, run, TurnKey(turn), 1, claim);
      Leads(sys, System(c.store, if c.result.Ok? then sys'.runners + [Runner(run, turn)] else sys'.runners))
  {
    LeadsOn(sys, sys', Settle(run, turn, claim));
    hide Leads, Accounts.SettleBudget;
  }

  lemma CloseStep(sys: System, sys': System, i: nat, valid: bool, claim: Option<Claim>)
    requires Leads(sys, sys') && i < |sys'.runners|
    ensures Leads(sys, sys'.(store :=
      Accounts.MarkModelCall(sys'.store, sys'.runners[i].run, sys'.runners[i].turn, valid, claim).store))
  {
    LeadsOn(sys, sys', Close(i, valid, claim));
    hide Leads, Accounts.MarkModelCall;
  }

  // ---- What stays charged ----

  /** The row under this key is settled. */
  ghost predicate KeySettled(b: Budget, key: ReservationKey) {
    exists i :: 0 <= i < |b.rows| && b.rows[i].key == key && b.rows[i].status.Settled?
  }

  ghost predicate Charged(s: Store, run: Id, key: ReservationKey) {
    run in s.runs && KeySettled(s.runs[run].budget, key)
  }

  lemma SettledKept(b: Budget, b': Budget, key: ReservationKey)
    requires BudgetEvolves(b, b') && KeySettled(b, key)
    ensures KeySettled(b', key)
  {
    var i :| 0 <= i < |b.rows| && b.rows[i].key == key && b.rows[i].status.Settled?;
    assert RowEvolves(b.rows[i], b'.rows[i]);
  }

  lemma ReserveKeeps(s: Store, run: Id, key: ReservationKey, d: Dimension, amount: int, claim: Option<Claim>,
                     charged: ReservationKey)
    requires Charged(s, run, charged)
    ensures Charged(Accounts.ReserveBudget(s, run, key, d, amount, claim).store, run, charged)
  {
    ReserveEvolves(s.runs[run].budget, key, d, amount);
    SettledKept(s.runs[run].budget, s.runs[run].budget.Reserve(key, d, amount).0, charged);
    hide KeySettled, Budget.Reserve, BudgetEvolves, Store.Fence;
  }

  lemma SpendKeeps(s: Store, run: Id, key: ReservationKey, actual: int, claim: Option<Claim>, charged: ReservationKey)
    requires Charged(s, run, charged)
    ensures Charged(Accounts.SettleBudget(s, run, key, actual, claim).store, run, charged)
  {
    SettleEvolves(s.runs[run].budget, key, actual);
    SettledKept(s.runs[run].budget, s.runs[run].budget.Settle(key, actual).0, charged);
    hide KeySettled, Budget.Settle, BudgetEvolves, Store.Fence, Find;
  }

  lemma SpendCharges(s: Store, run: Id, key: ReservationKey, actual: int, claim: Option<Claim>)
    requires Accounts.SettleBudget(s, run, key, actual, claim).result.Ok?
    ensures Charged(Accounts.SettleBudget(s, run, key, actual, claim).store, run, key)
  {
    var s' := Accounts.SettleBudget(s, run, key, actual, claim).store;
    var at := Find(s.runs[run].budget.rows, key).value;
    assert s'.runs[run].budget.rows[at].status.Settled?;
  }

  lemma MarkKeeps(s: Store, run: Id, turn: nat, valid: bool, claim: Option<Claim>, charged: ReservationKey)
    requires Charged(s, run, charged)
    ensures Charged(Accounts.MarkModelCall(s, run, turn, valid, claim).store, run, charged)
  {
    hide Store.Fence;
    var s' := Accounts.MarkModelCall(s, run, turn, valid, claim).store;
    assert s'.runs[run].budget == s.runs[run].budget;
  }

  /** The calls with index below `n` of the turn are charged, and so is the turn. */
  ghost predicate AllCharged(s: Store, run: Id, turn: nat, n: nat) {
    Charged(s, run, TurnKey(turn)) && forall k: nat :: k < n ==> Charged(s, run, ToolKey(turn, k))
  }

  lemma AllChargedOn(s: Store, s': Store, s'': Store, run: Id, turn: nat, n: nat, claim: Option<Claim>)
    requires AllCharged(s, run, turn, n)
    requires s' == Accounts.ReserveBudget(s, run, ToolKey(turn, n), ToolCalls, 1, claim).store
    requires s'' == Accounts.SettleBudget(s', run, ToolKey(turn, n), 1, claim).store
    ensures AllCharged(s'', run, turn, n)
    ensures Accounts.SettleBudget(s', run, ToolKey(turn, n), 1, claim).result.Ok? ==> AllCharged(s'', run, turn, n + 1)
  {
    hide Charged, Accounts.ReserveBudget, Accounts.SettleBudget;
    ReserveKeeps(s, run, ToolKey(turn, n), ToolCalls, 1, claim, TurnKey(turn));
    SpendKeeps(s', run, ToolKey(turn, n), 1, claim, TurnKey(turn));
    forall k: nat | k < n ensures Charged(s'', run, ToolKey(turn, k)) {
      ReserveKeeps(s, run, ToolKey(turn, n), ToolCalls, 1, claim, ToolKey(turn, k));
      SpendKeeps(s', run, ToolKey(turn, n), 1, claim, ToolKey(turn, k));
    }
    if Accounts.SettleBudget(s', run, ToolKey(turn, n), 1, claim).result.Ok? {
      SpendCharges(s', run, ToolKey(turn, n), 1, claim);
    }
  }

  lemma AllChargedMarked(s: Store, run: Id, turn: nat, n: nat, valid: bool, claim: Option<Claim>)
    requires AllCharged(s, run, turn, n)
    ensures AllCharged(Accounts.MarkModelCall(s, run, turn, valid, claim).store, run, turn, n)
  {
    hide Charged, Accounts.MarkModelCall;
    var s' := Accounts.MarkModelCall(s, run, turn, valid, claim).store;
    MarkKeeps(s, run, turn, valid, claim, TurnKey(turn));
    forall k: nat | k < n
      ensures Charged(s', run, ToolKey(turn, k)) { MarkKeeps(s, run, turn, valid, claim, ToolKey(turn, k)); }
  }

  /** The kernel refuses what the runner would do next. */
  predicate Refused(s: Store, run: Id, turn: nat, done: nat, operations: nat, claim: Option<Claim>) {
    if done < operations
    then Accounts.ReserveBudget(s, run, ToolKey(turn, done), ToolCalls, 1, claim).result.Err?
         || Accounts.SettleBudget(s, run, ToolKey(turn, done), 1, claim).result.Err?
    else Accounts.MarkModelCall(s, run, turn, true, claim).result.Err?
  }

  lemma RefusalsChangeNothing(s: Store, run: Id, key: ReservationKey, claim: Option<Claim>)
    ensures var c := Accounts.ReserveBudget(s, run, key, ToolCalls, 1, claim); c.result.Err? ==> c.store == s
    ensures var c := Accounts.SettleBudget(s, run, key, 1, claim); c.result.Err? ==> c.store == s
  {
    if run in s.runs {
      assert s.runs[run := s.runs[run].(budget := s.runs[run].budget)] == s.runs;
    }
  }

  class Runner {
    const controller: RunController

    constructor (controller: RunController)
      ensures this.controller == controller
    {
      this.controller := controller;
    }

    ghost function World(runners: seq<ModelTurns.Runner>): System
      reads this, controller
    {
      System(controller.State(), runners)
    }

    /** Charge the turn and its output, each under its own key. Only a runner that has done so may close the call. */
    method SettleModelUsage(run: Id, turn: nat, maxOutput: int, actualOutput: nat, claim: Option<Claim>,
                            ghost start: System, ghost runners: seq<ModelTurns.Runner>)
      returns (r: Result<()>, ghost after: seq<ModelTurns.Runner>)
      requires Leads(start, World(runners))
      modifies controller
      ensures Leads(start, World(after))
      ensures r.Ok? ==>
                after == runners + [ModelTurns.Runner(run, turn)] && Charged(controller.State(), run, TurnKey(turn))
    {
      hide Leads, Charged, Accounts.ReserveBudget, Accounts.SettleBudget;
      after := runners;
      ReserveStep(start, World(runners), run, TurnKey(turn), Dimension.ModelTurns, 1, claim);
      var charge := controller.ReserveBudget(run, TurnKey(turn), Dimension.ModelTurns, 1, claim);
      if charge.Err? { return Err(charge.error), after; }
      ReserveStep(start, World(runners), run, OutputKey(turn), OutputTokens, maxOutput, claim);
      var output := controller.ReserveBudget(run, OutputKey(turn), OutputTokens, maxOutput, claim);
      if output.Err? { return Err(output.error), after; }
      ghost var s := controller.State();
      SettleStep(start, World(runners), run, turn, claim);
      var charged := controller.SettleBudget(run, TurnKey(turn), 1, claim);
      if charged.Err? { return Err(charged.error), after; }
      after := runners + [ModelTurns.Runner(run, turn)];
      SpendCharges(s, run, TurnKey(turn), 1, claim);
      SpendKeeps(controller.State(), run, OutputKey(turn), actualOutput, claim, TurnKey(turn));
      SpendStep(start, World(after), run, OutputKey(turn), actualOutput, claim);
      var spent := controller.SettleBudget(run, OutputKey(turn), actualOutput, claim);
      if spent.Err? { return Err(spent.error), after; }
      r := Ok(());
    }

    /**
     Carry out the operations of a turn: each is charged before and settled after it, whether it went well
     or not, and the call is closed when all are through. `lost` tells where the lease was lost. What was
     done stays charged; it stops early only where the lease is lost or the next step is refused.
     */
    method ProcessOperations(run: Id, turn: nat, operations: nat, lost: nat -> bool, claim: Option<Claim>,
                             ghost start: System, ghost runners: seq<ModelTurns.Runner>, ghost i: nat)
      returns (r: Result<()>, done: nat)
      requires Leads(start, World(runners)) && i < |runners| && runners[i] == ModelTurns.Runner(run, turn)
      requires Charged(controller.State(), run, TurnKey(turn))
      modifies controller
      ensures Leads(start, World(runners))
      ensures done <= operations && AllCharged(controller.State(), run, turn, done)
      ensures r.Ok? ==>
          done == operations && turn in controller.runs[run].calls && controller.runs[run].calls[turn].status.Processed?
      ensures r.Err? ==> (done > 0 && lost(done - 1)) || Refused(controller.State(), run, turn, done, operations, claim)
    {
      hide Leads, Charged, KeySettled, Accounts.ReserveBudget, Accounts.SettleBudget, Apply, Reached, Next, Allowed,
           Extends, Store.Fence;
      done := 0;
      while done < operations
        invariant done <= operations && Leads(start, World(runners)) && AllCharged(controller.State(), run, turn, done)
      {
        ghost var s := controller.State();
        ReserveStep(start, World(runners), run, ToolKey(turn, done), ToolCalls, 1, claim);
        var reservation := controller.ReserveBudget(run, ToolKey(turn, done), ToolCalls, 1, claim);
        RefusalsChangeNothing(s, run, ToolKey(turn, done), claim);
        if reservation.Err? { return Err(reservation.error), done; }
        ghost var s' := controller.State();
        SpendStep(start, World(runners), run, ToolKey(turn, done), 1, claim);
        var settled := controller.SettleBudget(run, ToolKey(turn, done), 1, claim);
        AllChargedOn(s, s', controller.State(), run, turn, done, claim);
        RefusalsChangeNothing(s', run, ToolKey(turn, done), claim);
        if settled.Err? { return Err(settled.error), done; }
        done := done + 1;
        if lost(done - 1) { return Err(LeaseLost), done; }
      }
      r := Close(run, turn, operations, claim, start, runners, i);
    }

    /** Close the call of a turn all of whose operations are through. */
    method Close(run: Id, turn: nat, operations: nat, claim: Option<Claim>,
                 ghost start: System, ghost runners: seq<ModelTurns.Runner>, ghost i: nat) returns (r: Result<()>)
      requires Leads(start, World(runners)) && i < |runners| && runners[i] == ModelTurns.Runner(run, turn)
      requires AllCharged(controller.State(), run, turn, operations)
      modifies controller
      ensures Leads(start, World(runners)) && AllCharged(controller.State(), run, turn, operations)
      ensures r.Ok? ==> turn in controller.runs[run].calls && controller.runs[run].calls[turn].status.Processed?
      ensures r.Err? ==> Refused(controller.State(), run, turn, operations, operations, claim)
    {
      hide Leads, AllCharged, Apply, Reached, Next, Allowed, Extends, Store.Fence;
      AllChargedMarked(controller.State(), run, turn, operations, true, claim);
      CloseStep(start, World(runners), i, true, claim);
      var closed := controller.MarkModelCall(run, turn, true, claim);
      r := if closed.Err? then Err(closed.error) else Ok(());
    }
  }
}
