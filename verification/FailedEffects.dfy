/**
 An Action dispatched under a lease and closed without a receipt: whether its effect can still come about, by a
 write of an overtaken attempt that is on its way.
 */
module FailedEffects {
  import opened Wrappers
  import opened Vaults
  import opened Records
  import opened Evolution
  import opened Kernel
  import opened KernelEvolution
  import opened Ledgers
  import opened LateWrites
  import opened LocalEffects
  import F = Finality
  import Acts = ActionTransactions

  /** The ledger holds a receipt of the Action. */
  ghost predicate HasEffect(v: Vault, a: Id) {
    exists at :: at in v.ledger && at.key == ActionKey(a)
  }

  /** A write of the Action is on its way, and its precondition holds or may yet come to hold. */
  predicate WriteOnItsWay(sys: System, a: Id) {
    && (exists i :: 0 <= i < |sys.calls| && sys.calls[i].action == a && sys.calls[i].phase.Opened?)
    && Replayable(sys.store, a) && CanStill(sys.vault, OpFor(sys.store, a, 0))
  }

  /** The Action is settled and no approval of it can still be answered. */
  predicate SettledForGood(s: Store, a: Id) {
    F.IsSettled(s, a) && !F.Answerable(s, a)
  }

  /** Nothing has come of the Action, and nothing is on its way. */
  ghost predicate Nothing(sys: System, a: Id) {
    SettledForGood(sys.store, a) && !HasEffect(sys.vault, a) && !WriteOnItsWay(sys, a)
  }

  predicate IsReceipt(step: Step) {
    step.Transact? && step.tx.RecordCancelReceipt?
  }

  // ---- Nothing comes of nothing ----

  /** A settled Action stays settled, with what was bound to it, and is not dispatched again. */
  lemma StoreKeeps(s: Store, tx: Tx, a: Id)
    requires Sound(s) && SettledForGood(s, a) && !tx.RecordCancelReceipt?
    ensures SettledForGood(Apply(s, tx), a) && Apply(s, tx).actions[a] == s.actions[a]
  {
    hide Apply, Sound, F.Answerable, F.RequestsKept, RunsEvolve, JobsEvolve, ActionsEvolve;
    F.UnanswerableStep(s, tx, a);
    F.RequestsStep(s, tx);
    StepParts(s, tx);
    F.StaysUnanswerable(s, Apply(s, tx), a);
  }

  /** Whatever a step does to the kernel is one transaction. */
  lemma StoreStep(sys: System, step: Step, a: Id)
    requires Sound(sys.store) && SettledForGood(sys.store, a) && !IsReceipt(step)
    ensures var s' := Next(sys, step).store; SettledForGood(s', a) && s'.actions[a] == sys.store.actions[a]
  {
    hide Sound, SettledForGood, WriteOp, OpFor, Acts.BeginDispatch, Acts.CompleteAction, Acts.ReconcileLocal;
    match step
    case Transact(tx) => StoreKeeps(sys.store, tx, a);
    case Client(op) => SettledIsThere(sys.store, a);
    case Begin(action, claim) => StoreKeeps(sys.store, BeginDispatch(action, Some(claim), Some(ActionKey(action))), a);
    case Write(i, id) => SettledIsThere(sys.store, a);
    case Complete(i) =>
      SettledIsThere(sys.store, a);
      if i < |sys.calls| {
        var call := sys.calls[i];
        var answer := call.phase.Answer();
        var result := if answer.Some? then Envelope(answer.value) else Opaque(0);
        StoreKeeps(sys.store, CompleteAction(call.action, answer.Some?, result, Some(call.claim)), a);
      }
    case ReadReceipt(owner, action, claim) => StoreKeeps(sys.store, ReconcileLocal(sys.vault, owner, action, claim), a);
  }

  lemma SettledIsThere(s: Store, a: Id)
    requires SettledForGood(s, a)
    ensures a in s.actions
  {
  }

  /** The bound write is a matter of the Action's row alone. */
  lemma SameWrite(s: Store, s': Store, a: Id)
    requires a in s.actions && a in s'.actions && s'.actions[a] == s.actions[a]
    ensures Replayable(s', a) == Replayable(s, a) && (Replayable(s, a) ==> OpFor(s', a, 0) == OpFor(s, a, 0))
  {
  }

  /** A settled Action is not dispatched. */
  lemma NotBegun(s: Store, a: Id, claim: Claim)
    requires F.IsSettled(s, a)
    ensures Acts.BeginDispatch(s, a, Some(claim), Some(ActionKey(a))).result != Ok(true)
  {
    hide LeaseMatches, Acts.ClaimCovers;
  }

  /**
   A write that is no carried-out write of the Action leaves it without effect, and what cannot be carried out
   stays so.
   */
  lemma OtherWrite(v: Vault, op: Op, a: Id, bound: Op)
    requires !HasEffect(v, a) && (op.key == ActionKey(a) ==> !Commits(v, op))
    ensures !HasEffect(WriteOp(v, op).0, a) && (!CanStill(v, bound) ==> !CanStill(WriteOp(v, op).0, bound))
  {
    CommitsOrUnchanged(v, op);
    hide WriteOp;
    if !CanStill(v, bound) { NeverStep(v, bound, op); }
    hide CanStill;
    forall at | at in WriteOp(v, op).0.ledger ensures at.key != ActionKey(a) {
      if at in v.ledger { assert at.key != ActionKey(a); }
    }
  }

  /** The effect of a step on the resource tables is at most one write. */
  lemma VaultStep(sys: System, step: Step, a: Id)
    requires Nothing(sys, a) && Allowed(sys, step)
    ensures var v' := Next(sys, step).vault;
      && !HasEffect(v', a)
      && (Replayable(sys.store, a) && !CanStill(sys.vault, OpFor(sys.store, a, 0)) ==>
          !CanStill(v', OpFor(sys.store, a, 0)))
  {
    hide SettledForGood, HasEffect, WriteOp, OpFor, CanStill, Commits, Acts.BeginDispatch, Acts.CompleteAction,
         Acts.ReconcileLocal, Apply;
    if step.Client? {
      OtherWrite(sys.vault, step.op, a, if Replayable(sys.store, a) then OpFor(sys.store, a, 0) else step.op);
    } else if step.Write? && step.i < |sys.calls| && sys.calls[step.i].phase == Opened {
      var b := sys.calls[step.i].action;
      if Replayable(sys.store, b) {
        var op := OpFor(sys.store, b, step.id);
        OpForIs(sys.store, b, step.id);
        if b == a { NotCarriedOut(sys.vault, sys.store, a, step.id); }
        OtherWrite(sys.vault, op, a, if Replayable(sys.store, a) then OpFor(sys.store, a, 0) else op);
      }
    }
  }

  lemma NotCarriedOut(v: Vault, s: Store, a: Id, id: Id)
    requires Replayable(s, a) && !CanStill(v, OpFor(s, a, 0))
    ensures !Commits(v, OpFor(s, a, id)) && !CanStill(v, OpFor(s, a, id))
  {
    CommitsIff(v, OpFor(s, a, id));
    hide Commits, WellFormed;
    assert WellFormed(OpFor(s, a, id)) == WellFormed(OpFor(s, a, 0)) by { OpForIs(s, a, id); }
  }

  /** Calls are only added by dispatches, and only leave the state of being on their way. */
  lemma CallsStep(sys: System, step: Step, a: Id)
    requires F.IsSettled(sys.store, a)
    ensures var calls' := Next(sys, step).calls;
      forall i :: 0 <= i < |calls'| && calls'[i].action == a && calls'[i].phase.Opened? ==>
        i < |sys.calls| && sys.calls[i].action == a && sys.calls[i].phase.Opened?
  {
    hide F.IsSettled, WriteOp, OpFor, Acts.BeginDispatch, Acts.CompleteAction, Acts.ReconcileLocal, Apply;
    if step.Begin? { NotBegun(sys.store, a, step.claim); }
  }

  lemma NothingStep(sys: System, step: Step, a: Id)
    requires SystemOk(sys) && Allowed(sys, step) && !IsReceipt(step) && Nothing(sys, a)
    ensures Nothing(Next(sys, step), a)
  {
    SystemSound(sys);
    hide SystemOk, Sound, Next, Allowed, HasEffect, CanStill, OpFor, F.Answerable, IsReceipt;
    StoreStep(sys, step, a);
    VaultStep(sys, step, a);
    CallsStep(sys, step, a);
    SameWrite(sys.store, Next(sys, step).store, a);
  }

  lemma {:induction false} NothingForever(steps: seq<Step>, more: seq<Step>, a: Id)
    requires Reached(steps).Some? && Reached(steps + more).Some? && Nothing(Reached(steps).value, a)
    requires forall i :: 0 <= i < |more| ==> !IsReceipt(more[i])
    ensures Nothing(Reached(steps + more).value, a)
  {
    if more == [] {
      assert steps + more == steps;
    } else {
      hide Nothing, SystemOk, Next, Allowed, IsReceipt;
      var last := |more| - 1;
      assert (steps + more)[..|steps + more| - 1] == steps + more[..last];
      NothingForever(steps, more[..last], a);
      ReachedOk(steps + more[..last], Reached(steps + more[..last]).value);
      NothingStep(Reached(steps + more[..last]).value, more[last], a);
    }
  }

  // ---- The late write arrives ----

  /** Client writes go to the resource tables and nowhere else. */
  lemma {:induction false} Clients(steps: seq<Step>, ops: seq<Op>) returns (more: seq<Step>)
    requires Reached(steps).Some? && forall i :: 0 <= i < |ops| ==> ByClient(ops[i])
    ensures |more| == |ops| && forall i :: 0 <= i < |more| ==> more[i].Client?
    ensures var sys := Reached(steps).value;
      Reached(steps + more) == Some(sys.(vault := WriteAll(sys.vault, ops)))
  {
    if ops == [] {
      more := [];
      assert steps + more == steps;
    } else {
      hide WriteOp;
      var last := |ops| - 1;
      var before := Clients(steps, ops[..last]);
      more := before + [Client(ops[last])];
      assert (steps + more)[..|steps + more| - 1] == steps + before;
    }
  }

  /** What is on its way can arrive. */
  lemma Arrives(steps: seq<Step>, a: Id) returns (more: seq<Step>)
    requires Reached(steps).Some? && WriteOnItsWay(Reached(steps).value, a) && !HasEffect(Reached(steps).value.vault, a)
    ensures Reached(steps + more).Some? && HasEffect(Reached(steps + more).value.vault, a)
    ensures forall i :: 0 <= i < |more| ==> !more[i].Transact?
    ensures Reached(steps + more).value.store == Reached(steps).value.store
  {
    var sys := Reached(steps).value;
    var i :| 0 <= i < |sys.calls| && sys.calls[i].action == a && sys.calls[i].phase.Opened?;
    var id := Bound(sys.vault.artifacts.Keys);
    var op := OpFor(sys.store, a, id);
    OpForIs(sys.store, a, id);
    hide OpFor, WellFormed, Reached, WriteOp;
    assert CanStill(sys.vault, op) by { CanStillAny(sys.vault, sys.store, a, id); }
    assert op.At() !in sys.vault.ledger;
    hide CanStill;
    var ops := LateCommit(sys.vault, op);
    var before := Clients(steps, ops);
    more := before + [Write(i, id)];
    OneStep(steps, before, Write(i, id));
    WriteArrives(sys.(vault := WriteAll(sys.vault, ops)), i, id, a);
    hide WriteAll, Next, Allowed, ByClient;
  }

  /** A write that is carried out leaves its receipt. */
  lemma WriteArrives(sys: System, i: nat, id: Id, a: Id)
    requires i < |sys.calls| && sys.calls[i].action == a && sys.calls[i].phase.Opened?
    requires Replayable(sys.store, a) && Commits(sys.vault, OpFor(sys.store, a, id))
    ensures Allowed(sys, Write(i, id))
    ensures var sys' := Next(sys, Write(i, id)); HasEffect(sys'.vault, a) && sys'.store == sys.store
  {
    var op := OpFor(sys.store, a, id);
    CommitsOrUnchanged(sys.vault, op);
    OpForIs(sys.store, a, id);
    hide OpFor, WriteOp;
    assert op.At() in Next(sys, Write(i, id)).vault.ledger;
  }

  lemma CanStillAny(v: Vault, s: Store, a: Id, id: Id)
    requires Replayable(s, a) && CanStill(v, OpFor(s, a, 0))
    ensures CanStill(v, OpFor(s, a, id))
  {
    hide WellFormed;
    OpForIs(s, a, id);
  }

  lemma OneStep(steps: seq<Step>, before: seq<Step>, step: Step)
    requires Reached(steps + before).Some?
    ensures Reached(steps + (before + [step])) ==
      if Allowed(Reached(steps + before).value, step) then Some(Next(Reached(steps + before).value, step)) else None
  {
    var all := steps + (before + [step]);
    assert all[..|all| - 1] == steps + before;
  }

  /** A continuation of a run, without bare cancel receipts. */
  ghost predicate Continues(steps: seq<Step>, more: seq<Step>) {
    Reached(steps + more).Some? && forall i :: 0 <= i < |more| ==> !IsReceipt(more[i])
  }

  /**
   A settled Action without a receipt, say one recorded as failed, stays without effect over every continuation if
   and only if no write of it is on its way whose precondition holds or may yet come to hold.
   */
  lemma NoEffectIsFinalIff(steps: seq<Step>, a: Id)
    requires Reached(steps).Some? && SettledForGood(Reached(steps).value.store, a)
    requires !HasEffect(Reached(steps).value.vault, a)
    ensures (forall more :: Continues(steps, more) ==> !HasEffect(Reached(steps + more).value.vault, a))
      <==> !WriteOnItsWay(Reached(steps).value, a)
  {
    hide SettledForGood, HasEffect, WriteOnItsWay, Reached;
    if WriteOnItsWay(Reached(steps).value, a) {
      var more := Arrives(steps, a);
      assert Continues(steps, more);
    } else {
      forall more | Continues(steps, more) ensures !HasEffect(Reached(steps + more).value.vault, a) {
        NothingForever(steps, more, a);
      }
    }
  }
}
