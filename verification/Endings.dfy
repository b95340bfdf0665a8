/**
 How Runs end: trees end bottom-up and for good, cancelled Runs stay settled, termination tells failure from
 doubt.
 */
module Endings {
  import opened States
  import opened Wrappers
  import opened Budgets
  import opened Records
  import opened ActionProtocol
  import opened Evolution
  import opened Kernel
  import opened KernelEvolution
  import Runs = RunTransactions

  // ---- Terminal trees ----

  ghost predicate ChildrenEnded(s: Store) {
    forall c :: c in s.runs && s.runs[c].parent.Some? && s.runs[c].parent.value in s.runs
                && s.runs[s.runs[c].parent.value].status.Terminal()
      ==> s.runs[c].status.Terminal()
  }

  lemma RunStatusStep(r: Run, r': Run)
    requires RunEvolves(r, r')
    ensures r.status.Terminal() ==> r'.status == r.status
    ensures r'.parent == r.parent && r'.depth == r.depth
  {
  }

  lemma ChildrenEndedStep(s: Store, s': Store)
    requires ChildrenEnded(s) && RunsEvolve(s, s') && Sound(s)
    ensures ChildrenEnded(s')
  {
    hide RunEvolves, ActionRefsOk, RequestRefsOk;
    forall c | c in s'.runs && s'.runs[c].parent.Some? && s'.runs[c].parent.value in s'.runs
               && s'.runs[s'.runs[c].parent.value].status.Terminal()
      ensures s'.runs[c].status.Terminal()
    {
      var p := s'.runs[c].parent.value;
      if c in s.runs {
        assert RunEvolves(s.runs[c], s'.runs[c]);
        RunStatusStep(s.runs[c], s'.runs[c]);
        assert ParentOk(s, c);
        assert RunEvolves(s.runs[p], s'.runs[p]);
        RunStatusStep(s.runs[p], s'.runs[p]);
      }
    }
  }

  lemma {:induction false} ChildrenAlwaysEnded(txs: seq<Tx>)
    ensures ChildrenEnded(Execute(EMPTY_STORE, txs))
  {
    if txs != [] {
      hide Apply, ChildrenEnded, Sound, ActionsEvolve, RunsEvolve, JobsEvolve;
      var before, tx := Execute(EMPTY_STORE, txs[..|txs| - 1]), txs[|txs| - 1];
      ChildrenAlwaysEnded(txs[..|txs| - 1]);
      ReachableSound(txs[..|txs| - 1]);
      StepParts(before, tx);
      ChildrenEndedStep(before, Apply(before, tx));
    }
  }

  lemma {:induction false} EndedBelow(s: Store, root: Id, r: Id)
    requires ChildrenEnded(s) && Runs.Below(s.runs, root, r) && root in s.runs && s.runs[root].status.Terminal()
    ensures s.runs[r].status.Terminal()
    decreases s.runs[r].depth
  {
    if r != root {
      EndedBelow(s, root, s.runs[r].parent.value);
    }
  }

  /** In every reachable state the whole subtree of a Run that is over is over. */
  lemma TreesEndTogether(txs: seq<Tx>, root: Id, r: Id)
    requires var s := Execute(EMPTY_STORE, txs);
      root in s.runs && s.runs[root].status.Terminal() && Runs.Below(s.runs, root, r)
    ensures Execute(EMPTY_STORE, txs).runs[r].status.Terminal()
  {
    hide Apply;
    ChildrenAlwaysEnded(txs);
    EndedBelow(Execute(EMPTY_STORE, txs), root, r);
  }

  /** A Run that is over keeps its status whatever happens later. */
  lemma {:induction false} EndingsAreFinal(s: Store, txs: seq<Tx>, r: Id)
    requires Sound(s) && r in s.runs && s.runs[r].status.Terminal()
    ensures Sound(Execute(s, txs))
    ensures r in Execute(s, txs).runs && Execute(s, txs).runs[r].status == s.runs[r].status
  {
    if txs != [] {
      hide Apply, Sound, ActionsEvolve, JobsEvolve, RunEvolves;
      var before, tx := Execute(s, txs[..|txs| - 1]), txs[|txs| - 1];
      EndingsAreFinal(s, txs[..|txs| - 1], r);
      StepParts(before, tx);
      assert RunEvolves(before.runs[r], Apply(before, tx).runs[r]);
      RunStatusStep(before.runs[r], Apply(before, tx).runs[r]);
    }
  }

  // ---- Settled cancellations ----

  ghost predicate CancelledSettled(s: Store) {
    forall a :: a in s.actions && s.actions[a].slot.run in s.runs && s.runs[s.actions[a].slot.run].status.Cancelled?
      ==> s.actions[a].status.Settled()
  }

  lemma SlotStep(a: Id, v: View, v': View, cause: Option<Cause>)
    requires StepsTo(a, v, v', cause)
    ensures v'.action.slot == v.action.slot
  {
  }

  lemma CancelledSettledStep(s: Store, s': Store, cause: Option<Cause>)
    requires CancelledSettled(s) && Sound(s) && RunsEvolve(s, s')
    requires ActionsEvolve(s, s', cause) && CancelsSettled(s, s')
    ensures CancelledSettled(s')
  {
    hide RunEvolves, StepsTo, NewRun, RequestRefsOk, ParentOk;
    forall a | a in s'.actions && s'.actions[a].slot.run in s'.runs && s'.runs[s'.actions[a].slot.run].status.Cancelled?
      ensures s'.actions[a].status.Settled()
    {
      var run := s'.actions[a].slot.run;
      assert !s'.actions[a].status.Settled() ==> s'.HasUnresolvedActions(run);
      if a in s.actions {
        SlotStep(a, ViewOf(s, a), ViewOf(s', a), cause);
        assert ActionRefsOk(s, a);
      }
    }
  }

  predicate NoGenericTransitions(txs: seq<Tx>) {
    forall i :: 0 <= i < |txs| ==> !txs[i].TransitionRun?
  }

  /** In every reachable state, and so in every later one, a cancelled Run has only settled Actions. */
  lemma {:induction false} CancelledRunsAreSettled(txs: seq<Tx>)
    requires NoGenericTransitions(txs)
    ensures CancelledSettled(Execute(EMPTY_STORE, txs))
  {
    if txs != [] {
      hide Apply, CancelledSettled, Sound, ActionsEvolve, RunsEvolve, JobsEvolve, CancelsSettled;
      var before, tx := Execute(EMPTY_STORE, txs[..|txs| - 1]), txs[|txs| - 1];
      CancelledRunsAreSettled(txs[..|txs| - 1]);
      ReachableSound(txs[..|txs| - 1]);
      StepParts(before, tx);
      StepSettled(before, tx);
      CancelledSettledStep(before, Apply(before, tx), CauseOf(before, tx));
    }
  }

  /**
   The generic transition checks children but not effects: it keeps the rule exactly when the Run has no
   unresolved Action.
   */
  lemma GenericCancellationSettledIff(s: Store, run: Id, version: nat)
    requires CancelledSettled(s) && Runs.TransitionRun(s, run, version, RunStatus.Cancelled).result.Ok?
    ensures CancelledSettled(Runs.TransitionRun(s, run, version, RunStatus.Cancelled).store) <==>
              !s.HasUnresolvedActions(run)
  {
    var s' := Runs.TransitionRun(s, run, version, RunStatus.Cancelled).store;
    if s.HasUnresolvedActions(run) {
      var a :| a in s.actions && s.actions[a].slot.run == run && !s.actions[a].status.Settled();
      assert s'.runs[s'.actions[a].slot.run].status.Cancelled?;
    }
  }

  // ---- Termination ----

  ghost predicate NothingReserved(b: Budget) {
    forall i :: 0 <= i < |b.rows| ==> !b.rows[i].status.Reserved?
  }

  /** Dropping what was not sent leaves exactly the effects in doubt unresolved. */
  lemma SweepLeavesDoubt(s: Store, s': Store, run: Id)
    requires s'.actions == SweepActions(s.actions, {run})
    ensures s'.HasUnresolvedActions(run) <==> s.HasUncertainEffects(run)
    ensures s'.HasUncertainEffects(run) <==> s.HasUncertainEffects(run)
    ensures forall a :: a in s.actions && s.actions[a].slot.run != run ==> s'.actions[a] == s.actions[a]
  {
    if s.HasUncertainEffects(run) {
      var a :| a in s.actions && s.actions[a].slot.run == run && s.actions[a].status.Uncertain();
      assert s'.actions[a] == s.actions[a];
    }
    if s'.HasUnresolvedActions(run) {
      var a :| a in s'.actions && s'.actions[a].slot.run == run && !s'.actions[a].status.Settled();
      ActionStatusPartition(s.actions[a].status);
      assert s.actions[a] == s'.actions[a] && s.actions[a].status.Uncertain();
    }
  }

  /**
   Terminating a live Run frees every reservation and leaves no undispatched Action. The Run fails exactly
   when no effect was in doubt, and is blocked exactly when one still is.
   */
  lemma TerminationTellsFailureFromDoubt(s: Store, run: Id, claim: Option<Claim>)
    requires var c := Runs.TerminateRun(s, run, claim); c.result.Ok? && run in s.runs && !s.runs[run].status.Terminal()
    ensures var s' := Runs.TerminateRun(s, run, claim).store;
      && run in s'.runs
      && NothingReserved(s'.runs[run].budget)
      && s'.runs[run].budget.used == s.runs[run].budget.used
      && (s'.runs[run].status.Failed? || s'.runs[run].status.Blocked?)
      && (s'.runs[run].status.Failed? <==> !s.HasUncertainEffects(run))
      && (s'.runs[run].status.Failed? <==> !s'.HasUnresolvedActions(run))
      && (s'.runs[run].status.Failed? ==> !s'.HasNonterminalChildren(run))
      && (forall a :: a in s.actions && s.actions[a].slot.run != run ==> s'.actions[a] == s.actions[a])
  {
    var s' := Runs.TerminateRun(s, run, claim).store;
    var r := s.runs[run];
    var swept := s.WithRun(run, r.(budget := r.budget.ReleaseAll())).(actions := SweepActions(s.actions, {run}));
    SweepLeavesDoubt(s, swept, run);
    SweepLeavesDoubt(s, s', run);
  }
}
