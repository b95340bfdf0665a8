/** The attempt ledger over whole runs: it agrees with the Action's status, and no effect is sent blindly again. */
module Attempts {
  import opened Wrappers
  import opened Records
  import opened ActionProtocol
  import opened Evolution
  import opened Kernel
  import opened KernelEvolution

  // ---- Ledger and status ----

  ghost predicate LedgersAgree(s: Store) {
    forall a :: a in s.actions ==> LedgerAgrees(ViewOf(s, a))
  }

  lemma LedgerSteps(a: Id, v: View, v': View, cause: Option<Cause>)
    requires LedgerAgrees(v) && StepsTo(a, v, v', cause) && (cause.Some? ==> !cause.value.move.Acknowledge?)
    ensures LedgerAgrees(v')
  {
    if v' != v {
      var m :| Enabled(v, m) && v' == Perform(v, m) && (Unprompted(m) || cause == Some(Cause(a, m)));
      hide LedgerAgrees, Perform;
      LedgerStep(v, m);
    }
  }

  lemma LedgersStep(s: Store, s': Store, cause: Option<Cause>)
    requires LedgersAgree(s) && ActionsEvolve(s, s', cause) && (cause.Some? ==> !cause.value.move.Acknowledge?)
    ensures LedgersAgree(s')
  {
    forall a | a in s'.actions ensures LedgerAgrees(ViewOf(s', a)) {
      if a in s.actions {
        hide StepsTo, LedgerAgrees;
        LedgerSteps(a, ViewOf(s, a), ViewOf(s', a), cause);
      }
    }
  }

  predicate NoReceipts(txs: seq<Tx>) {
    forall i :: 0 <= i < |txs| ==> !txs[i].RecordCancelReceipt?
  }

  /**
   Every reachable state without bare cancel receipts: an Action runs exactly while its newest attempt is
   started, no older attempt is, attempts are numbered 1..n, and an unknown outcome is the newest attempt's.
   */
  lemma {:induction false} LedgersAlwaysAgree(txs: seq<Tx>)
    requires NoReceipts(txs)
    ensures LedgersAgree(Execute(EMPTY_STORE, txs))
  {
    if txs != [] {
      hide Apply, LedgersAgree, Sound, ActionsEvolve, RunsEvolve, JobsEvolve;
      var before, tx := Execute(EMPTY_STORE, txs[..|txs| - 1]), txs[|txs| - 1];
      LedgersAlwaysAgree(txs[..|txs| - 1]);
      ReachableSound(txs[..|txs| - 1]);
      StepParts(before, tx);
      LedgersStep(before, Apply(before, tx), CauseOf(before, tx));
    }
  }

  /**
   When a bare cancel receipt does keep the ledger in agreement: never on a running Action, nor on one whose
   approval stays open.
   */
  lemma ReceiptKeepsLedgerIff(v: View, stopped: bool)
    requires LedgerAgrees(v)
    ensures LedgerAgrees(Perform(v, Acknowledge(stopped))) <==> !v.action.status.Running? && (v.pending ==> stopped)
  {
    var n := |v.action.attempts|;
    if v.action.status.Running? {
      assert v.action.attempts[n - 1].status.Started?;
    }
  }

  // ---- No blind redispatch ----

  /** How many verdicts confirmed that nothing was applied. */
  function NotApplied(verdicts: seq<Verdict>): nat {
    if verdicts == [] then 0
    else
      var last := verdicts[|verdicts| - 1];
      NotApplied(verdicts[..|verdicts| - 1]) + (if last.resolution.ConfirmedNotApplied? then 1 else 0)
  }

  /** Dispatches already granted: being ready is one, an approval that may still be given is one. */
  function Grants(v: View): nat {
    (if v.action.status.Ready? then 1 else 0) + (if v.pending then 1 else 0)
  }

  ghost predicate NotBlindlyResent(v: View) {
    v.action.Blind() ==> |v.action.attempts| + Grants(v) <= 1 + NotApplied(v.action.verdicts)
  }

  lemma ResendStep(v: View, m: ActionMove)
    requires NotBlindlyResent(v) && Enabled(v, m)
    ensures NotBlindlyResent(Perform(v, m))
  {
    if m.Reconcile? {
      var verdicts := v.action.verdicts;
      assert (verdicts + [m.verdict])[..|verdicts|] == verdicts;
    }
  }

  lemma ResendSteps(a: Id, v: View, v': View, cause: Option<Cause>)
    requires NotBlindlyResent(v) && StepsTo(a, v, v', cause)
    ensures NotBlindlyResent(v')
  {
    if v' != v {
      var m :| Enabled(v, m) && v' == Perform(v, m);
      hide NotBlindlyResent, Perform;
      ResendStep(v, m);
    }
  }

  ghost predicate NoBlindResends(s: Store) {
    forall a :: a in s.actions ==> NotBlindlyResent(ViewOf(s, a))
  }

  lemma ResendsStep(s: Store, s': Store, cause: Option<Cause>)
    requires NoBlindResends(s) && ActionsEvolve(s, s', cause)
    ensures NoBlindResends(s')
  {
    forall a | a in s'.actions ensures NotBlindlyResent(ViewOf(s', a)) {
      if a in s.actions {
        hide StepsTo, NotBlindlyResent;
        ResendSteps(a, ViewOf(s, a), ViewOf(s', a), cause);
      }
    }
  }

  lemma {:induction false} NeverBlindlyResentView(txs: seq<Tx>)
    ensures NoBlindResends(Execute(EMPTY_STORE, txs))
  {
    if txs != [] {
      hide Apply, NoBlindResends, Sound, ActionsEvolve, RunsEvolve, JobsEvolve;
      var before, tx := Execute(EMPTY_STORE, txs[..|txs| - 1]), txs[|txs| - 1];
      NeverBlindlyResentView(txs[..|txs| - 1]);
      ReachableSound(txs[..|txs| - 1]);
      StepParts(before, tx);
      ResendsStep(before, Apply(before, tx), CauseOf(before, tx));
    }
  }

  /**
   An Action that is neither safe to send twice nor backed by the ledger is opened at most once more than
   it has verdicts confirming that nothing was applied: in every run, cancel receipts and approvals included.
   */
  lemma NeverBlindlyResent(txs: seq<Tx>, a: Id)
    requires var s := Execute(EMPTY_STORE, txs); a in s.actions && s.actions[a].Blind()
    ensures var s := Execute(EMPTY_STORE, txs); |s.actions[a].attempts| <= 1 + NotApplied(s.actions[a].verdicts)
  {
    NeverBlindlyResentView(txs);
  }
}
