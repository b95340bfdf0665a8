/** When a recorded outcome is final, and the one way an Action that was dropped comes back. */
module Settlements {
  import opened Wrappers
  import opened Records
  import opened ActionProtocol
  import opened InputTransactions
  import opened Evolution
  import opened Kernel
  import opened KernelEvolution
  import opened Attempts

  // ---- Finality ----

  /**
   A settled Action keeps its status under every move but a bare cancel receipt exactly while no approval of
   it is open.
   */
  lemma SettledStaysIff(v: View)
    requires LedgerAgrees(v) && v.action.status.Settled()
    ensures (forall m :: Enabled(v, m) && !m.Acknowledge? ==> Perform(v, m) == v) <==> !v.pending
  {
    if v.pending {
      assert Enabled(v, Decide(true)) && Perform(v, Decide(true)) != v;
    }
  }

  lemma SettledStep(a: Id, v: View, v': View, cause: Option<Cause>)
    requires LedgerAgrees(v) && v.action.status.Settled() && !v.pending
    requires StepsTo(a, v, v', cause) && (cause.Some? ==> !cause.value.move.Acknowledge?)
    ensures v' == v
  {
    SettledStaysIff(v);
    hide LedgerAgrees, Enabled, Perform;
  }

  /** Once an outcome is recorded and no approval is open, the Action's row never changes again. */
  lemma {:induction false} SettlementsAreFinal(txs: seq<Tx>, later: seq<Tx>, a: Id)
    requires NoReceipts(txs) && NoReceipts(later)
    requires var s := Execute(EMPTY_STORE, txs);
      a in s.actions && s.actions[a].status.Settled() && !ApprovalOpen(s, s.actions[a])
    ensures var s, s' := Execute(EMPTY_STORE, txs), Execute(EMPTY_STORE, txs + later);
      a in s'.actions && ViewOf(s', a) == ViewOf(s, a)
  {
    if later == [] {
      assert txs + later == txs;
    } else {
      hide Apply, ApprovalOpen, NoReceipts;
      var n := |later| - 1;
      var sofar := txs + later[..n];
      assert (txs + later)[..|txs + later| - 1] == sofar && (txs + later)[|txs + later| - 1] == later[n];
      FewerReceipts(txs, later);
      SettlementsAreFinal(txs, later[..n], a);
      OneStep(sofar, later[n], a);
    }
  }

  lemma FewerReceipts(txs: seq<Tx>, later: seq<Tx>)
    requires NoReceipts(txs) && NoReceipts(later) && later != []
    ensures var n := |later| - 1;
      NoReceipts(later[..n]) && NoReceipts(txs + later[..n]) && !later[n].RecordCancelReceipt?
  {
  }

  lemma OneStep(txs: seq<Tx>, tx: Tx, a: Id)
    requires NoReceipts(txs) && !tx.RecordCancelReceipt?
    requires var s := Execute(EMPTY_STORE, txs);
      a in s.actions && s.actions[a].status.Settled() && !ApprovalOpen(s, s.actions[a])
    ensures var s := Execute(EMPTY_STORE, txs); a in Apply(s, tx).actions && ViewOf(Apply(s, tx), a) == ViewOf(s, a)
  {
    hide Execute, Apply, Sound, RunsEvolve, JobsEvolve, StepsTo, LedgerAgrees, ApprovalOpen;
    var s := Execute(EMPTY_STORE, txs);
    ReachableSound(txs);
    LedgersAlwaysAgree(txs);
    StepParts(s, tx);
    SettledStep(a, ViewOf(s, a), ViewOf(Apply(s, tx), a), CauseOf(s, tx));
  }
}
