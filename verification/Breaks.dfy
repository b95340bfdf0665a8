/** Short histories in which what an exact condition rules out does happen. */
module Breaks {
  import opened States
  import opened Wrappers
  import opened Records
  import opened ActionProtocol
  import opened Evolution
  import opened Kernel
  import opened KernelEvolution
  import opened Attempts
  import opened EventLog
  import opened Histories
  import R = Revival

  /** A Run is being cancelled while an Action of it is still running. */
  lemma CancellingWhileRunning() returns (s: Store)
    ensures Leads(EMPTY_STORE, s) && 1 in s.runs && s.runs[1].status.Cancelling?
    ensures 11 in s.actions && s.actions[11].slot.run == 1
    ensures s.actions[11].status.Running? && !s.HasNonterminalChildren(1)
  {
    hide Apply, Leads, R.First, R.Open;
    s := R.Prepared();
    R.Cancel(s);
    s := Go(s, Tx.RequestCancellation(R.USER, 1, 0, 0, map[1 := 2]));
  }

  lemma ReceiptOverwrites(s: Store)
    requires 1 in s.runs && s.runs[1].status.Cancelling? && 11 in s.actions && s.actions[11].slot.run == 1
    ensures var s' := Apply(s, Tx.RecordCancelReceipt(11, true));
      11 in s'.actions && s'.actions[11] == Acknowledged(s.actions[11], true)
  {
    hide ApplyRun, ApplyRunEnd, ApplyInput, ApplyAccount, ApplyJob, Acknowledged, Store.HasUnresolvedActions,
         Store.HasNonterminalChildren;
  }

  /** A bare cancel receipt closes an Action whose newest attempt stays started. */
  lemma ReceiptLeavesAttemptStarted() returns (s: Store)
    ensures Leads(EMPTY_STORE, s) && 11 in s.actions && LedgerAgrees(ViewOf(s, 11))
    ensures var s' := Apply(s, Tx.RecordCancelReceipt(11, true)); 11 in s'.actions && !LedgerAgrees(ViewOf(s', 11))
  {
    s := CancellingWhileRunning();
    var txs := Path(s);
    hide Apply, Execute;
    LedgersAlwaysAgree(txs);
    ReceiptOverwrites(s);
    hide Leads;
    var attempts := s.actions[11].attempts;
    assert attempts[|attempts| - 1].status.Started?;
  }

  lemma CancelsGenerically(s: Store)
    requires 1 in s.runs && s.runs[1].status.Cancelling? && !s.HasNonterminalChildren(1)
    ensures var s' := Apply(s, Tx.TransitionRun(1, s.runs[1].version, RunStatus.Cancelled));
      1 in s'.runs && s'.runs[1].status.Cancelled? && s'.actions == s.actions
  {
    hide ApplyRunEnd, ApplyAction, ApplyInput, ApplyAccount, ApplyJob, Store.HasNonterminalChildren;
  }

  /** The generic transition cancels a Run that still has an Action running. */
  lemma RunCancelledWhileRunning() returns (s: Store, s': Store)
    ensures Leads(EMPTY_STORE, s') && 1 in s'.runs && s'.runs[1].status.Cancelled?
    ensures 11 in s'.actions && s'.actions[11].slot.run == 1 && s'.actions[11].status.Running?
  {
    s := CancellingWhileRunning();
    hide Apply, Leads, Store.HasNonterminalChildren;
    CancelsGenerically(s);
    s' := Go(s, Tx.TransitionRun(1, s.runs[1].version, RunStatus.Cancelled));
  }

  // ---- The event log ----

  lemma Appends(s: Store)
    requires 1 in s.runs
    ensures var s' := Apply(s, Tx.AppendEvent(1, None));
      1 in s'.runs && s'.runs[1] == s.runs[1].Append(Appended, None)
  {
    hide ApplyRun, ApplyRunEnd, ApplyInput, ApplyAction, ApplyJob;
  }

  /** A Run just accepted, with its log whole. */
  lemma Accepted() returns (s: Store)
    ensures Leads(EMPTY_STORE, s) && Sound(s) && 1 in s.runs && LogOk(s.runs[1]) && Pruned(s.runs[1]) == 0
  {
    hide Apply, Leads;
    LeadsNowhere(EMPTY_STORE);
    R.Admit();
    s := Go(EMPTY_STORE, Tx.AdmitRun(R.USER, 0, 0, R.LIMITS, None, 1, 1));
    hide Execute, Sound, LogOk;
    var txs := Path(s);
    ReachableSound(txs);
    EveryLogIsComplete(txs, 1);
  }

  lemma Path(s: Store) returns (txs: seq<Tx>)
    requires Leads(EMPTY_STORE, s)
    ensures NoReceipts(txs) && Execute(EMPTY_STORE, txs) == s
  {
    txs :| NoReceipts(txs) && Execute(EMPTY_STORE, txs) == s;
  }

  /**
   A reader at the end of the log looks at the Run, one more event is written, retention drops everything, and the
   reader's page is empty and its last, although the event was written after its cursor.
   */
  lemma PageMissesEvent() returns (before: Reader, steps: seq<Step>)
    ensures Leads(EMPTY_STORE, before.store) && ReaderOk(before)
    ensures var w := Reading(before, steps);
      && w.run in w.store.runs && w.seen.Some? && w.cursor < |w.written|
      && History(w.seen.value, w.store.runs[w.run], w.cursor, 1000) == Ok(Page([], None))
  {
    var s := Accepted();
    hide Leads, Sound;
    var r := s.runs[1];
    before := Reader(s, 1, r.events, None, r.eventSeq, r.eventSeq, [], false);
    steps := [Glance, Transact(Tx.AppendEvent(1, None)), Trim(0)];
    Appends(s);
    hide Apply, ReaderOk;
    ReadingStep(before, steps[..2], steps[2]);
    ReadingStep(before, steps[..1], steps[1]);
    ReadingStep(before, [], steps[0]);
  }

  lemma ReadingStep(before: Reader, steps: seq<Step>, step: Step)
    requires ReaderOk(before)
    ensures var w := Reading(before, steps);
      && w.run in w.store.runs && w.run in NextStore(w, step).runs && Reading(before, steps + [step]) == Next(w, step)
  {
    hide Apply;
    StepKeeps(Reading(before, steps), step);
    assert (steps + [step])[..|steps + [step]| - 1] == steps;
  }
}
