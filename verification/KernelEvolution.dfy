/** One theorem about every transaction: whatever the kernel does, its tables evolve as described. */
module KernelEvolution {
  import opened Wrappers
  import opened Records
  import opened ActionProtocol
  import opened Evolution
  import opened Kernel
  import EvolutionProofs
  import RunEvolution
  import ActionEvolution
  import InputEvolution

  /** The move, if any, that a transaction asks of the Action it is about. */
  function CauseOf(s: Store, tx: Tx): Option<Cause> {
    match tx
    case BeginDispatch(action, claim, key) => ActionEvolution.DispatchCause(s, action, claim, key)
    case CompleteAction(action, ok, result, _) => Some(Cause(action, Close(ok, result)))
    case MarkOutcomeUnknown(action, result) => Some(Cause(action, LoseOutcome(result)))
    case MarkRetryWait(action, result, key) => Some(Cause(action, ScheduleRetry(key, result)))
    case BeginRetry(action, key) => Some(Cause(action, Retry(key)))
    case RecordCancelReceipt(action, stopped) => Some(Cause(action, Acknowledge(stopped)))
    case ReconcileLocal(vault, owner, action, _) => ActionEvolution.ReceiptCause(vault, s, owner, action)
    case _ => None
  }

  lemma JobTxEvolves(s: Store, tx: Tx)
    requires Sound(s) && OnJob(tx)
    ensures Evolves(s, ApplyJob(s, tx), None)
    ensures !tx.CompleteJob? ==> Orderly(s, ApplyJob(s, tx))
  {
    hide Evolves, Orderly, Sound,
         Jobs.ClaimJob, Jobs.RenewLease, Jobs.CompleteJob, Jobs.DeferJob;
    match tx
    case Tick(seconds) => EvolutionProofs.TickEvolves(s, seconds);
    case ClaimJob(worker, lease, kind, pick) => EvolutionProofs.ClaimJobEvolves(s, worker, lease, kind, pick);
    case RenewLease(held, lease) => EvolutionProofs.RenewLeaseEvolves(s, held, lease);
    case CompleteJob(held) => EvolutionProofs.CompleteJobEvolves(s, held);
    case DeferJob(held, delay) => EvolutionProofs.DeferJobEvolves(s, held, delay);
  }

  lemma RunTxEvolves(s: Store, tx: Tx)
    requires Sound(s) && OnRun(tx)
    ensures Evolves(s, ApplyRun(s, tx), None)
    ensures !tx.TransitionRun? ==> Orderly(s, ApplyRun(s, tx))
  {
    hide Evolves, Orderly, Sound,
         Runs.AdmitRun, Runs.AdmitChild, Runs.RequestCancellation, Runs.FinalizeCancellation, Runs.TransitionRun,
         Runs.EnsureRunning;
    match tx
    case AdmitRun(owner, key, hash, limits, wall, run, job) =>
      RunEvolution.AdmitRunEvolves(s, owner, key, hash, limits, wall, run, job);
    case AdmitChild(owner, parent, key, hash, limits, wall, maxDepth, maxChildren, run, job) =>
      RunEvolution.AdmitChildEvolves(s, owner, parent, key, hash, limits, wall, maxDepth, maxChildren, run, job);
    case RequestCancellation(owner, run, key, hash, jobOf) =>
      RunEvolution.RequestCancellationEvolves(s, owner, run, key, hash, jobOf);
    case FinalizeCancellation(owner, run, claim) => RunEvolution.FinalizeCancellationEvolves(s, owner, run, claim);
    case TransitionRun(run, version, next) => RunEvolution.TransitionRunEvolves(s, run, version, next);
    case EnsureRunning(run, claim) => RunEvolution.EnsureRunningEvolves(s, run, claim);
  }

  lemma RunEndTxEvolves(s: Store, tx: Tx)
    requires Sound(s) && OnRunEnd(tx)
    ensures Evolves(s, ApplyRunEnd(s, tx), None) && Orderly(s, ApplyRunEnd(s, tx))
  {
    hide Evolves, Orderly, Sound,
         Runs.FinishImplicit, Runs.RecordCompletion, Runs.BlockRun, Runs.FailRun, Runs.TerminateRun,
         Runs.RecoverCheckpoint;
    match tx
    case FinishImplicit(run, succeeded) => RunEvolution.FinishImplicitEvolves(s, run, succeeded);
    case RecordCompletion(owner, run, verified, claim) =>
      RunEvolution.RecordCompletionEvolves(s, owner, run, verified, claim);
    case BlockRun(run, claim) => RunEvolution.BlockRunEvolves(s, run, claim);
    case FailRun(run, claim) => RunEvolution.FailRunEvolves(s, run, claim);
    case TerminateRun(run, claim) => RunEvolution.TerminateRunEvolves(s, run, claim);
    case RecoverCheckpoint(owner, run, incompatible) =>
      RunEvolution.RecoverCheckpointEvolves(s, owner, run, incompatible);
  }

  lemma ActionTxEvolves(s: Store, tx: Tx)
    requires Sound(s) && OnAction(tx)
    ensures Evolves(s, ApplyAction(s, tx), CauseOf(s, tx)) && Orderly(s, ApplyAction(s, tx))
  {
    hide Evolves, Orderly, Sound,
         Acts.BeginDispatch, Acts.CompleteAction, Acts.MarkOutcomeUnknown, Acts.MarkRetryWait, Acts.BeginRetry,
         Acts.RecordCancelReceipt, Acts.ReconcileLocal;
    match tx
    case BeginDispatch(action, claim, key) => ActionEvolution.BeginDispatchEvolves(s, action, claim, key);
    case CompleteAction(action, ok, result, claim) =>
      ActionEvolution.CompleteActionEvolves(s, action, ok, result, claim);
    case MarkOutcomeUnknown(action, result) => ActionEvolution.MarkOutcomeUnknownEvolves(s, action, result);
    case MarkRetryWait(action, result, key) => ActionEvolution.MarkRetryWaitEvolves(s, action, result, key);
    case BeginRetry(action, key) => ActionEvolution.BeginRetryEvolves(s, action, key);
    case RecordCancelReceipt(action, stopped) => ActionEvolution.RecordCancelReceiptEvolves(s, action, stopped);
    case ReconcileLocal(vault, owner, action, held) =>
      ActionEvolution.ReconcileLocalEvolves(s, vault, owner, action, held);
  }

  lemma InputTxEvolves(s: Store, tx: Tx)
    requires Sound(s) && OnInput(tx)
    ensures Evolves(s, ApplyInput(s, tx), None) && Orderly(s, ApplyInput(s, tx))
  {
    hide Evolves, Orderly, Sound,
         Acts.AdmitAction, Acts.ReconcileAction, Inputs.RequestApproval, Inputs.RequestClarification, Inputs.Respond;
    match tx
    case AdmitAction(owner, slot, request, claim, action) =>
      ActionEvolution.AdmitActionEvolves(s, owner, slot, request, claim, action);
    case ReconcileAction(owner, action, verdict, evidenced, job) =>
      ActionEvolution.ReconcileActionEvolves(s, owner, action, verdict, evidenced, job);
    case RequestApproval(owner, action, expiresAt, input) =>
      InputEvolution.RequestApprovalEvolves(s, owner, action, expiresAt, input);
    case RequestClarification(owner, run, hash, expiresAt, claim, input) =>
      InputEvolution.RequestClarificationEvolves(s, owner, run, hash, expiresAt, claim, input);
    case Respond(owner, input, version, decision, content, key, job) =>
      InputEvolution.RespondEvolves(s, owner, input, version, decision, content, key, job);
  }

  lemma AccountTxEvolves(s: Store, tx: Tx)
    requires Sound(s) && OnAccount(tx)
    ensures Evolves(s, ApplyAccount(s, tx), None) && Orderly(s, ApplyAccount(s, tx))
  {
    hide Evolves, Orderly, Sound,
         Runs.AppendEvent, Accounts.ReserveBudget, Accounts.SettleBudget, Accounts.ReleaseBudget,
         Accounts.BeginModelCall,
         Accounts.CompleteModelCall, Accounts.MarkModelCall;
    match tx
    case AppendEvent(run, about) => RunEvolution.AppendEventEvolves(s, run, about);
    case ReserveBudget(run, key, d, amount, claim) =>
      InputEvolution.ReserveBudgetEvolves(s, run, key, d, amount, claim);
    case SettleBudget(run, key, actual, claim) => InputEvolution.SettleBudgetEvolves(s, run, key, actual, claim);
    case ReleaseBudget(run, key, claim) => InputEvolution.ReleaseBudgetEvolves(s, run, key, claim);
    case BeginModelCall(owner, run, turn, maxOutput, claim) =>
      InputEvolution.BeginModelCallEvolves(s, owner, run, turn, maxOutput, claim);
    case CompleteModelCall(run, turn, tokens, claim) =>
      InputEvolution.CompleteModelCallEvolves(s, run, turn, tokens, claim);
    case MarkModelCall(run, turn, valid, claim) => InputEvolution.MarkModelCallEvolves(s, run, turn, valid, claim);
  }

  /** The generic transition and the completion of a job are the two steps that promise no order. */
  predicate Plain(tx: Tx) {
    !tx.TransitionRun? && !tx.CompleteJob?
  }

  /** Every transaction, from every state in which stored references resolve. */
  lemma StepEvolves(s: Store, tx: Tx)
    requires Sound(s)
    ensures Evolves(s, Apply(s, tx), CauseOf(s, tx))
    ensures Plain(tx) ==> Orderly(s, Apply(s, tx))
  {
    hide Evolves, Orderly, Sound, ApplyJob, ApplyRun, ApplyRunEnd, ApplyAction, ApplyInput, ApplyAccount;
    if OnRun(tx) { RunTxEvolves(s, tx); }
    else if OnRunEnd(tx) { RunEndTxEvolves(s, tx); }
    else if OnAction(tx) { ActionTxEvolves(s, tx); }
    else if OnInput(tx) { InputTxEvolves(s, tx); }
    else if OnAccount(tx) { AccountTxEvolves(s, tx); }
    else { JobTxEvolves(s, tx); }
  }

  /** The same, part by part. */
  lemma StepParts(s: Store, tx: Tx)
    requires Sound(s)
    ensures RunsEvolve(s, Apply(s, tx)) && JobsEvolve(s, Apply(s, tx)) && Sound(Apply(s, tx))
    ensures ActionsEvolve(s, Apply(s, tx), CauseOf(s, tx))
  {
    hide Apply, Sound, RunsEvolve, ActionsEvolve, JobsEvolve, Orderly;
    StepEvolves(s, tx);
  }

  /** One Run's part of a step. */
  lemma StepRun(s: Store, tx: Tx, r: Id)
    requires Sound(s) && r in s.runs
    ensures r in Apply(s, tx).runs && RunEvolves(s.runs[r], Apply(s, tx).runs[r]) && Sound(Apply(s, tx))
  {
    hide Apply, Sound, ActionsEvolve, JobsEvolve, RunEvolves, NewRun;
    StepParts(s, tx);
  }

  lemma StepSettled(s: Store, tx: Tx)
    requires Sound(s) && !tx.TransitionRun?
    ensures CancelsSettled(s, Apply(s, tx))
  {
    hide Sound, RunsEvolve, ActionsEvolve, JobsEvolve, WakesOrderly, ApplyRun, ApplyRunEnd, ApplyAction, ApplyInput,
         ApplyAccount;
    if tx.CompleteJob? {
      assert Apply(s, tx).runs == s.runs;
    } else {
      StepEvolves(s, tx);
    }
  }

  lemma EmptySound()
    ensures Sound(EMPTY_STORE)
  {
  }

  /** Stored references resolve in every reachable state. */
  lemma {:induction false} ReachableSound(txs: seq<Tx>)
    ensures Sound(Execute(EMPTY_STORE, txs))
  {
    if txs == [] {
      EmptySound();
    } else {
      ReachableSound(txs[..|txs| - 1]);
      StepEvolves(Execute(EMPTY_STORE, txs[..|txs| - 1]), txs[|txs| - 1]);
    }
  }
}
