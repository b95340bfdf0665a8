/** What each transaction may do to a Run's account and to its model calls. */
module RunAccounts {
  import opened States
  import opened Wrappers
  import opened Budgets
  import opened Vaults
  import opened Records
  import opened ActionProtocol
  import opened Kernel
  import Jobs = JobTransactions
  import Runs = RunTransactions
  import Acts = ActionTransactions
  import Inputs = InputTransactions
  import Accounts = AccountTransactions

  predicate CallClosed(call: ModelCall) {
    call.status.Processed? || call.status.Invalid?
  }

  predicate BudgetMove(b: Budget, b': Budget, tx: Tx, r: Id) {
    || b' == b
    || (tx.ReserveBudget? && b' == b.Reserve(tx.reservation, tx.dimension, tx.amount).0)
    || (tx.SettleBudget? && tx.run == r && b' == b.Settle(tx.reservation, tx.actual).0)
    || (tx.ReleaseBudget? && tx.run == r && b' == b.Release(tx.reservation).0)
    || (tx.TerminateRun? && tx.run == r && b' == b.ReleaseAll())
    || (tx.AdmitChild? && b' == b.(rows := b.rows + Runs.ChildRows(tx.run, tx.limits)))
  }

  predicate CallsMove(c: map<nat, ModelCall>, c': map<nat, ModelCall>, tx: Tx, r: Id) {
    || c' == c
    || ((tx.BeginModelCall? || tx.CompleteModelCall? || tx.MarkModelCall?)
        && tx.run == r && tx.turn in c' && c' == c[tx.turn := c'[tx.turn]]
        && (CallClosed(c'[tx.turn]) ==> tx.MarkModelCall? || (tx.turn in c && CallClosed(c[tx.turn]))))
  }

  ghost predicate Accounted(r: Id, run: Run, s': Store, tx: Tx) {
    r in s'.runs && BudgetMove(run.budget, s'.runs[r].budget, tx, r) && CallsMove(run.calls, s'.runs[r].calls, tx, r)
  }

  /** Most transactions touch neither the account nor the model calls of any Run. */
  predicate Kept(s: Store, s': Store, r: Id)
    requires r in s.runs
  {
    s' == s || (r in s'.runs && s'.runs[r].budget == s.runs[r].budget && s'.runs[r].calls == s.runs[r].calls)
  }

  lemma ClaimJobKeeps(s: Store, r: Id, worker: nat, lease: nat, kind: Option<JobKind>, pick: Id)
    requires r in s.runs
    ensures Kept(s, Jobs.ClaimJob(s, worker, lease, kind, pick).store, r)
  {
  }

  lemma RenewLeaseKeeps(s: Store, r: Id, held: Claim, lease: nat)
    requires r in s.runs
    ensures Kept(s, Jobs.RenewLease(s, held, lease).store, r)
  {
  }

  lemma CompleteJobKeeps(s: Store, r: Id, held: Claim)
    requires r in s.runs
    ensures Kept(s, Jobs.CompleteJob(s, held).store, r)
  {
  }

  lemma DeferJobKeeps(s: Store, r: Id, held: Claim, delay: nat)
    requires r in s.runs
    ensures Kept(s, Jobs.DeferJob(s, held, delay).store, r)
  {
  }

  lemma AdmitRunKeeps(s: Store, r: Id, owner: Owner, key: nat, hash: nat, limits: Limits, wall: Option<nat>, run: Id,
        job: Id)
    requires r in s.runs
    ensures Kept(s, Runs.AdmitRun(s, owner, key, hash, limits, wall, run, job).store, r)
  {
  }

  lemma StopSubtreeKeeps(s: Store, r: Id, root: Id, jobOf: map<Id, Id>)
    requires r in s.runs && Runs.FreshJobs(s.jobs, Runs.Stopping(s.runs, root), jobOf)
    ensures Kept(s, Runs.StopSubtree(s, root, jobOf), r)
  {
    hide Runs.Stopping, Runs.CancelJobs, SweepActions;
  }

  lemma RequestCancellationKeeps(s: Store, r: Id, owner: Owner, run: Id, key: nat, hash: nat, jobOf: map<Id, Id>)
    requires r in s.runs
    ensures Kept(s, Runs.RequestCancellation(s, owner, run, key, hash, jobOf).store, r)
  {
    hide Runs.StopSubtree, Runs.FreshJobs;
    if Runs.FreshJobs(s.jobs, Runs.Stopping(s.runs, run), jobOf) {
      StopSubtreeKeeps(s, r, run, jobOf);
    }
  }

  lemma FinalizeCancellationKeeps(s: Store, r: Id, owner: Owner, run: Id, claim: Option<Claim>)
    requires r in s.runs
    ensures Kept(s, Runs.FinalizeCancellation(s, owner, run, claim).store, r)
  {
    hide Store.Fence, RetireReady;
  }

  lemma TransitionRunKeeps(s: Store, r: Id, run: Id, version: nat, next: RunStatus)
    requires r in s.runs
    ensures Kept(s, Runs.TransitionRun(s, run, version, next).store, r)
  {
    hide RunStatus.CanBecome;
  }

  lemma EnsureRunningKeeps(s: Store, r: Id, run: Id, claim: Option<Claim>)
    requires r in s.runs
    ensures Kept(s, Runs.EnsureRunning(s, run, claim).store, r)
  {
    hide Store.Fence;
  }

  lemma FinishImplicitKeeps(s: Store, r: Id, run: Id, succeeded: bool)
    requires r in s.runs
    ensures Kept(s, Runs.FinishImplicit(s, run, succeeded).store, r)
  {
    hide RetireReady, RunStatus.CanBecome;
  }

  lemma RecordCompletionKeeps(s: Store, r: Id, owner: Owner, run: Id, verified: bool, claim: Option<Claim>)
    requires r in s.runs
    ensures Kept(s, Runs.RecordCompletion(s, owner, run, verified, claim).store, r)
  {
    hide Store.Fence, RetireReady, RunStatus.CanBecome;
  }

  lemma BlockRunKeeps(s: Store, r: Id, run: Id, claim: Option<Claim>)
    requires r in s.runs
    ensures Kept(s, Runs.BlockRun(s, run, claim).store, r)
  {
    hide Store.Fence, RunStatus.CanBecome;
  }

  lemma FailRunKeeps(s: Store, r: Id, run: Id, claim: Option<Claim>)
    requires r in s.runs
    ensures Kept(s, Runs.FailRun(s, run, claim).store, r)
  {
    hide Store.Fence, RetireReady, RunStatus.CanBecome;
  }

  lemma RecoverCheckpointKeeps(s: Store, r: Id, owner: Owner, run: Id, incompatible: bool)
    requires r in s.runs
    ensures Kept(s, Runs.RecoverCheckpoint(s, owner, run, incompatible).store, r)
  {
    hide RunStatus.CanBecome;
  }

  lemma AdmitActionKeeps(s: Store, r: Id, owner: Owner, slot: Slot, request: Request, claim: Option<Claim>, action: Id)
    requires r in s.runs
    ensures Kept(s, Acts.AdmitAction(s, owner, slot, request, claim, action).store, r)
  {
    hide Store.Fence;
  }

  lemma BeginDispatchKeeps(s: Store, r: Id, action: Id, claim: Option<Claim>, key: Option<EffectKey>)
    requires r in s.runs
    ensures Kept(s, Acts.BeginDispatch(s, action, claim, key).store, r)
  {
    hide LeaseMatches, Reclaimed, Opened;
  }

  lemma CompleteActionKeeps(s: Store, r: Id, action: Id, ok: bool, result: ActionResult, claim: Option<Claim>)
    requires r in s.runs
    ensures Kept(s, Acts.CompleteAction(s, action, ok, result, claim).store, r)
  {
    hide LeaseMatches;
  }

  lemma MarkOutcomeUnknownKeeps(s: Store, r: Id, action: Id, result: ActionResult)
    requires r in s.runs
    ensures Kept(s, Acts.MarkOutcomeUnknown(s, action, result).store, r)
  {
    hide RunStatus.CanBecome;
  }

  lemma MarkRetryWaitKeeps(s: Store, r: Id, action: Id, result: ActionResult, key: EffectKey)
    requires r in s.runs
    ensures Kept(s, Acts.MarkRetryWait(s, action, result, key).store, r)
  {
  }

  lemma BeginRetryKeeps(s: Store, r: Id, action: Id, key: EffectKey)
    requires r in s.runs
    ensures Kept(s, Acts.BeginRetry(s, action, key).store, r)
  {
  }

  lemma RecordCancelReceiptKeeps(s: Store, r: Id, action: Id, stopped: bool)
    requires r in s.runs
    ensures Kept(s, Acts.RecordCancelReceipt(s, action, stopped).store, r)
  {
  }

  lemma ReconcileActionKeeps(s: Store, r: Id, owner: Owner, action: Id, verdict: Verdict, evidenced: bool, job: Id)
    requires r in s.runs
    ensures Kept(s, Acts.ReconcileAction(s, owner, action, verdict, evidenced, job).store, r)
  {
    hide Acts.FindVerdict, Store.HasUnresolvedActions, Store.HasNonterminalChildren, Reconciled;
  }

  lemma ReconcileLocalKeeps(s: Store, r: Id, vault: Vault, owner: Owner, action: Id, held: Claim)
    requires r in s.runs
    ensures Kept(s, Acts.ReconcileLocal(s, vault, owner, action, held).store, r)
  {
    hide Store.Fence, Acts.ReceiptProves;
  }

  lemma RequestApprovalKeeps(s: Store, r: Id, owner: Owner, action: Id, expiresAt: nat, input: Id)
    requires r in s.runs
    ensures Kept(s, Inputs.RequestApproval(s, owner, action, expiresAt, input).store, r)
  {
  }

  lemma RequestClarificationKeeps(s: Store, r: Id, owner: Owner, run: Id, hash: nat, expiresAt: nat,
        claim: Option<Claim>, input: Id)
    requires r in s.runs
    ensures Kept(s, Inputs.RequestClarification(s, owner, run, hash, expiresAt, claim, input).store, r)
  {
    hide Store.Fence;
  }

  lemma RespondKeeps(s: Store, r: Id, owner: Owner, input: Id, version: nat, decision: Decision, content: nat,
        key: nat, job: Id)
    requires r in s.runs
    ensures Kept(s, Inputs.Respond(s, owner, input, version, decision, content, key, job).store, r)
  {
    hide Decided, Kept, Store.HasNonterminalChildren;
    var s' := Inputs.Respond(s, owner, input, version, decision, content, key, job).store;
    if s' == s {
      assert Kept(s, s', r) by { Unchanged(s, r); }
    } else {
      var q := s.requests[input];
      if q.expiresAt <= s.now {
        OneRunMoves(s, s', q.run, s.runs[q.run].Append(InputExpired, q.action), r);
      } else if decision.Deny? {
        OneRunMoves(s, s', q.run, s.runs[q.run].Become(RunStatus.Failed).Append(InputDenied, q.action), r);
      } else {
        OneRunMoves(s, s', q.run, s.runs[q.run].Become(RunStatus.Queued).Append(InputAnswered, q.action), r);
      }
    }
  }

  lemma Unchanged(s: Store, r: Id)
    requires r in s.runs
    ensures Kept(s, s, r)
  {
  }

  lemma OneRunMoves(s: Store, s': Store, run: Id, row: Run, r: Id)
    requires r in s.runs && run in s.runs && s'.runs == s.runs[run := row]
    requires row.budget == s.runs[run].budget && row.calls == s.runs[run].calls
    ensures Kept(s, s', r)
  {
  }

  lemma AppendEventKeeps(s: Store, r: Id, run: Id, about: Option<Id>)
    requires r in s.runs
    ensures Kept(s, Runs.AppendEvent(s, run, about).store, r)
  {
  }

  // ---- Every transaction ----

  lemma AdmitChildAccounts(s: Store, tx: Tx, r: Id)
    requires r in s.runs && tx.AdmitChild?
    ensures Accounted(r, s.runs[r], ApplyRun(s, tx), tx)
  {
    hide Runs.ChildRows, Runs.Children, Runs.ChildRowsTaken, Runs.ChildFits, Runs.ChildLimitsValid;
  }

  lemma TerminateAccounts(s: Store, r: Id, run: Id, claim: Option<Claim>)
    requires r in s.runs
    ensures var s' := Runs.TerminateRun(s, run, claim).store;
      s' == s || (r in s'.runs && s'.runs[r].calls == s.runs[r].calls
                  && (s'.runs[r].budget == s.runs[r].budget
                      || (r == run && s'.runs[r].budget == s.runs[r].budget.ReleaseAll())))
  {
    hide Store.Fence, RetireReady, SweepActions, Budget.ReleaseAll, RunStatus.CanBecome, RunStatus.Terminal,
         Store.HasUncertainEffects, Store.HasNonterminalChildren;
  }

  lemma ChargeAccounts(s: Store, r: Id, run: Id, claim: Option<Claim>, move: (Budget, Result<Reservation>))
    requires r in s.runs && run in s.runs
    ensures var s' := Accounts.Charge(s, run, claim, move).store;
      s' == s || (r in s'.runs && s'.runs[r].calls == s.runs[r].calls
                  && s'.runs[r].budget == if r == run then move.0 else s.runs[r].budget)
  {
    hide Store.Fence;
  }

  lemma BeginModelCallAccounts(s: Store, r: Id, owner: Owner, run: Id, turn: nat, maxOutput: nat, claim: Option<Claim>)
    requires r in s.runs
    ensures Accounted(r, s.runs[r], Accounts.BeginModelCall(s, owner, run, turn, maxOutput, claim).store,
                      Tx.BeginModelCall(owner, run, turn, maxOutput, claim))
  {
    hide Store.Fence;
  }

  lemma CompleteModelCallAccounts(s: Store, r: Id, run: Id, turn: nat, tokens: nat, claim: Option<Claim>)
    requires r in s.runs
    ensures Accounted(r, s.runs[r], Accounts.CompleteModelCall(s, run, turn, tokens, claim).store,
                      Tx.CompleteModelCall(run, turn, tokens, claim))
  {
    hide Store.Fence;
  }

  lemma MarkModelCallAccounts(s: Store, r: Id, run: Id, turn: nat, valid: bool, claim: Option<Claim>)
    requires r in s.runs
    ensures Accounted(r, s.runs[r], Accounts.MarkModelCall(s, run, turn, valid, claim).store,
                      Tx.MarkModelCall(run, turn, valid, claim))
  {
    hide Store.Fence, BudgetMove, CallsMove;
    var s' := Accounts.MarkModelCall(s, run, turn, valid, claim).store;
    if s' == s || r != run {
      assert r in s'.runs && s'.runs[r] == s.runs[r];
      CallsStay(s.runs[r], Tx.MarkModelCall(run, turn, valid, claim), r);
    } else {
      assert s'.runs[r].budget == s.runs[r].budget;
      assert turn in s'.runs[r].calls && s'.runs[r].calls == s.runs[r].calls[turn := s'.runs[r].calls[turn]];
      CallMoves(s.runs[r], s'.runs[r], Tx.MarkModelCall(run, turn, valid, claim), r);
    }
  }

  lemma CallsStay(run: Run, tx: Tx, r: Id)
    ensures BudgetMove(run.budget, run.budget, tx, r) && CallsMove(run.calls, run.calls, tx, r)
  {
  }

  lemma CallMoves(run: Run, run': Run, tx: Tx, r: Id)
    requires run'.budget == run.budget && tx.MarkModelCall? && tx.run == r
    requires tx.turn in run'.calls && run'.calls == run.calls[tx.turn := run'.calls[tx.turn]]
    ensures BudgetMove(run.budget, run'.budget, tx, r) && CallsMove(run.calls, run'.calls, tx, r)
  {
  }

  lemma KeptIsAccounted(s: Store, s': Store, tx: Tx, r: Id)
    requires r in s.runs && Kept(s, s', r)
    ensures Accounted(r, s.runs[r], s', tx)
  {
  }

  lemma JobTxKeeps(s: Store, tx: Tx, r: Id)
    requires r in s.runs && OnJob(tx)
    ensures Kept(s, ApplyJob(s, tx), r)
  {
    match tx
    case Tick(_) =>
    case ClaimJob(worker, lease, kind, pick) => hide Kept; ClaimJobKeeps(s, r, worker, lease, kind, pick);
    case RenewLease(held, lease) => hide Kept; RenewLeaseKeeps(s, r, held, lease);
    case CompleteJob(held) => hide Kept; CompleteJobKeeps(s, r, held);
    case DeferJob(held, delay) => hide Kept; DeferJobKeeps(s, r, held, delay);
  }

  lemma RunTxKeeps(s: Store, tx: Tx, r: Id)
    requires r in s.runs && OnRun(tx) && !tx.AdmitChild?
    ensures Kept(s, ApplyRun(s, tx), r)
  {
    hide Kept, Runs.AdmitRun, Runs.AdmitChild, Runs.RequestCancellation, Runs.FinalizeCancellation, Runs.TransitionRun,
         Runs.EnsureRunning;
    match tx
    case AdmitRun(owner, key, hash, limits, wall, run, job) =>
      AdmitRunKeeps(s, r, owner, key, hash, limits, wall, run, job);
    case RequestCancellation(owner, run, key, hash, jobOf) =>
      RequestCancellationKeeps(s, r, owner, run, key, hash, jobOf);
    case FinalizeCancellation(owner, run, claim) => FinalizeCancellationKeeps(s, r, owner, run, claim);
    case TransitionRun(run, version, next) => TransitionRunKeeps(s, r, run, version, next);
    case EnsureRunning(run, claim) => EnsureRunningKeeps(s, r, run, claim);
  }

  lemma RunEndTxKeeps(s: Store, tx: Tx, r: Id)
    requires r in s.runs && OnRunEnd(tx) && !tx.TerminateRun?
    ensures Kept(s, ApplyRunEnd(s, tx), r)
  {
    hide Kept, Runs.FinishImplicit, Runs.RecordCompletion, Runs.BlockRun, Runs.FailRun, Runs.TerminateRun,
         Runs.RecoverCheckpoint;
    match tx
    case FinishImplicit(run, succeeded) => FinishImplicitKeeps(s, r, run, succeeded);
    case RecordCompletion(owner, run, verified, claim) => RecordCompletionKeeps(s, r, owner, run, verified, claim);
    case BlockRun(run, claim) => BlockRunKeeps(s, r, run, claim);
    case FailRun(run, claim) => FailRunKeeps(s, r, run, claim);
    case RecoverCheckpoint(owner, run, incompatible) => RecoverCheckpointKeeps(s, r, owner, run, incompatible);
  }

  lemma ActionTxKeeps(s: Store, tx: Tx, r: Id)
    requires r in s.runs && OnAction(tx)
    ensures Kept(s, ApplyAction(s, tx), r)
  {
    hide Kept, Acts.BeginDispatch, Acts.CompleteAction, Acts.MarkOutcomeUnknown, Acts.MarkRetryWait, Acts.BeginRetry,
         Acts.RecordCancelReceipt, Acts.ReconcileLocal;
    match tx
    case BeginDispatch(action, claim, key) => BeginDispatchKeeps(s, r, action, claim, key);
    case CompleteAction(action, ok, result, claim) => CompleteActionKeeps(s, r, action, ok, result, claim);
    case MarkOutcomeUnknown(action, result) => MarkOutcomeUnknownKeeps(s, r, action, result);
    case MarkRetryWait(action, result, key) => MarkRetryWaitKeeps(s, r, action, result, key);
    case BeginRetry(action, key) => BeginRetryKeeps(s, r, action, key);
    case RecordCancelReceipt(action, stopped) => RecordCancelReceiptKeeps(s, r, action, stopped);
    case ReconcileLocal(vault, owner, action, held) => ReconcileLocalKeeps(s, r, vault, owner, action, held);
  }

  lemma InputTxKeeps(s: Store, tx: Tx, r: Id)
    requires r in s.runs && OnInput(tx)
    ensures Kept(s, ApplyInput(s, tx), r)
  {
    hide Kept, Acts.AdmitAction, Acts.ReconcileAction, Inputs.RequestApproval, Inputs.RequestClarification,
         Inputs.Respond;
    match tx
    case AdmitAction(owner, slot, request, claim, action) =>
      AdmitActionKeeps(s, r, owner, slot, request, claim, action);
    case ReconcileAction(owner, action, verdict, evidenced, job) =>
      ReconcileActionKeeps(s, r, owner, action, verdict, evidenced, job);
    case RequestApproval(owner, action, expiresAt, input) =>
      RequestApprovalKeeps(s, r, owner, action, expiresAt, input);
    case RequestClarification(owner, run, hash, expiresAt, claim, input) =>
      RequestClarificationKeeps(s, r, owner, run, hash, expiresAt, claim, input);
    case Respond(owner, input, version, decision, content, key, job) =>
      RespondKeeps(s, r, owner, input, version, decision, content, key, job);
  }

  lemma BudgetTxAccounts(s: Store, tx: Tx, r: Id)
    requires r in s.runs && (tx.ReserveBudget? || tx.SettleBudget? || tx.ReleaseBudget?)
    ensures Accounted(r, s.runs[r], ApplyAccount(s, tx), tx)
  {
    hide Accounts.Charge, Budget.Reserve, Budget.Settle, Budget.Release, Find;
    if tx.run in s.runs {
      var b := s.runs[tx.run].budget;
      ChargeAccounts(s, r, tx.run, tx.claim,
        if tx.ReserveBudget? then b.Reserve(tx.reservation, tx.dimension, tx.amount)
        else if tx.SettleBudget? then b.Settle(tx.reservation, tx.actual) else b.Release(tx.reservation));
    }
  }

  lemma CallTxAccounts(s: Store, tx: Tx, r: Id)
    requires r in s.runs && (tx.AppendEvent? || tx.BeginModelCall? || tx.CompleteModelCall? || tx.MarkModelCall?)
    ensures Accounted(r, s.runs[r], ApplyAccount(s, tx), tx)
  {
    hide Accounted, Kept;
    match tx
    case AppendEvent(run, about) => AppendEventKeeps(s, r, run, about); KeptIsAccounted(s, ApplyAccount(s, tx), tx, r);
    case BeginModelCall(owner, run, turn, maxOutput, claim) =>
      BeginModelCallAccounts(s, r, owner, run, turn, maxOutput, claim);
    case CompleteModelCall(run, turn, tokens, claim) => CompleteModelCallAccounts(s, r, run, turn, tokens, claim);
    case MarkModelCall(run, turn, valid, claim) => MarkModelCallAccounts(s, r, run, turn, valid, claim);
  }

  lemma TerminateTxAccounts(s: Store, tx: Tx, r: Id)
    requires r in s.runs && tx.TerminateRun?
    ensures Accounted(r, s.runs[r], ApplyRunEnd(s, tx), tx)
  {
    hide Runs.TerminateRun, Budget.ReleaseAll;
    TerminateAccounts(s, r, tx.run, tx.claim);
  }

  /** Only reservations of that Run, its termination and its children move its account; only its own calls change. */
  lemma StepAccounts(s: Store, tx: Tx, r: Id)
    requires r in s.runs
    ensures Accounted(r, s.runs[r], Apply(s, tx), tx)
  {
    hide ApplyJob, ApplyRun, ApplyRunEnd, ApplyAction, ApplyInput, ApplyAccount, Accounted, Kept;
    if tx.AdmitChild? { AdmitChildAccounts(s, tx, r); }
    else if tx.TerminateRun? { TerminateTxAccounts(s, tx, r); }
    else if tx.ReserveBudget? || tx.SettleBudget? || tx.ReleaseBudget? { BudgetTxAccounts(s, tx, r); }
    else if OnAccount(tx) { CallTxAccounts(s, tx, r); }
    else {
      if OnRun(tx) { RunTxKeeps(s, tx, r); }
      else if OnRunEnd(tx) { RunEndTxKeeps(s, tx, r); }
      else if OnAction(tx) { ActionTxKeeps(s, tx, r); }
      else if OnInput(tx) { InputTxKeeps(s, tx, r); }
      else { JobTxKeeps(s, tx, r); }
      KeptIsAccounted(s, Apply(s, tx), tx, r);
    }
  }
}
