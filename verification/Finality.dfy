/**
 When the row of a settled Action is final: with bare cancel receipts, which overwrite a status unseen, and
 without them. Both conditions can be read off the store.
 */
module Finality {
  import opened States
  import opened Wrappers
  import opened Budgets
  import opened Vaults
  import opened Records
  import opened ActionProtocol
  import opened InputTransactions
  import opened Evolution
  import opened Kernel
  import opened KernelEvolution
  import opened Attempts
  import opened Endings
  import Runs = RunTransactions
  import Acts = ActionTransactions

  // ---- Which transactions touch a settled Action ----

  predicate IsSettled(s: Store, a: Id) {
    a in s.actions && s.actions[a].status.Settled()
  }

  /** The Action is settled and its Run is over. */
  predicate Over(s: Store, a: Id) {
    IsSettled(s, a) && s.actions[a].slot.run in s.runs && s.runs[s.actions[a].slot.run].status.Terminal()
  }

  predicate RowKept(s: Store, s': Store, a: Id)
    requires a in s.actions
  {
    a in s'.actions && s'.actions[a] == s.actions[a]
  }

  lemma ClosedJob(s: Store, tx: Tx, a: Id)
    requires IsSettled(s, a) && OnJob(tx)
    ensures RowKept(s, ApplyJob(s, tx), a)
  {
  }

  lemma ClosedRun(s: Store, tx: Tx, a: Id)
    requires IsSettled(s, a) && OnRun(tx)
    ensures RowKept(s, ApplyRun(s, tx), a)
  {
  }

  lemma ClosedRunEnd(s: Store, tx: Tx, a: Id)
    requires IsSettled(s, a) && OnRunEnd(tx)
    ensures RowKept(s, ApplyRunEnd(s, tx), a)
  {
  }

  lemma ClosedBegin(s: Store, a: Id, action: Id, claim: Option<Claim>, key: Option<EffectKey>)
    requires IsSettled(s, a)
    ensures RowKept(s, Acts.BeginDispatch(s, action, claim, key).store, a)
  {
    hide LeaseMatches, Acts.ClaimCovers, LatestIs, Reclaimed, Opened;
  }

  lemma ClosedComplete(s: Store, a: Id, action: Id, ok: bool, result: ActionResult, claim: Option<Claim>)
    requires IsSettled(s, a)
    ensures RowKept(s, Acts.CompleteAction(s, action, ok, result, claim).store, a)
  {
    hide LeaseMatches, Acts.ClaimCovers, LatestIs, Closed;
  }

  lemma ClosedReceipt(s: Store, a: Id, v: Vault, owner: Owner, action: Id, held: Claim)
    requires IsSettled(s, a)
    ensures RowKept(s, Acts.ReconcileLocal(s, v, owner, action, held).store, a)
  {
    hide LeaseMatches, Acts.ReceiptProves, LatestIs, Closed;
  }

  lemma ClosedUnknown(s: Store, a: Id, action: Id, result: ActionResult)
    requires IsSettled(s, a)
    ensures RowKept(s, Acts.MarkOutcomeUnknown(s, action, result).store, a)
  {
  }

  lemma ClosedRetryWait(s: Store, a: Id, action: Id, result: ActionResult, key: EffectKey)
    requires IsSettled(s, a)
    ensures RowKept(s, Acts.MarkRetryWait(s, action, result, key).store, a)
  {
  }

  lemma ClosedRetry(s: Store, a: Id, action: Id, key: EffectKey)
    requires IsSettled(s, a)
    ensures RowKept(s, Acts.BeginRetry(s, action, key).store, a)
  {
  }

  lemma OverCancelReceipt(s: Store, a: Id, action: Id, stopped: bool)
    requires Over(s, a)
    ensures RowKept(s, Acts.RecordCancelReceipt(s, action, stopped).store, a)
  {
    hide Store.HasUnresolvedActions, Store.HasNonterminalChildren;
  }

  lemma ClosedAction(s: Store, tx: Tx, a: Id)
    requires IsSettled(s, a) && OnAction(tx) && !tx.RecordCancelReceipt?
    ensures RowKept(s, ApplyAction(s, tx), a)
  {
    hide IsSettled, RowKept, Acts.BeginDispatch, Acts.CompleteAction, Acts.MarkOutcomeUnknown, Acts.MarkRetryWait,
         Acts.BeginRetry,
         Acts.ReconcileLocal;
    assert a in s.actions by { ClosedIsStored(s, a); }
    match tx
    case BeginDispatch(action, claim, key) => ClosedBegin(s, a, action, claim, key);
    case CompleteAction(action, ok, result, claim) => ClosedComplete(s, a, action, ok, result, claim);
    case MarkOutcomeUnknown(action, result) => ClosedUnknown(s, a, action, result);
    case MarkRetryWait(action, result, key) => ClosedRetryWait(s, a, action, result, key);
    case BeginRetry(action, key) => ClosedRetry(s, a, action, key);
    case ReconcileLocal(vault, owner, action, held) => ClosedReceipt(s, a, vault, owner, action, held);
  }

  lemma ClosedIsStored(s: Store, a: Id)
    requires IsSettled(s, a)
    ensures a in s.actions
  {
  }

  lemma OverRespond(s: Store, a: Id, owner: Owner, input: Id, version: nat, decision: Decision, content: nat, key: nat,
                    job: Id)
    requires Over(s, a) && (input in s.requests ==> RequestRefsOk(s, input))
    ensures RowKept(s, Inputs.Respond(s, owner, input, version, decision, content, key, job).store, a)
  {
    hide Decided, Store.HasNonterminalChildren;
  }

  lemma ClosedAdmit(s: Store, a: Id, owner: Owner, slot: Slot, request: Request, claim: Option<Claim>, action: Id)
    requires IsSettled(s, a)
    ensures RowKept(s, Acts.AdmitAction(s, owner, slot, request, claim, action).store, a)
  {
    hide LeaseMatches;
  }

  lemma ClosedVerdict(s: Store, a: Id, owner: Owner, action: Id, verdict: Verdict, evidenced: bool, job: Id)
    requires IsSettled(s, a)
    ensures RowKept(s, Acts.ReconcileAction(s, owner, action, verdict, evidenced, job).store, a)
  {
    hide Store.HasUnresolvedActions, Store.HasNonterminalChildren, Acts.FindVerdict;
  }

  lemma ClosedApproval(s: Store, a: Id, owner: Owner, action: Id, expiresAt: nat, input: Id)
    requires IsSettled(s, a)
    ensures RowKept(s, Inputs.RequestApproval(s, owner, action, expiresAt, input).store, a)
  {
  }

  lemma ClosedClarification(s: Store, a: Id, owner: Owner, run: Id, hash: nat, expiresAt: nat, claim: Option<Claim>,
                            input: Id)
    requires IsSettled(s, a)
    ensures RowKept(s, Inputs.RequestClarification(s, owner, run, hash, expiresAt, claim, input).store, a)
  {
    hide LeaseMatches;
  }

  lemma ClosedInput(s: Store, tx: Tx, a: Id)
    requires IsSettled(s, a) && OnInput(tx) && !tx.Respond?
    ensures RowKept(s, ApplyInput(s, tx), a)
  {
    hide IsSettled, RowKept, Acts.AdmitAction, Acts.ReconcileAction, Inputs.RequestApproval,
         Inputs.RequestClarification;
    assert a in s.actions by { ClosedIsStored(s, a); }
    match tx
    case AdmitAction(owner, slot, request, claim, action) => ClosedAdmit(s, a, owner, slot, request, claim, action);
    case ReconcileAction(owner, action, verdict, evidenced, job) =>
      ClosedVerdict(s, a, owner, action, verdict, evidenced, job);
    case RequestApproval(owner, action, expiresAt, input) => ClosedApproval(s, a, owner, action, expiresAt, input);
    case RequestClarification(owner, run, hash, expiresAt, claim, input) =>
      ClosedClarification(s, a, owner, run, hash, expiresAt, claim, input);
  }

  lemma ClosedAccount(s: Store, tx: Tx, a: Id)
    requires IsSettled(s, a) && OnAccount(tx)
    ensures RowKept(s, ApplyAccount(s, tx), a)
  {
  }

  /** Only an answer and a bare cancel receipt can touch a settled Action. */
  lemma ClosedStep(s: Store, tx: Tx, a: Id)
    requires IsSettled(s, a) && !tx.Respond? && !tx.RecordCancelReceipt?
    ensures RowKept(s, Apply(s, tx), a)
  {
    hide ApplyJob, ApplyRun, ApplyRunEnd, ApplyAction, ApplyInput, ApplyAccount, IsSettled, RowKept;
    if OnRun(tx) { ClosedRun(s, tx, a); }
    else if OnRunEnd(tx) { ClosedRunEnd(s, tx, a); }
    else if OnAction(tx) { ClosedAction(s, tx, a); }
    else if OnInput(tx) { ClosedInput(s, tx, a); }
    else if OnAccount(tx) { ClosedAccount(s, tx, a); }
    else { ClosedJob(s, tx, a); }
  }

  // ---- Finality with bare cancel receipts ----

  /** A settled Action of a Run that is over keeps its row under every transaction. */
  lemma OverStep(s: Store, tx: Tx, a: Id)
    requires Over(s, a) && Sound(s)
    ensures RowKept(s, Apply(s, tx), a)
  {
    hide ActionRefsOk, ParentOk, RowKept, Inputs.Respond, Acts.RecordCancelReceipt, RequestRefsOk, ApplyRun,
         ApplyRunEnd,
         ApplyAccount, ApplyJob;
    match tx {
      case Respond(owner, input, version, decision, content, key, job) =>
        assert input in s.requests ==> RequestRefsOk(s, input);
        OverRespond(s, a, owner, input, version, decision, content, key, job);
      case RecordCancelReceipt(action, stopped) => OverCancelReceipt(s, a, action, stopped);
      case _ =>
        hide Apply;
        ClosedStep(s, tx, a);
    }
  }

  lemma {:induction false} OverForever(s: Store, txs: seq<Tx>, a: Id)
    requires Over(s, a) && Sound(s)
    ensures Over(Execute(s, txs), a) && Sound(Execute(s, txs)) && RowKept(s, Execute(s, txs), a)
  {
    if txs != [] {
      hide Apply, Sound;
      var before, tx := Execute(s, txs[..|txs| - 1]), txs[|txs| - 1];
      OverForever(s, txs[..|txs| - 1], a);
      OverStep(before, tx, a);
      EndingsAreFinal(before, [tx], before.actions[a].slot.run);
      OneLast(before, tx);
    }
  }

  lemma OneLast(s: Store, tx: Tx)
    ensures Execute(s, [tx]) == Apply(s, tx)
  {
    hide Apply;
    assert Execute(s, [tx][..0]) == s;
  }

  /** A key nobody has used, and new identifiers for the jobs. */
  lemma NewNames(s: Store, owner: Owner, stopping: set<Id>) returns (key: nat, jobOf: map<Id, Id>)
    ensures AdmissionKey(owner, CancellationsRoute, key) !in s.admissions && Runs.FreshJobs(s.jobs, stopping, jobOf)
  {
    var keys := set at | at in s.admissions :: at.key;
    key := Bound(keys);
    var at := AdmissionKey(owner, CancellationsRoute, key);
    assert at in s.admissions ==> at.key in keys;
    var base := Bound(s.jobs.Keys);
    jobOf := map r | r in stopping :: base + r;
  }

  /** Stopping a subtree stops its root and drops no settled Action. */
  lemma StopsRoot(s: Store, run: Id, jobOf: map<Id, Id>)
    requires run in s.runs && !s.runs[run].status.Terminal() && !s.runs[run].status.Cancelling?
    requires Runs.FreshJobs(s.jobs, Runs.Stopping(s.runs, run), jobOf)
    ensures var s' := Runs.StopSubtree(s, run, jobOf);
      && run in s'.runs && s'.runs[run].status.Cancelling?
      && forall a :: a in s.actions && s.actions[a].status.Settled() ==> RowKept(s, s', a)
  {
    assert run in Runs.Stopping(s.runs, run) by { assert Runs.Below(s.runs, run, run); }
    hide Runs.FreshJobs, Runs.CancelJobs, Runs.Below, Runs.Stopping;
  }

  /** A cancellation under such a key is accepted. */
  lemma Cancelled(s: Store, run: Id) returns (tx: Tx)
    requires run in s.runs && !s.runs[run].status.Terminal() && !s.runs[run].status.Cancelling?
    ensures tx.RequestCancellation?
    ensures var s' := Apply(s, tx);
      && run in s'.runs && s'.runs[run].status.Cancelling?
      && forall a :: a in s.actions && s.actions[a].status.Settled() ==> RowKept(s, s', a)
  {
    hide ApplyRunEnd, ApplyAction, ApplyInput, ApplyAccount, ApplyJob;
    var key, jobOf := NewNames(s, s.runs[run].owner, Runs.Stopping(s.runs, run));
    StopsRoot(s, run, jobOf);
    hide Runs.FreshJobs, Runs.StopSubtree, Runs.Stopping;
    tx := Tx.RequestCancellation(s.runs[run].owner, run, key, 0, jobOf);
  }

  /** The status is overwritten: the Action waits for the outside again. */
  lemma ReceiptReopens(s: Store, a: Id)
    requires a in s.actions && s.actions[a].slot.run in s.runs && s.runs[s.actions[a].slot.run].status.Cancelling?
    ensures var s' := Apply(s, Tx.RecordCancelReceipt(a, false));
      a in s'.actions && s'.actions[a].status.WaitingExternal?
  {
    hide ApplyRun, ApplyRunEnd, ApplyInput, ApplyAccount, ApplyJob;
  }

  /** A settled Action of a Run that is not over can be reopened. */
  lemma Reopened(s: Store, a: Id) returns (txs: seq<Tx>)
    requires Sound(s) && a in s.actions && s.actions[a].status.Settled()
    requires s.actions[a].slot.run in s.runs && !s.runs[s.actions[a].slot.run].status.Terminal()
    ensures a in Execute(s, txs).actions && !Execute(s, txs).actions[a].status.Settled()
  {
    hide Apply, Sound;
    var run := s.actions[a].slot.run;
    var receipt := Tx.RecordCancelReceipt(a, false);
    if s.runs[run].status.Cancelling? {
      txs := [receipt];
      OneLast(s, receipt);
      ReceiptReopens(s, a);
    } else {
      var tx := Cancelled(s, run);
      txs := [tx, receipt];
      assert txs[..1] == [tx];
      OneLast(s, tx);
      ReceiptReopens(Apply(s, tx), a);
    }
  }

  /**
   Finality on the whole kernel, bare cancel receipts included: the row of a settled Action stays as it is
   over every continuation if and only if its Run is over.
   */
  lemma SettledIsFinalIffRunIsOver(s: Store, a: Id)
    requires Sound(s) && a in s.actions && s.actions[a].status.Settled() && s.actions[a].slot.run in s.runs
    ensures (forall txs :: RowKept(s, Execute(s, txs), a)) <==> s.runs[s.actions[a].slot.run].status.Terminal()
  {
    hide Sound;
    if s.runs[s.actions[a].slot.run].status.Terminal() {
      forall txs ensures RowKept(s, Execute(s, txs), a) { OverForever(s, txs, a); }
    } else {
      var txs := Reopened(s, a);
      assert !RowKept(s, Execute(s, txs), a);
    }
  }

  // ---- Finality without bare cancel receipts ----

  /** The Action's approval can still be answered: it is open, has not expired and fits, and the Run is not over. */
  predicate Answerable(s: Store, a: Id)
    requires a in s.actions
  {
    var action := s.actions[a];
    && ApprovalOpen(s, action)
    && s.requests[action.approval.value].expiresAt > s.now
    && s.requests[action.approval.value].Fits(action.request)
    && action.slot.run in s.runs && !s.runs[action.slot.run].status.Terminal()
  }

  lemma UnanswerableRespond(s: Store, a: Id, owner: Owner, input: Id, version: nat, decision: Decision, content: nat,
                            key: nat, job: Id)
    requires IsSettled(s, a) && Sound(s) && !Answerable(s, a)
    ensures RowKept(s, Inputs.Respond(s, owner, input, version, decision, content, key, job).store, a)
  {
    hide Decided, Store.HasNonterminalChildren, ParentOk;
    assert ActionRefsOk(s, a);
    if input in s.requests { assert RequestRefsOk(s, input); }
  }

  lemma UnanswerableStep(s: Store, tx: Tx, a: Id)
    requires IsSettled(s, a) && Sound(s) && !Answerable(s, a) && !tx.RecordCancelReceipt?
    ensures RowKept(s, Apply(s, tx), a)
  {
    hide Sound, RowKept, Inputs.Respond, ApplyRun, ApplyRunEnd, ApplyAction, ApplyAccount, ApplyJob, Answerable;
    match tx {
      case Respond(owner, input, version, decision, content, key, job) =>
        UnanswerableRespond(s, a, owner, input, version, decision, content, key, job);
      case _ =>
        hide Apply;
        ClosedStep(s, tx, a);
    }
  }

  /** Requests keep what they were made for; a closed one stays closed. */
  predicate RequestsKept(s: Store, s': Store) {
    forall q :: q in s.requests ==>
      (q in s'.requests
       && s'.requests[q].expiresAt == s.requests[q].expiresAt && s'.requests[q].requestHash == s.requests[q].requestHash
       && s'.requests[q].revision == s.requests[q].revision
       && (s'.requests[q].status.Pending? ==> s.requests[q].status.Pending?))
  }

  lemma InputKeepsRequests(s: Store, tx: Tx)
    requires OnInput(tx)
    ensures RequestsKept(s, ApplyInput(s, tx))
  {
    hide Acts.FindVerdict, Store.HasUnresolvedActions, Store.HasNonterminalChildren, LeaseMatches, Decided, Asked,
         Reconciled;
  }

  lemma JobKeepsRequests(s: Store, tx: Tx)
    requires OnJob(tx)
    ensures ApplyJob(s, tx).requests == s.requests
  {
  }

  lemma ChildKeepsRequests(s: Store, tx: Tx)
    requires tx.AdmitChild?
    ensures ApplyRun(s, tx).requests == s.requests
  {
    hide Runs.ChildRows, Runs.ChildRowsTaken, Runs.ChildFits, Runs.Children, RunStatus.CanBecome;
  }

  lemma RunKeepsRequests(s: Store, tx: Tx)
    requires OnRun(tx)
    ensures ApplyRun(s, tx).requests == s.requests
  {
    hide Runs.Below, Runs.StopRuns, Runs.CancelJobs, Runs.FreshJobs, SweepActions, RetireReady, Store.Fence,
         RunStatus.CanBecome, Runs.AdmitChild;
    if tx.AdmitChild? { ChildKeepsRequests(s, tx); }
  }

  lemma TerminateKeepsRequests(s: Store, run: Id, claim: Option<Claim>)
    ensures Runs.TerminateRun(s, run, claim).store.requests == s.requests
  {
    hide SweepActions, RetireReady, Store.HasUncertainEffects, Store.HasNonterminalChildren, Store.Fence,
         Budget.ReleaseAll;
  }

  lemma RunEndKeepsRequests(s: Store, tx: Tx)
    requires OnRunEnd(tx)
    ensures ApplyRunEnd(s, tx).requests == s.requests
  {
    hide RetireReady, Store.HasNonterminalChildren, Store.Fence, RunStatus.CanBecome, Runs.TerminateRun;
    if tx.TerminateRun? { TerminateKeepsRequests(s, tx.run, tx.claim); }
  }

  lemma ActionKeepsRequests(s: Store, tx: Tx)
    requires OnAction(tx)
    ensures ApplyAction(s, tx).requests == s.requests
  {
    hide LeaseMatches, LatestIs, Acts.ReceiptProves, Acts.ClaimCovers, Store.HasUnresolvedActions,
         Store.HasNonterminalChildren;
  }

  lemma AccountKeepsRequests(s: Store, tx: Tx)
    requires OnAccount(tx)
    ensures ApplyAccount(s, tx).requests == s.requests
  {
    hide LeaseMatches, Budget.Reserve, Budget.Settle, Budget.Release;
  }

  lemma RequestsStep(s: Store, tx: Tx)
    ensures RequestsKept(s, Apply(s, tx))
  {
    hide ApplyJob, ApplyRun, ApplyRunEnd, ApplyAction, ApplyInput, ApplyAccount, RequestsKept;
    if OnInput(tx) {
      InputKeepsRequests(s, tx);
    } else {
      if OnRun(tx) { RunKeepsRequests(s, tx); }
      else if OnRunEnd(tx) { RunEndKeepsRequests(s, tx); }
      else if OnAction(tx) { ActionKeepsRequests(s, tx); }
      else if OnAccount(tx) { AccountKeepsRequests(s, tx); }
      else { JobKeepsRequests(s, tx); }
      SameRequests(s, Apply(s, tx));
    }
  }

  lemma SameRequests(s: Store, s': Store)
    requires s'.requests == s.requests
    ensures RequestsKept(s, s')
  {
  }

  /** An approval that cannot be answered any more never can be again. */
  lemma StaysUnanswerable(s: Store, s': Store, a: Id)
    requires Sound(s) && a in s.actions && !Answerable(s, a)
    requires RowKept(s, s', a) && RequestsKept(s, s') && RunsEvolve(s, s')
    ensures !Answerable(s', a)
  {
    hide ParentOk, RequestRefsOk, LogOk, LogExtends, BudgetEvolves, NewRun;
    assert ActionRefsOk(s, a);
    var run := s.actions[a].slot.run;
    assert RunEvolves(s.runs[run], s'.runs[run]);
    RunStatusStep(s.runs[run], s'.runs[run]);
    hide RunEvolves;
  }

  lemma {:induction false} UnanswerableForever(s: Store, txs: seq<Tx>, a: Id)
    requires IsSettled(s, a) && Sound(s) && !Answerable(s, a) && NoReceipts(txs)
    ensures var s' := Execute(s, txs); Sound(s') && RowKept(s, s', a) && !Answerable(s', a)
  {
    if txs != [] {
      hide Apply, Sound, Answerable, RequestsKept, RunsEvolve, JobsEvolve, ActionsEvolve;
      var before, tx := Execute(s, txs[..|txs| - 1]), txs[|txs| - 1];
      UnanswerableForever(s, txs[..|txs| - 1], a);
      UnanswerableStep(before, tx, a);
      RequestsStep(before, tx);
      StepParts(before, tx);
      StaysUnanswerable(before, Apply(before, tx), a);
    }
  }

  // ---- Answering an open approval ----

  /** The generic transition leads any Run that is not over to where it waits for input. */
  function Towards(status: RunStatus): RunStatus {
    match status
    case Cancelling => RunStatus.Blocked
    case Blocked => RunStatus.Queued
    case Queued => RunStatus.Running
    case _ => RunStatus.WaitingInput
  }

  function Distance(status: RunStatus): nat {
    match status
    case Cancelling => 4
    case Blocked => 3
    case Queued => 2
    case Running => 1
    case _ => 0
  }

  lemma TransitionMoves(s: Store, run: Id)
    requires run in s.runs && !s.runs[run].status.Terminal() && !s.runs[run].status.WaitingInput?
    ensures var s' := Runs.TransitionRun(s, run, s.runs[run].version, Towards(s.runs[run].status)).store;
      s' == s.(runs := s'.runs) && run in s'.runs && s'.runs[run].status == Towards(s.runs[run].status)
  {
    hide Store.HasNonterminalChildren;
  }

  lemma TransitionStep(s: Store, run: Id)
    requires run in s.runs && !s.runs[run].status.Terminal() && !s.runs[run].status.WaitingInput?
    ensures var s' := Apply(s, Tx.TransitionRun(run, s.runs[run].version, Towards(s.runs[run].status)));
      s' == s.(runs := s'.runs) && run in s'.runs && s'.runs[run].status == Towards(s.runs[run].status)
  {
    TransitionMoves(s, run);
    hide Runs.TransitionRun, Towards, RunStatus.Terminal;
  }

  lemma {:induction false} LeadToInput(s: Store, run: Id) returns (txs: seq<Tx>)
    requires run in s.runs && !s.runs[run].status.Terminal()
    ensures NoReceipts(txs)
    ensures var s' := Execute(s, txs); s' == s.(runs := s'.runs) && run in s'.runs && s'.runs[run].status.WaitingInput?
    decreases Distance(s.runs[run].status)
  {
    txs := [];
    if !s.runs[run].status.WaitingInput? {
      hide Apply;
      var tx := Tx.TransitionRun(run, s.runs[run].version, Towards(s.runs[run].status));
      TransitionStep(s, run);
      var rest := LeadToInput(Apply(s, tx), run);
      OneLast(s, tx);
      ExecuteConcat(s, [tx], rest);
      txs := [tx] + rest;
    }
  }

  lemma Approved(s: Store, a: Id, owner: Owner, input: Id, key: nat, job: Id)
    requires a in s.actions && Answerable(s, a) && input == s.actions[a].approval.value
    requires s.requests[input].action == Some(a)
    requires owner == s.requests[input].owner && s.requests[input].run in s.runs
    requires s.runs[s.requests[input].run].status.WaitingInput?
    requires ResponseKey(owner, key) !in s.responses && job !in s.jobs
    ensures var s' := Apply(s, Tx.Respond(owner, input, s.requests[input].version, Decision.Approve, 0, key, job));
      a in s'.actions && s'.actions[a].status.Ready?
  {
    hide ApplyRun, ApplyRunEnd, ApplyAction, ApplyAccount, ApplyJob, Store.HasNonterminalChildren;
  }

  /** An approval that can still be answered can be answered so that the Action is sent after all. */
  lemma Answered(s: Store, a: Id) returns (txs: seq<Tx>)
    requires Sound(s) && IsSettled(s, a) && Answerable(s, a)
    ensures NoReceipts(txs) && a in Execute(s, txs).actions && Execute(s, txs).actions[a].status.Ready?
  {
    hide ParentOk, Apply;
    assert ActionRefsOk(s, a);
    var input := s.actions[a].approval.value;
    assert RequestRefsOk(s, input);
    var owner := s.requests[input].owner;
    var keys := set at | at in s.responses :: at.key;
    var key := Bound(keys);
    var job := Bound(s.jobs.Keys);
    var at := ResponseKey(owner, key);
    assert at in s.responses ==> at.key in keys;
    var before := LeadToInput(s, s.requests[input].run);
    var s1 := Execute(s, before);
    var tx := Tx.Respond(owner, input, s.requests[input].version, Decision.Approve, 0, key, job);
    Approved(s1, a, owner, input, key, job);
    OneLast(s1, tx);
    ExecuteConcat(s, before, [tx]);
    txs := before + [tx];
  }

  /**
   Finality without bare cancel receipts: the row of a settled Action stays as it is over every such
   continuation if and only if no approval of it can still be answered.
   */
  lemma SettledIsFinalIffUnanswerable(s: Store, a: Id)
    requires Sound(s) && IsSettled(s, a)
    ensures (forall txs :: NoReceipts(txs) ==> RowKept(s, Execute(s, txs), a)) <==> !Answerable(s, a)
  {
    hide Sound, Answerable, NoReceipts;
    if Answerable(s, a) {
      var txs := Answered(s, a);
      assert !RowKept(s, Execute(s, txs), a);
    } else {
      forall txs | NoReceipts(txs) ensures RowKept(s, Execute(s, txs), a) { UnanswerableForever(s, txs, a); }
    }
  }
}
