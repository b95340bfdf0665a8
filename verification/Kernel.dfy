/** The kernel as a state machine: every transaction as one labelled step, and runs as sequences of steps. */
module Kernel {
  import opened States
  import opened Wrappers
  import opened Budgets
  import opened Vaults
  import opened Records
  import Jobs = JobTransactions
  import Runs = RunTransactions
  import Acts = ActionTransactions
  import Inputs = InputTransactions
  import Accounts = AccountTransactions

  datatype Tx =
    | Tick(seconds: nat)
    | ClaimJob(worker: nat, leaseSeconds: nat, kind: Option<JobKind>, pick: Id)
    | RenewLease(held: Claim, leaseSeconds: nat)
    | CompleteJob(held: Claim)
    | DeferJob(held: Claim, delaySeconds: nat)
    | AdmitRun(owner: Owner, clientKey: nat, hash: nat, limits: Limits, wall: Option<nat>, run: Id, job: Id)
    | AdmitChild(owner: Owner, parent: Id, clientKey: nat, hash: nat, limits: Limits, wall: Option<nat>,
                 maxDepth: nat, maxChildren: nat, run: Id, job: Id)
    | RequestCancellation(owner: Owner, run: Id, clientKey: nat, hash: nat, jobOf: map<Id, Id>)
    | FinalizeCancellation(owner: Owner, run: Id, claim: Option<Claim>)
    | TransitionRun(run: Id, expectedVersion: nat, next: RunStatus)
    | EnsureRunning(run: Id, claim: Option<Claim>)
    | FinishImplicit(run: Id, succeeded: bool)
    | AppendEvent(run: Id, about: Option<Id>)
    | RecordCompletion(owner: Owner, run: Id, verified: bool, claim: Option<Claim>)
    | BlockRun(run: Id, claim: Option<Claim>)
    | FailRun(run: Id, claim: Option<Claim>)
    | TerminateRun(run: Id, claim: Option<Claim>)
    | RecoverCheckpoint(owner: Owner, run: Id, incompatible: bool)
    | AdmitAction(owner: Owner, slot: Slot, request: Request, claim: Option<Claim>, action: Id)
    | BeginDispatch(action: Id, claim: Option<Claim>, key: Option<EffectKey>)
    | CompleteAction(action: Id, ok: bool, result: ActionResult, claim: Option<Claim>)
    | MarkOutcomeUnknown(action: Id, result: ActionResult)
    | MarkRetryWait(action: Id, result: ActionResult, effectKey: EffectKey)
    | BeginRetry(action: Id, effectKey: EffectKey)
    | RecordCancelReceipt(action: Id, stopped: bool)
    | ReconcileAction(owner: Owner, action: Id, verdict: Verdict, evidenced: bool, job: Id)
    | ReconcileLocal(vault: Vault, owner: Owner, action: Id, held: Claim)
    | RequestApproval(owner: Owner, action: Id, expiresAt: nat, input: Id)
    | RequestClarification(owner: Owner, run: Id, hash: nat, expiresAt: nat, claim: Option<Claim>, input: Id)
    | Respond(owner: Owner, input: Id, inputVersion: nat, decision: Decision, content: nat, clientKey: nat, job: Id)
    | ReserveBudget(run: Id, reservation: ReservationKey, dimension: Dimension, amount: int, claim: Option<Claim>)
    | SettleBudget(run: Id, reservation: ReservationKey, actual: int, claim: Option<Claim>)
    | ReleaseBudget(run: Id, reservation: ReservationKey, claim: Option<Claim>)
    | BeginModelCall(owner: Owner, run: Id, turn: nat, maxOutput: nat, claim: Option<Claim>)
    | CompleteModelCall(run: Id, turn: nat, outputTokens: nat, claim: Option<Claim>)
    | MarkModelCall(run: Id, turn: nat, valid: bool, claim: Option<Claim>)

  predicate OnJob(tx: Tx) {
    || tx.Tick? || tx.ClaimJob? || tx.RenewLease? || tx.CompleteJob? || tx.DeferJob?
  }

  function ApplyJob(s: Store, tx: Tx): Store
    requires OnJob(tx)
  {
    match tx
    case Tick(seconds) => s.(now := s.now + seconds)
    case ClaimJob(worker, lease, kind, pick) => Jobs.ClaimJob(s, worker, lease, kind, pick).store
    case RenewLease(held, lease) => Jobs.RenewLease(s, held, lease).store
    case CompleteJob(held) => Jobs.CompleteJob(s, held).store
    case DeferJob(held, delay) => Jobs.DeferJob(s, held, delay).store
  }

  predicate OnRun(tx: Tx) {
    || tx.AdmitRun? || tx.AdmitChild? || tx.RequestCancellation? || tx.FinalizeCancellation?
    || tx.TransitionRun? || tx.EnsureRunning?
  }

  ghost function ApplyRun(s: Store, tx: Tx): Store
    requires OnRun(tx)
  {
    match tx
    case AdmitRun(owner, key, hash, limits, wall, run, job) =>
      Runs.AdmitRun(s, owner, key, hash, limits, wall, run, job).store
    case AdmitChild(owner, parent, key, hash, limits, wall, maxDepth, maxChildren, run, job) =>
      Runs.AdmitChild(s, owner, parent, key, hash, limits, wall, maxDepth, maxChildren, run, job).store
    case RequestCancellation(owner, run, key, hash, jobOf) =>
      Runs.RequestCancellation(s, owner, run, key, hash, jobOf).store
    case FinalizeCancellation(owner, run, claim) => Runs.FinalizeCancellation(s, owner, run, claim).store
    case TransitionRun(run, version, next) => Runs.TransitionRun(s, run, version, next).store
    case EnsureRunning(run, claim) => Runs.EnsureRunning(s, run, claim).store
  }

  predicate OnRunEnd(tx: Tx) {
    || tx.FinishImplicit? || tx.RecordCompletion? || tx.BlockRun?
    || tx.FailRun? || tx.TerminateRun? || tx.RecoverCheckpoint?
  }

  function ApplyRunEnd(s: Store, tx: Tx): Store
    requires OnRunEnd(tx)
  {
    match tx
    case FinishImplicit(run, succeeded) => Runs.FinishImplicit(s, run, succeeded).store
    case RecordCompletion(owner, run, verified, claim) => Runs.RecordCompletion(s, owner, run, verified, claim).store
    case BlockRun(run, claim) => Runs.BlockRun(s, run, claim).store
    case FailRun(run, claim) => Runs.FailRun(s, run, claim).store
    case TerminateRun(run, claim) => Runs.TerminateRun(s, run, claim).store
    case RecoverCheckpoint(owner, run, incompatible) => Runs.RecoverCheckpoint(s, owner, run, incompatible).store
  }

  predicate OnAction(tx: Tx) {
    || tx.BeginDispatch? || tx.CompleteAction? || tx.MarkOutcomeUnknown?
    || tx.MarkRetryWait? || tx.BeginRetry? || tx.RecordCancelReceipt? || tx.ReconcileLocal?
  }

  function ApplyAction(s: Store, tx: Tx): Store
    requires OnAction(tx)
  {
    match tx
    case BeginDispatch(action, claim, key) => Acts.BeginDispatch(s, action, claim, key).store
    case CompleteAction(action, ok, result, claim) => Acts.CompleteAction(s, action, ok, result, claim).store
    case MarkOutcomeUnknown(action, result) => Acts.MarkOutcomeUnknown(s, action, result).store
    case MarkRetryWait(action, result, key) => Acts.MarkRetryWait(s, action, result, key).store
    case BeginRetry(action, key) => Acts.BeginRetry(s, action, key).store
    case RecordCancelReceipt(action, stopped) => Acts.RecordCancelReceipt(s, action, stopped).store
    case ReconcileLocal(vault, owner, action, held) => Acts.ReconcileLocal(s, vault, owner, action, held).store
  }

  predicate OnInput(tx: Tx) {
    || tx.AdmitAction? || tx.ReconcileAction? || tx.RequestApproval? || tx.RequestClarification? || tx.Respond?
  }

  function ApplyInput(s: Store, tx: Tx): Store
    requires OnInput(tx)
  {
    match tx
    case AdmitAction(owner, slot, request, claim, action) =>
      Acts.AdmitAction(s, owner, slot, request, claim, action).store
    case ReconcileAction(owner, action, verdict, evidenced, job) =>
      Acts.ReconcileAction(s, owner, action, verdict, evidenced, job).store
    case RequestApproval(owner, action, expiresAt, input) =>
      Inputs.RequestApproval(s, owner, action, expiresAt, input).store
    case RequestClarification(owner, run, hash, expiresAt, claim, input) =>
      Inputs.RequestClarification(s, owner, run, hash, expiresAt, claim, input).store
    case Respond(owner, input, version, decision, content, key, job) =>
      Inputs.Respond(s, owner, input, version, decision, content, key, job).store
  }

  predicate OnAccount(tx: Tx) {
    || tx.AppendEvent? || tx.ReserveBudget? || tx.SettleBudget? || tx.ReleaseBudget? || tx.BeginModelCall?
    || tx.CompleteModelCall? || tx.MarkModelCall?
  }

  function ApplyAccount(s: Store, tx: Tx): Store
    requires OnAccount(tx)
  {
    match tx
    case AppendEvent(run, about) => Runs.AppendEvent(s, run, about).store
    case ReserveBudget(run, key, d, amount, claim) => Accounts.ReserveBudget(s, run, key, d, amount, claim).store
    case SettleBudget(run, key, actual, claim) => Accounts.SettleBudget(s, run, key, actual, claim).store
    case ReleaseBudget(run, key, claim) => Accounts.ReleaseBudget(s, run, key, claim).store
    case BeginModelCall(owner, run, turn, maxOutput, claim) =>
      Accounts.BeginModelCall(s, owner, run, turn, maxOutput, claim).store
    case CompleteModelCall(run, turn, tokens, claim) => Accounts.CompleteModelCall(s, run, turn, tokens, claim).store
    case MarkModelCall(run, turn, valid, claim) => Accounts.MarkModelCall(s, run, turn, valid, claim).store
  }

  /** One transaction. */
  ghost function Apply(s: Store, tx: Tx): Store {
    if OnRun(tx) then ApplyRun(s, tx)
    else if OnRunEnd(tx) then ApplyRunEnd(s, tx)
    else if OnAction(tx) then ApplyAction(s, tx)
    else if OnInput(tx) then ApplyInput(s, tx)
    else if OnAccount(tx) then ApplyAccount(s, tx)
    else ApplyJob(s, tx)
  }

  /** The store after a sequence of transactions. */
  ghost function Execute(s: Store, txs: seq<Tx>): Store {
    if txs == [] then s else Apply(Execute(s, txs[..|txs| - 1]), txs[|txs| - 1])
  }

  lemma {:induction false} ExecuteConcat(s: Store, first: seq<Tx>, second: seq<Tx>)
    ensures Execute(s, first + second) == Execute(Execute(s, first), second)
  {
    if second == [] {
      assert first + second == first;
    } else {
      var last := |second| - 1;
      assert (first + second)[..|first + second| - 1] == first + second[..last];
      ExecuteConcat(s, first, second[..last]);
    }
  }
}
