/**
 The life of one Action, as the moves the kernel's transactions make on it.
 A view is an Action together with the fact whether its approval request is still open.
 */
module ActionProtocol {
  import opened States
  import opened Wrappers
  import opened Vaults
  import opened Records

  function MarkLatest(attempts: seq<Attempt>, status: AttemptStatus): seq<Attempt>
    requires attempts != []
  {
    var at := Latest(attempts).value;
    attempts[at := attempts[at].(status := status)]
  }

  predicate LatestIs(attempts: seq<Attempt>, status: AttemptStatus) {
    attempts != [] && attempts[Latest(attempts).value].status == status
  }

  function NewAttempt(attempts: seq<Attempt>, epoch: nat, key: Option<EffectKey>): seq<Attempt> {
    attempts + [Attempt(MaxNumber(attempts) + 1, AttemptStatus.Started, epoch, key)]
  }

  function Opened(a: Action, epoch: nat, key: Option<EffectKey>): Action {
    a.(status := ActionStatus.Running, version := a.version + 1, leaseEpoch := epoch,
       key := if key.Some? then key else a.key, attempts := NewAttempt(a.attempts, epoch, key))
  }

  /** A new lease takes over a ledger-backed effect: the running attempt is given up, the next one opened. */
  function Reclaimed(a: Action, epoch: nat, key: Option<EffectKey>): Action
    requires a.attempts != []
  {
    Opened(a.(attempts := MarkLatest(a.attempts, AttemptStatus.OutcomeUnknown)), epoch, key)
  }

  function Closed(a: Action, ok: bool, result: ActionResult): Action
    requires a.attempts != []
  {
    a.(status := if ok then ActionStatus.Succeeded else ActionStatus.Failed,
       result := Some(result), version := a.version + 1,
       attempts := MarkLatest(a.attempts, if ok then AttemptStatus.Succeeded else AttemptStatus.Failed))
  }

  function LostOutcome(a: Action, result: ActionResult): Action
    requires a.attempts != []
  {
    a.(status := ActionStatus.OutcomeUnknown, result := Some(result), version := a.version + 1,
       attempts := MarkLatest(a.attempts, AttemptStatus.OutcomeUnknown))
  }

  function AwaitingRetry(a: Action, key: EffectKey, result: ActionResult): Action
    requires a.attempts != []
  {
    a.(status := ActionStatus.RetryWait, result := Some(result), key := Some(key), version := a.version + 1,
       attempts := MarkLatest(a.attempts, AttemptStatus.OutcomeUnknown))
  }

  function Retried(a: Action, key: EffectKey): Action
    requires a.attempts != []
  {
    var prior := a.attempts[Latest(a.attempts).value];
    a.(status := ActionStatus.Running, version := a.version + 1,
       attempts := a.attempts + [Attempt(prior.number + 1, AttemptStatus.Started, a.leaseEpoch, Some(key))])
  }

  function Asked(a: Action, request: Id): Action {
    a.(status := ActionStatus.WaitingInput, approval := Some(request), version := a.version + 1)
  }

  function Decided(a: Action, approved: bool): Action {
    a.(status := if approved then ActionStatus.Ready else ActionStatus.Cancelled, version := a.version + 1)
  }

  function Reconciled(a: Action, verdict: Verdict, cancelling: bool): Action {
    a.(status := match verdict.resolution
         case ConfirmedApplied => ActionStatus.Succeeded
         case ConfirmedNotApplied => if cancelling then ActionStatus.Cancelled else ActionStatus.Ready
         case ConfirmedStopped => ActionStatus.Cancelled,
       result := Some(Evidence(verdict.resolution)),
       version := a.version + 1,
       verdicts := a.verdicts + [verdict])
  }

  function Acknowledged(a: Action, stopped: bool): Action {
    a.(status := if stopped then ActionStatus.Cancelled else ActionStatus.WaitingExternal, version := a.version + 1)
  }

  datatype ActionMove =
    | Open(epoch: nat, key: Option<EffectKey>)
    | Reclaim(epoch: nat, key: Option<EffectKey>)
    | Close(ok: bool, result: ActionResult)
    | LoseOutcome(result: ActionResult)
    | ScheduleRetry(effectKey: EffectKey, result: ActionResult)
    | Retry(effectKey: EffectKey)
    | AskApproval(request: Id)
    | Decide(approved: bool)
    | Lapse
    | Reconcile(verdict: Verdict, cancelling: bool)
    | Sweep
    | Acknowledge(stopped: bool)

  datatype View = View(action: Action, pending: bool)

  predicate Enabled(v: View, m: ActionMove) {
    var a := v.action;
    match m
    case Open(_, _) => a.status.Ready?
    case Reclaim(epoch, key) =>
      && a.status.Running? && a.LocalReplayable()
      && a.leaseEpoch < epoch && key == a.key && LatestIs(a.attempts, AttemptStatus.Started)
    case Close(_, _) => a.status.Running? && LatestIs(a.attempts, AttemptStatus.Started)
    case LoseOutcome(_) => a.status.Running? && LatestIs(a.attempts, AttemptStatus.Started)
    case ScheduleRetry(key, _) =>
      && a.status.Running? && a.request.effect.RemoteIdempotent?
      && (a.key.Some? ==> a.key == Some(key)) && LatestIs(a.attempts, AttemptStatus.Started)
    case Retry(key) =>
      && a.status.RetryWait? && a.request.effect.RemoteIdempotent?
      && a.key == Some(key) && LatestIs(a.attempts, AttemptStatus.OutcomeUnknown)
    case AskApproval(_) => a.status.Ready? && !v.pending
    case Decide(_) => v.pending
    case Lapse => v.pending
    case Reconcile(_, _) => a.status.OutcomeUnknown? || a.status.WaitingExternal?
    case Sweep => a.status.Undispatched()
    case Acknowledge(_) => true
  }

  function Perform(v: View, m: ActionMove): View
    requires Enabled(v, m)
  {
    var a := v.action;
    match m
    case Open(epoch, key) => v.(action := Opened(a, epoch, key))
    case Reclaim(epoch, key) => v.(action := Reclaimed(a, epoch, key))
    case Close(ok, result) => v.(action := Closed(a, ok, result))
    case LoseOutcome(result) => v.(action := LostOutcome(a, result))
    case ScheduleRetry(key, result) => v.(action := AwaitingRetry(a, key, result))
    case Retry(key) => v.(action := Retried(a, key))
    case AskApproval(request) => View(Asked(a, request), true)
    case Decide(approved) => View(Decided(a, approved), false)
    case Lapse => v.(pending := false)
    case Reconcile(verdict, cancelling) => v.(action := Reconciled(a, verdict, cancelling))
    case Sweep => v.(action := a.(status := ActionStatus.Cancelled))
    case Acknowledge(stopped) => v.(action := Acknowledged(a, stopped))
  }

  /** A freshly admitted Action. */
  predicate Fresh(v: View) {
    && v.action.status.Ready? && v.action.attempts == [] && v.action.verdicts == []
    && v.action.key.None? && v.action.approval.None? && v.action.result.None? && !v.pending
  }

  /**
   The attempt ledger agrees with the Action: attempts are numbered 1..n, only the newest can be
   started and it is so exactly while the Action runs, an unknown outcome is the newest attempt's,
   and an open approval belongs to an Action that waits for it or was dropped while waiting.
   */
  ghost predicate LedgerAgrees(v: View) {
    var a := v.action;
    var n := |a.attempts|;
    && (forall i :: 0 <= i < n ==> a.attempts[i].number == i + 1)
    && (forall i :: 0 <= i < n - 1 ==> !a.attempts[i].status.Started?)
    && (a.status.Running? <==> n > 0 && a.attempts[n - 1].status.Started?)
    && (a.status.OutcomeUnknown? || a.status.RetryWait? ==> n > 0 && a.attempts[n - 1].status.OutcomeUnknown?)
    && (v.pending ==> a.approval.Some? && (a.status.WaitingInput? || a.status.Cancelled?))
  }

  lemma {:induction false} LatestIsLast(attempts: seq<Attempt>)
    requires forall i :: 0 <= i < |attempts| ==> attempts[i].number == i + 1
    ensures MaxNumber(attempts) == |attempts|
    ensures attempts != [] ==> Latest(attempts) == Some(|attempts| - 1)
  {
    if attempts != [] {
      LatestIsLast(attempts[..|attempts| - 1]);
    }
  }

  /** Every move but a bare cancel receipt, which overwrites the status unseen, keeps the ledger in agreement. */
  lemma LedgerStep(v: View, m: ActionMove)
    requires LedgerAgrees(v) && Enabled(v, m) && !m.Acknowledge?
    ensures LedgerAgrees(Perform(v, m))
  {
    LatestIsLast(v.action.attempts);
    if m.Reclaim? {
      LatestIsLast(MarkLatest(v.action.attempts, AttemptStatus.OutcomeUnknown));
    }
  }
}
