/** The kernel's tables: Runs with their event log and budget, Actions with their attempts, jobs and input requests. */
module Records {
  import opened States
  import opened Wrappers
  import opened Budgets
  import opened Vaults

  datatype EventKind =
    | RunAccepted | RunChildAccepted | RunStarted | RunCancellationRequested | RunCancelled
    | RunFinished | RunTransitioned | RunBlocked | RunFailed | RunMigrationRequired
    | ActionReady | ActionStarted | ActionRetryStarted | ActionRetryScheduled | ActionCompleted
    | ActionOutcomeUnknown | ActionReconciled | ActionReconciledLocal | ActionCancelReceipt
    | InputRequested | InputAnswered | InputDenied | InputExpired
    | ModelCallStarted | ModelResponseCommitted | ModelCallClosed
    | CompletionRecorded | Appended

  datatype Event = Event(seqNo: nat, kind: EventKind, action: Option<Id>)

  datatype CallStatus = Started | Committed | Processed | Invalid

  datatype ModelCall = ModelCall(status: CallStatus, maxOutput: nat, outputTokens: nat)

  datatype Run = Run(
    owner: Owner,
    parent: Option<Id>,
    depth: nat,
    createdAt: nat,
    status: RunStatus,
    version: nat,
    eventSeq: nat,
    events: seq<Event>,
    budget: Budget,
    calls: map<nat, ModelCall>,
    clarifications: map<nat, Id>)
  {
    function Append(kind: EventKind, action: Option<Id>): Run {
      this.(eventSeq := eventSeq + 1, events := events + [Event(eventSeq + 1, kind, action)])
    }

    function Become(next: RunStatus): Run {
      this.(status := next, version := version + 1)
    }
  }

  datatype AttemptStatus = Started | Succeeded | Failed | OutcomeUnknown

  datatype Attempt = Attempt(number: nat, status: AttemptStatus, leaseEpoch: nat, key: Option<EffectKey>)

  datatype EffectClass = ReadOnly | LocalTransactional | RemoteIdempotent | Unsafe

  /** Only the two ledger-backed writes are told apart; every other capability is a number. */
  datatype CapabilityId = ArtifactCreate | WorkspaceFileWrite | OtherCapability(code: nat)

  predicate LeaseReplayable(capability: CapabilityId) {
    capability.ArtifactCreate? || capability.WorkspaceFileWrite?
  }

  datatype Resolution = ConfirmedApplied | ConfirmedNotApplied | ConfirmedStopped

  datatype Verdict = Verdict(key: nat, actionVersion: nat, resolution: Resolution, evidence: nat)

  datatype ActionResult =
    | Envelope(reply: Reply)
    | Opaque(code: nat)
    | Evidence(resolution: Resolution)

  datatype Slot = Slot(run: Id, turn: nat, index: nat)

  /** What admission fixes for good. */
  datatype Request = Request(
    hash: nat, capability: CapabilityId, revision: nat, effect: EffectClass, bound: Option<LocalWrite>)

  datatype Action = Action(
    owner: Owner,
    slot: Slot,
    request: Request,
    status: ActionStatus,
    version: nat,
    leaseEpoch: nat,
    key: Option<EffectKey>,
    result: Option<ActionResult>,
    approval: Option<Id>,
    attempts: seq<Attempt>,
    verdicts: seq<Verdict>)
  {
    predicate LocalReplayable() {
      request.effect.LocalTransactional? && LeaseReplayable(request.capability)
    }

    /** Neither safe to send twice nor backed by a ledger. */
    predicate Blind() {
      !request.effect.RemoteIdempotent? && !LocalReplayable()
    }
  }

  /** `max(attempt_no)`, or 0 without attempts. */
  function MaxNumber(attempts: seq<Attempt>): nat {
    if attempts == [] then 0
    else
      var rest := MaxNumber(attempts[..|attempts| - 1]);
      var last := attempts[|attempts| - 1].number;
      if rest < last then last else rest
  }

  /** The position of the attempt with the highest number (`ORDER BY attempt_no DESC LIMIT 1`). */
  function Latest(attempts: seq<Attempt>): (at: Option<nat>)
    ensures at.None? <==> attempts == []
    ensures at.Some? ==> at.value < |attempts| && attempts[at.value].number == MaxNumber(attempts)
  {
    if attempts == [] then None
    else
      var last := |attempts| - 1;
      var rest := Latest(attempts[..last]);
      if rest.None? || attempts[rest.value].number <= attempts[last].number then Some(last) else rest
  }

  datatype JobKind = AdvanceRun | CancelRun | TaskPoll

  datatype JobStatus = Ready | Leased | Done

  datatype Job = Job(
    kind: JobKind,
    run: Id,
    action: Option<Id>,
    status: JobStatus,
    dueAt: nat,
    owner: Option<nat>,
    leaseUntil: Option<nat>,
    epoch: nat,
    attempts: nat)

  function NewJob(kind: JobKind, run: Id, action: Option<Id>, dueAt: nat): Job {
    Job(kind, run, action, JobStatus.Ready, dueAt, None, None, 0, 0)
  }

  /** What a worker holds after claiming a job: the claim, and the name it claimed under. */
  datatype Claim = Claim(job: Id, kind: JobKind, run: Id, action: Option<Id>, epoch: nat, worker: nat)

  predicate LeaseMatches(job: Job, claim: Claim, now: nat) {
    && job.status.Leased?
    && job.owner == Some(claim.worker)
    && job.epoch == claim.epoch
    && job.leaseUntil.Some?
    && job.leaseUntil.value >= now
  }

  datatype RequestStatus = Pending | Answered | Denied | Expired

  datatype InputRequest = InputRequest(
    owner: Owner, run: Id, action: Option<Id>, status: RequestStatus, version: nat,
    requestHash: nat, revision: Option<nat>, expiresAt: nat)
  {
    /** The Action still asks for what was put before the user. */
    predicate Fits(asked: Request) {
      asked.hash == requestHash && Some(asked.revision) == revision
    }
  }

  datatype Decision = Approve | Deny | Submit

  datatype ResponseKey = ResponseKey(owner: Owner, key: nat)

  datatype Response = Response(request: Id, version: nat, decision: Decision, content: nat)

  datatype AdmissionRoute = RunsRoute | ChildrenRoute | CancellationsRoute

  datatype AdmissionKey = AdmissionKey(owner: Owner, route: AdmissionRoute, key: nat)

  datatype Admission = Admission(hash: nat, resource: Id)

  datatype Accepted = Accepted(resource: Id, replayed: bool)

  datatype Store = Store(
    now: nat,
    runs: map<Id, Run>,
    actions: map<Id, Action>,
    slots: map<Slot, Id>,        // the unique index over (run, turn, call index)
    jobs: map<Id, Job>,
    requests: map<Id, InputRequest>,
    responses: map<ResponseKey, Response>,
    admissions: map<AdmissionKey, Admission>)
  {
    function WithRun(id: Id, run: Run): Store {
      this.(runs := runs[id := run])
    }

    function WithAction(id: Id, action: Action): Store {
      this.(actions := actions[id := action])
    }

    function WithJob(id: Id, job: Job): Store {
      this.(jobs := jobs[id := job])
    }

    predicate Owns(owner: Owner, run: Id) {
      run in runs && runs[run].owner == owner
    }

    predicate OwnsAction(owner: Owner, action: Id) {
      action in actions && actions[action].owner == owner
    }

    predicate Holds(claim: Claim) {
      claim.job in jobs && LeaseMatches(jobs[claim.job], claim, now)
    }

    /** The fence of Run writes: no claim at all, or a live claim of a job of this kind for this Run. */
    predicate Fence(claim: Option<Claim>, kind: JobKind, run: Id) {
      claim.Some? ==>
        && Holds(claim.value)
        && jobs[claim.value.job].run == run
        && jobs[claim.value.job].kind == kind
    }

    predicate HasUnresolvedActions(run: Id) {
      exists a :: a in actions && actions[a].slot.run == run && !actions[a].status.Settled()
    }

    predicate HasUncertainEffects(run: Id) {
      exists a :: a in actions && actions[a].slot.run == run && actions[a].status.Uncertain()
    }

    predicate HasNonterminalChildren(run: Id) {
      exists c :: c in runs && runs[c].parent == Some(run) && !runs[c].status.Terminal()
    }
  }

  const EMPTY_STORE := Store(0, map[], map[], map[], map[], map[], map[], map[])

  /** A transaction's outcome: the store it leaves, and what its caller gets back. */
  datatype Commit<+T> = Commit(store: Store, result: Result<T>)

  function Abort<T>(s: Store, error: Error): Commit<T> {
    Commit(s, Err(error))
  }

  /** Retire the wake-ups of a Run that nobody has claimed. */
  function RetireReady(jobs: map<Id, Job>, run: Id): map<Id, Job> {
    map j | j in jobs ::
      if jobs[j].run == run && jobs[j].status.Ready? then jobs[j].(status := JobStatus.Done) else jobs[j]
  }

  /** Drop the Actions of these Runs that were never dispatched. */
  function SweepActions(actions: map<Id, Action>, swept: set<Id>): map<Id, Action> {
    map a | a in actions ::
      if actions[a].slot.run in swept && actions[a].status.Undispatched()
      then actions[a].(status := ActionStatus.Cancelled) else actions[a]
  }
}
