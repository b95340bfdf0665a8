/** Transactions on Actions: admission, dispatch, outcome, approval, retry and reconciliation. */
module ActionTransactions {
  import opened States
  import opened Wrappers
  import opened Vaults
  import opened Records
  import opened ActionProtocol

  datatype Admitted = Admitted(action: Id, replayed: bool)

  function AdmitAction(s: Store, owner: Owner, slot: Slot, request: Request, claim: Option<Claim>, action: Id)
    : Commit<Admitted>
  {
    if !s.Fence(claim, AdvanceRun, slot.run) then Abort(s, LeaseLost)
    else if !s.Owns(owner, slot.run) then Abort(s, NotFound)
    else if slot in s.slots && s.slots[slot] in s.actions then
      var existing := s.actions[s.slots[slot]].request;
      if existing.hash != request.hash || existing.capability != request.capability
        || existing.revision != request.revision
      then Abort(s, IdempotencyConflict)
      else Commit(s, Ok(Admitted(s.slots[slot], true)))
    else if !s.runs[slot.run].status.Queued? && !s.runs[slot.run].status.Running? then Abort(s, AlreadyTerminal)
    else if action in s.actions || slot in s.slots then Abort(s, DuplicateKey)
    else
      var row := Action(owner, slot, request, ActionStatus.Ready, 0, 0, None, None, None, [], []);
      Commit(s.WithRun(slot.run, s.runs[slot.run].Append(ActionReady, Some(action)))
              .(actions := s.actions[action := row], slots := s.slots[slot := action]),
             Ok(Admitted(action, false)))
  }

  /** The claim a dispatch or completion runs under names the Action's Run, or the Action itself. */
  predicate ClaimCovers(s: Store, claim: Claim, action: Id)
    requires claim.job in s.jobs
  {
    if s.jobs[claim.job].kind.AdvanceRun?
    then action in s.actions && s.jobs[claim.job].run == s.actions[action].slot.run
    else s.jobs[claim.job].action == Some(action)
  }

  /** A newer lease of an advance job may take over a running ledger-backed effect. */
  predicate Recovering(s: Store, action: Action, claim: Option<Claim>)
    requires claim.Some? ==> claim.value.job in s.jobs
  {
    && action.status.Running? && claim.Some? && s.jobs[claim.value.job].kind.AdvanceRun?
    && action.LocalReplayable() && action.leaseEpoch < claim.value.epoch
  }

  /** Start an Action, or take over a ledger-backed attempt under a new lease; false means "not yours to start". */
  function BeginDispatch(s: Store, action: Id, claim: Option<Claim>, key: Option<EffectKey>): Commit<bool> {
    if claim.Some? && !s.Holds(claim.value) then Abort(s, LeaseLost)
    else if claim.Some? && !ClaimCovers(s, claim.value, action) then Abort(s, LeaseLost)
    else if action !in s.actions then Commit(s, Ok(false))
    else
      var a := s.actions[action];
      var run := a.slot.run;
      var epoch := if claim.Some? then claim.value.epoch else 0;
      var recovering := Recovering(s, a, claim);
      if !a.status.Ready? && !recovering then Commit(s, Ok(false))
      else if run !in s.runs then Abort(s, NotFound)
      else if !s.runs[run].status.Running? then Abort(s, AlreadyTerminal)
      else if claim.Some? && LeaseReplayable(a.request.capability) && key.None? then Abort(s, InvalidOperation)
      else if recovering && (key != a.key || !LatestIs(a.attempts, AttemptStatus.Started))
        then Abort(s, VersionConflict)
      else
        Commit(s.WithAction(action, if recovering then Reclaimed(a, epoch, key) else Opened(a, epoch, key))
                .WithRun(run, s.runs[run]
                         .Append(if recovering then ActionRetryStarted else ActionStarted, Some(action))),
               Ok(true))
  }

  function CompleteAction(s: Store, action: Id, ok: bool, result: ActionResult,
                          claim: Option<Claim>): Commit<ActionStatus> {
    if claim.Some? && !s.Holds(claim.value) then Abort(s, LeaseLost)
    else if action !in s.actions then Abort(s, NotFound)
    else if claim.Some? && !ClaimCovers(s, claim.value, action) then Abort(s, LeaseLost)
    else
      var a := s.actions[action];
      if a.status.Succeeded? then Commit(s, Ok(ActionStatus.Succeeded))
      else if !a.status.Running? then Abort(s, VersionConflict)
      else if claim.Some? && a.leaseEpoch != claim.value.epoch then Abort(s, LeaseLost)
      else if !LatestIs(a.attempts, AttemptStatus.Started) then Abort(s, VersionConflict)
      else if a.slot.run !in s.runs then Abort(s, NotFound)
      else
        Commit(s.WithAction(action, Closed(a, ok, result))
                .WithRun(a.slot.run, s.runs[a.slot.run].Append(ActionCompleted, Some(action))),
               Ok(if ok then ActionStatus.Succeeded else ActionStatus.Failed))
  }

  function MarkOutcomeUnknown(s: Store, action: Id, result: ActionResult): Commit<()> {
    if action !in s.actions then Abort(s, NotFound)
    else
      var a := s.actions[action];
      var run := a.slot.run;
      if !a.status.Running? || !LatestIs(a.attempts, AttemptStatus.Started) then Abort(s, VersionConflict)
      else if run !in s.runs then Abort(s, NotFound)
      else
        var r := s.runs[run];
        if !r.status.Blocked? && !r.status.CanBecome(RunStatus.Blocked) then Abort(s, InvalidTransition)
        else
          var r' := if r.status.Blocked? then r else r.Become(RunStatus.Blocked);
          Commit(s.WithAction(action, LostOutcome(a, result))
                  .WithRun(run, r'.Append(ActionOutcomeUnknown, Some(action))), Ok(()))
  }

  function MarkRetryWait(s: Store, action: Id, result: ActionResult, key: EffectKey): Commit<()> {
    if action !in s.actions then Abort(s, NotFound)
    else
      var a := s.actions[action];
      if !a.status.Running? || !a.request.effect.RemoteIdempotent? then Abort(s, VersionConflict)
      else if a.key.Some? && a.key != Some(key) then Abort(s, IdempotencyConflict)
      else if !LatestIs(a.attempts, AttemptStatus.Started) then Abort(s, VersionConflict)
      else if a.slot.run !in s.runs then Abort(s, NotFound)
      else
        Commit(s.WithAction(action, AwaitingRetry(a, key, result))
                .WithRun(a.slot.run, s.runs[a.slot.run].Append(ActionRetryScheduled, Some(action))), Ok(()))
  }

  function BeginRetry(s: Store, action: Id, key: EffectKey): Commit<nat> {
    if action !in s.actions then Abort(s, NotFound)
    else
      var a := s.actions[action];
      var run := a.slot.run;
      if run !in s.runs then Abort(s, NotFound)
      else if !a.status.RetryWait? || !a.request.effect.RemoteIdempotent? || a.key != Some(key)
           || !s.runs[run].status.Running?
      then Abort(s, VersionConflict)
      else if !LatestIs(a.attempts, AttemptStatus.OutcomeUnknown) then Abort(s, VersionConflict)
      else
        Commit(s.WithAction(action, Retried(a, key))
                .WithRun(run, s.runs[run].Append(ActionRetryStarted, Some(action))),
               Ok(MaxNumber(a.attempts) + 1))
  }

  /** A cancel receipt writes the status without looking at it. */
  function RecordCancelReceipt(s: Store, action: Id, stopped: bool): Commit<()> {
    if action !in s.actions then Abort(s, NotFound)
    else
      var a := s.actions[action];
      var run := a.slot.run;
      if run !in s.runs then Abort(s, NotFound)
      else if !s.runs[run].status.Cancelling? then Abort(s, VersionConflict)
      else
        var acked := s.WithAction(action, Acknowledged(a, stopped));
        var r := s.runs[run].Append(ActionCancelReceipt, Some(action));
        var over := stopped && !acked.HasUnresolvedActions(run) && !acked.HasNonterminalChildren(run);
        Commit(acked.WithRun(run, if over then r.Become(RunStatus.Cancelled).Append(RunCancelled, None) else r), Ok(()))
  }

  function FindVerdict(verdicts: seq<Verdict>, key: nat): (found: Option<Verdict>)
    ensures found.Some? ==> found.value in verdicts && found.value.key == key
    ensures found.None? ==> forall i :: 0 <= i < |verdicts| ==> verdicts[i].key != key
  {
    if verdicts == [] then None
    else if verdicts[0].key == key then Some(verdicts[0])
    else FindVerdict(verdicts[1..], key)
  }

  /** A verdict on an unknown outcome; a blocked Run wakes up, a cancelling one may be confirmed cancelled. */
  function ReconcileAction(s: Store, owner: Owner, action: Id, verdict: Verdict, evidenced: bool, job: Id): Commit<()> {
    if !evidenced then Abort(s, InvalidArgument)
    else if !s.OwnsAction(owner, action) then Abort(s, NotFound)
    else
      var a := s.actions[action];
      var run := a.slot.run;
      var existing := FindVerdict(a.verdicts, verdict.key);
      if existing.Some? then
        if existing.value != verdict then Abort(s, IdempotencyConflict) else Commit(s, Ok(()))
      else if a.version != verdict.actionVersion || (!a.status.OutcomeUnknown? && !a.status.WaitingExternal?)
      then Abort(s, VersionConflict)
      else if run !in s.runs then Abort(s, NotFound)
      else
        var r := s.runs[run];
        if r.status.Blocked? && job in s.jobs then Abort(s, DuplicateKey)
        else
          var judged := s.WithAction(action, Reconciled(a, verdict, r.status.Cancelling?));
          var over := r.status.Cancelling? && !judged.HasUnresolvedActions(run) && !judged.HasNonterminalChildren(run);
          var r' := r.Become(if r.status.Blocked? then RunStatus.Queued else r.status)
            .Append(ActionReconciled, Some(action));
          Commit(judged.WithRun(run, if over then r'.(status := RunStatus.Cancelled).Append(RunCancelled, None) else r')
                       .(jobs := if r.status.Blocked? then s.jobs[job := NewJob(AdvanceRun, run, Some(action), s.now)]
                                 else s.jobs),
                 Ok(()))
  }

  /** The receipt that proves a bound write of this Action was committed under its business key. */
  predicate ReceiptProves(v: Vault, owner: Owner, action: Id, write: LocalWrite) {
    var at := LedgerKey(owner, write.Where(), ActionKey(action));
    at in v.ledger &&
    var receipt := v.ledger[at];
    && receipt.hash == write.Hash()
    && receipt.resource in v.artifacts
    && var artifact := v.artifacts[receipt.resource];
    && artifact.owner == owner && artifact.source == Some(action)
    && artifact.digest == Sha256(write.content) && artifact.size == |write.content|
    && match write
       case CreateArtifact(_, mediaType) =>
         && receipt.status == 201 && artifact.mediaType == mediaType
         && receipt.body.ArtifactBody? && receipt.body.id == receipt.resource
         && receipt.body.source == Some(action) && receipt.body.digest == artifact.digest
       case WriteFile(workspace, path, _, _, _) =>
         && (receipt.status == 200 || receipt.status == 201) && artifact.mediaType == "text/plain"
         && receipt.body.FileBody? && receipt.body.artifact == receipt.resource
         && receipt.body.workspace == workspace && receipt.body.path == path
         && receipt.body.revision >= 1
         && receipt.body.etag == Strong(artifact.digest, receipt.body.revision)
  }

  /** Which write a ledger-backed capability stands for; a binding of another shape proves nothing. */
  predicate BoundFor(request: Request) {
    && request.bound.Some?
    && (request.capability.ArtifactCreate? ==> request.bound.value.CreateArtifact?)
    && (!request.capability.ArtifactCreate? ==> request.bound.value.WriteFile?)
  }

  /** Confirm a committed local effect of a cancelling Run from its receipt, without sending it again. */
  function ReconcileLocal(s: Store, v: Vault, owner: Owner, action: Id, claim: Claim): Commit<bool> {
    if !s.Fence(Some(claim), CancelRun, claim.run) then Abort(s, LeaseLost)
    else if !s.OwnsAction(owner, action) then Abort(s, NotFound)
    else
      var a := s.actions[action];
      var run := a.slot.run;
      if run != claim.run then Abort(s, LeaseLost)
      else if a.status.Succeeded? then Commit(s, Ok(true))
      else if !a.status.Running? || !a.LocalReplayable() || a.key != Some(ActionKey(action)) then Commit(s, Ok(false))
      else if run !in s.runs || !s.runs[run].status.Cancelling? then Abort(s, VersionConflict)
      else if !BoundFor(a.request) || !ReceiptProves(v, owner, action, a.request.bound.value) then Commit(s, Ok(false))
      else if !LatestIs(a.attempts, AttemptStatus.Started) then Abort(s, VersionConflict)
      else if a.attempts[Latest(a.attempts).value].key != a.key then Commit(s, Ok(false))
      else
        var receipt := v.ledger[LedgerKey(owner, a.request.bound.value.Where(), ActionKey(action))];
        Commit(s.WithAction(action, Closed(a, true, Envelope(Reply(receipt.status, receipt.body))))
                .WithRun(run, s.runs[run].Append(ActionReconciledLocal, Some(action))), Ok(true))
  }
}
