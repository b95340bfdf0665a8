/** Transactions that admit, move and end Runs. */
module RunTransactions {
  import opened States
  import opened Wrappers
  import opened Budgets
  import opened Vaults
  import opened Records

  function AcceptedRun(owner: Owner, parent: Option<Id>, depth: nat, now: nat, limits: Limits, wall: Option<nat>): Run {
    Run(owner, parent, depth, now, RunStatus.Queued, 0, 1, [Event(1, RunAccepted, None)],
        Budget(limits, wall, NOTHING_USED, []), map[], map[])
  }

  function AdmitRun(s: Store, owner: Owner, key: nat, hash: nat, limits: Limits, wall: Option<nat>, run: Id, job: Id)
    : Commit<Accepted>
  {
    var at := AdmissionKey(owner, RunsRoute, key);
    if at in s.admissions then
      if s.admissions[at].hash != hash then Abort(s, IdempotencyConflict)
      else Commit(s, Ok(Accepted(s.admissions[at].resource, true)))
    else if run in s.runs || job in s.jobs then Abort(s, DuplicateKey)
    else
      Commit(s.(admissions := s.admissions[at := Admission(hash, run)],
                runs := s.runs[run := AcceptedRun(owner, None, 0, s.now, limits, wall)],
                jobs := s.jobs[job := NewJob(AdvanceRun, run, None, s.now)]),
             Ok(Accepted(run, false)))
  }

  /** A child must bring positive turn, tool and token limits. */
  predicate ChildLimitsValid(limits: Limits, wall: Option<nat>) {
    && limits.turns.Some? && limits.tools.Some? && limits.tokens.Some?
    && limits.turns.value > 0 && limits.tools.value > 0 && limits.tokens.value > 0
    && (limits.cost.Some? ==> limits.cost.value > 0)
    && (wall.Some? ==> wall.value > 0)
  }

  function Children(s: Store, parent: Id): set<Id> {
    set c | c in s.runs && s.runs[c].parent == Some(parent)
  }

  function ChildFits(b: Budget, limits: Limits, d: Dimension): bool {
    limits.At(d).Some? ==> b.Fits(d, SumHeld(b.rows, d), limits.At(d).value)
  }

  function ChildRow(child: Id, limits: Limits, d: Dimension): seq<Reservation> {
    if limits.At(d).Some? then [Reservation(ChildKey(child, d), d, limits.At(d).value, Reserved, 0)] else []
  }

  /** The rows the parent's budget gains: one for each dimension the child is limited in. */
  function ChildRows(child: Id, limits: Limits): seq<Reservation> {
    ChildRow(child, limits, ModelTurns) + ChildRow(child, limits, ToolCalls)
    + ChildRow(child, limits, OutputTokens) + ChildRow(child, limits, CostMicrounits)
  }

  /** A row already stored under one of the child's keys. */
  predicate ChildRowsTaken(b: Budget, child: Id) {
    exists d: Dimension :: Find(b.rows, ChildKey(child, d)).Some?
  }

  function AdmitChild(s: Store, owner: Owner, parent: Id, key: nat, hash: nat, limits: Limits, wall: Option<nat>,
                      maxDepth: nat, maxChildren: nat, child: Id, job: Id): Commit<Accepted>
  {
    var at := AdmissionKey(owner, ChildrenRoute, key);
    if maxDepth == 0 || maxChildren == 0 || !ChildLimitsValid(limits, wall) then Abort(s, InvalidOperation)
    else if !s.Owns(owner, parent) then Abort(s, NotFound)
    else if at in s.admissions then
      if s.admissions[at].hash != hash then Abort(s, IdempotencyConflict)
      else Commit(s, Ok(Accepted(s.admissions[at].resource, true)))
    else
      var p := s.runs[parent];
      var b := p.budget;
      if !p.status.Queued? && !p.status.Running? then Abort(s, InvalidOperation)
      else if p.depth >= maxDepth then Abort(s, InvalidOperation)
      else if |Children(s, parent)| >= maxChildren then Abort(s, InvalidOperation)
      else if b.limits.cost.Some? && limits.cost.None? then Abort(s, InvalidOperation)
      else if b.wallSeconds.Some? && (wall.None? || wall.value > b.wallSeconds.value - (s.now - p.createdAt))
      then Abort(s, InvalidOperation)
      else if !ChildFits(b, limits, ModelTurns) || !ChildFits(b, limits, ToolCalls)
           || !ChildFits(b, limits, OutputTokens) || !ChildFits(b, limits, CostMicrounits)
      then Abort(s, BudgetExhausted)
      else if child in s.runs || job in s.jobs || ChildRowsTaken(b, child) then Abort(s, DuplicateKey)
      else
        var p' := p.(budget := b.(rows := b.rows + ChildRows(child, limits))).Append(RunChildAccepted, None);
        Commit(s.(admissions := s.admissions[at := Admission(hash, child)],
                  runs := s.runs[parent := p'][child := AcceptedRun(owner, Some(parent), p.depth + 1, s.now, limits,
                                                                    wall)],
                  jobs := s.jobs[job := NewJob(AdvanceRun, child, None, s.now)]),
               Ok(Accepted(child, false)))
  }

  /** `run` is `root` or hangs below it. */
  ghost predicate Below(runs: map<Id, Run>, root: Id, run: Id)
    decreases if run in runs then runs[run].depth + 1 else 0
  {
    run in runs && (run == root ||
      (runs[run].parent.Some? && runs[run].parent.value in runs
       && runs[runs[run].parent.value].depth < runs[run].depth
       && Below(runs, root, runs[run].parent.value)))
  }

  /** The Runs a cancellation of `root` stops: those of its subtree that are neither over nor stopping already. */
  ghost function Stopping(runs: map<Id, Run>, root: Id): set<Id> {
    set r | r in runs && Below(runs, root, r) && !runs[r].status.Terminal() && !runs[r].status.Cancelling?
  }

  function Stopped(run: Run): Run {
    run.Become(RunStatus.Cancelling).Append(RunCancellationRequested, None)
  }

  function StopRuns(runs: map<Id, Run>, stopping: set<Id>): map<Id, Run> {
    map r | r in runs :: if r in stopping then Stopped(runs[r]) else runs[r]
  }

  /** The identifiers drawn for new jobs are all new. */
  ghost predicate FreshJobs(jobs: map<Id, Job>, stopping: set<Id>, jobOf: map<Id, Id>) {
    && stopping <= jobOf.Keys
    && (forall r :: r in stopping ==> jobOf[r] !in jobs)
    && (forall r, q :: r in stopping && q in stopping && jobOf[r] == jobOf[q] ==> r == q)
  }

  ghost function CancelJobs(jobs: map<Id, Job>, stopping: set<Id>, jobOf: map<Id, Id>, now: nat): map<Id, Job>
    requires FreshJobs(jobs, stopping, jobOf)
  {
    jobs + (map r | r in stopping :: jobOf[r] := NewJob(CancelRun, r, None, now))
  }

  ghost function StopSubtree(s: Store, root: Id, jobOf: map<Id, Id>): Store
    requires FreshJobs(s.jobs, Stopping(s.runs, root), jobOf)
  {
    var stopping := Stopping(s.runs, root);
    s.(runs := StopRuns(s.runs, stopping),
       actions := SweepActions(s.actions, stopping),
       jobs := CancelJobs(s.jobs, stopping, jobOf, s.now))
  }

  /** The whole subtree stops in one transaction. */
  ghost function RequestCancellation(s: Store, owner: Owner, root: Id, key: nat, hash: nat, jobOf: map<Id, Id>)
    : Commit<Accepted>
  {
    var at := AdmissionKey(owner, CancellationsRoute, key);
    if !s.Owns(owner, root) then Abort(s, NotFound)
    else if at in s.admissions then
      if s.admissions[at].hash != hash then Abort(s, IdempotencyConflict)
      else Commit(s, Ok(Accepted(s.admissions[at].resource, true)))
    else if s.runs[root].status.Terminal() then Abort(s, AlreadyTerminal)
    else
      var admissions := s.admissions[at := Admission(hash, root)];
      if s.runs[root].status.Cancelling? then Commit(s.(admissions := admissions), Ok(Accepted(root, false)))
      else if !FreshJobs(s.jobs, Stopping(s.runs, root), jobOf) then Abort(s, DuplicateKey)
      else Commit(StopSubtree(s, root, jobOf).(admissions := admissions), Ok(Accepted(root, false)))
  }

  /** Confirm a cancellation only when effects and children have settled. */
  function FinalizeCancellation(s: Store, owner: Owner, run: Id, claim: Option<Claim>): Commit<RunStatus> {
    if !s.Fence(claim, CancelRun, run) then Abort(s, LeaseLost)
    else if !s.Owns(owner, run) then Abort(s, NotFound)
    else if s.runs[run].status.Cancelled? then Commit(s, Ok(RunStatus.Cancelled))
    else if !s.runs[run].status.Cancelling? then Abort(s, VersionConflict)
    else if s.HasUnresolvedActions(run) || s.HasNonterminalChildren(run) then Abort(s, VersionConflict)
    else
      Commit(s.WithRun(run, s.runs[run].Become(RunStatus.Cancelled).Append(RunCancelled, None))
              .(jobs := RetireReady(s.jobs, run)),
             Ok(RunStatus.Cancelled))
  }

  function TransitionRun(s: Store, run: Id, expectedVersion: nat, next: RunStatus): Commit<RunStatus> {
    if run !in s.runs then Abort(s, NotFound)
    else if s.runs[run].version != expectedVersion then Abort(s, VersionConflict)
    else if !s.runs[run].status.CanBecome(next) then Abort(s, InvalidTransition)
    else if next.Terminal() && s.HasNonterminalChildren(run) then Abort(s, VersionConflict)
    else Commit(s.WithRun(run, s.runs[run].Become(next).Append(RunTransitioned, None)), Ok(next))
  }

  function EnsureRunning(s: Store, run: Id, claim: Option<Claim>): Commit<RunStatus> {
    if !s.Fence(claim, AdvanceRun, run) then Abort(s, LeaseLost)
    else if run !in s.runs then Abort(s, NotFound)
    else if s.runs[run].status.Queued? then
      Commit(s.WithRun(run, s.runs[run].Become(RunStatus.Running).Append(RunStarted, None)), Ok(RunStatus.Running))
    else if s.runs[run].status.Running? then Commit(s, Ok(RunStatus.Running))
    else Abort(s, AlreadyTerminal)
  }

  /** End a Run: its last status, its last event, and no wake-up left that nobody claimed. */
  function Ended(s: Store, run: Id, next: RunStatus, kind: EventKind): Store
    requires run in s.runs
  {
    s.WithRun(run, s.runs[run].Become(next).Append(kind, None)).(jobs := RetireReady(s.jobs, run))
  }

  function FinishImplicit(s: Store, run: Id, succeeded: bool): Commit<RunStatus> {
    var target := if succeeded then RunStatus.Succeeded else RunStatus.Failed;
    if run !in s.runs then Abort(s, NotFound)
    else if s.runs[run].status.Terminal() then Commit(s, Ok(s.runs[run].status))
    else if !s.runs[run].status.CanBecome(target) then Abort(s, InvalidTransition)
    else if s.HasNonterminalChildren(run) then Abort(s, VersionConflict)
    else Commit(Ended(s, run, target, RunFinished), Ok(target))
  }

  function AppendEvent(s: Store, run: Id, action: Option<Id>): Commit<nat> {
    if run !in s.runs then Abort(s, NotFound)
    else Commit(s.WithRun(run, s.runs[run].Append(Appended, action)), Ok(s.runs[run].eventSeq + 1))
  }

  function RecordCompletion(s: Store, owner: Owner, run: Id, verified: bool, claim: Option<Claim>): Commit<()> {
    if !s.Fence(claim, AdvanceRun, run) then Abort(s, LeaseLost)
    else if !s.Owns(owner, run) then Abort(s, NotFound)
    else if !verified then Commit(s.WithRun(run, s.runs[run].Append(CompletionRecorded, None)), Ok(()))
    else if s.HasNonterminalChildren(run) then Abort(s, VersionConflict)
    else if !s.runs[run].status.CanBecome(RunStatus.Succeeded) then Abort(s, InvalidTransition)
    else Commit(Ended(s, run, RunStatus.Succeeded, CompletionRecorded), Ok(()))
  }

  function BlockRun(s: Store, run: Id, claim: Option<Claim>): Commit<RunStatus> {
    if !s.Fence(claim, AdvanceRun, run) then Abort(s, LeaseLost)
    else if run !in s.runs then Abort(s, NotFound)
    else if s.runs[run].status.Blocked? then Commit(s, Ok(RunStatus.Blocked))
    else if !s.runs[run].status.CanBecome(RunStatus.Blocked) then Abort(s, InvalidTransition)
    else Commit(s.WithRun(run, s.runs[run].Become(RunStatus.Blocked).Append(RunBlocked, None)), Ok(RunStatus.Blocked))
  }

  function FailRun(s: Store, run: Id, claim: Option<Claim>): Commit<RunStatus> {
    if !s.Fence(claim, AdvanceRun, run) then Abort(s, LeaseLost)
    else if run !in s.runs then Abort(s, NotFound)
    else if s.runs[run].status.Terminal() then Commit(s, Ok(s.runs[run].status))
    else if !s.runs[run].status.CanBecome(RunStatus.Failed) then Abort(s, InvalidTransition)
    else if s.HasNonterminalChildren(run) then Abort(s, VersionConflict)
    else Commit(Ended(s, run, RunStatus.Failed, RunFailed), Ok(RunStatus.Failed))
  }

  /**
   Stop new work, drop what was not sent, free every reservation; unresolved effects block the Run instead of
   ending it.
   */
  function TerminateRun(s: Store, run: Id, claim: Option<Claim>): Commit<RunStatus> {
    if !s.Fence(claim, AdvanceRun, run) then Abort(s, LeaseLost)
    else if run !in s.runs then Abort(s, NotFound)
    else if s.runs[run].status.Terminal() then Commit(s, Ok(s.runs[run].status))
    else
      var r := s.runs[run];
      var swept := s.WithRun(run, r.(budget := r.budget.ReleaseAll())).(actions := SweepActions(s.actions, {run}));
      var target := if swept.HasUncertainEffects(run) then RunStatus.Blocked else RunStatus.Failed;
      if !r.status.CanBecome(target) then Abort(s, InvalidTransition)
      else if target.Failed? && s.HasNonterminalChildren(run) then Abort(s, VersionConflict)
      else Commit(Ended(swept, run, target, if target.Blocked? then RunBlocked else RunFailed), Ok(target))
  }

  /** An incompatible checkpoint blocks the Run; that write is committed although the caller gets an error. */
  function RecoverCheckpoint(s: Store, owner: Owner, run: Id, incompatible: bool): Commit<()> {
    if !s.Owns(owner, run) then Abort(s, NotFound)
    else if !incompatible then Commit(s, Ok(()))
    else
      var r := s.runs[run];
      if !r.status.Blocked? && !r.status.CanBecome(RunStatus.Blocked) then Abort(s, InvalidTransition)
      else
        var r' := if r.status.Blocked? then r else r.Become(RunStatus.Blocked);
        Commit(s.WithRun(run, r'.Append(RunMigrationRequired, None)), Err(MigrationRequired))
  }
}
