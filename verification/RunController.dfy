/**
 The controller: one object holding the tables, one method for each transaction, which changes the tables
 in place. Every method is proved to commit exactly what the transaction of the same name says, and to
 leave the tables alone when it returns an error (two transactions commit a write and return one).
 */
module RunControllers {
  import opened States
  import opened Wrappers
  import opened Budgets
  import opened Vaults
  import opened Records
  import opened ActionProtocol
  import Jobs = JobTransactions
  import Runs = RunTransactions
  import Acts = ActionTransactions
  import Inputs = InputTransactions
  import Accounts = AccountTransactions
  import Evolution
  import Sweeps

  class RunController {
    var now: nat
    var runs: map<Id, Run>
    var actions: map<Id, Action>
    var slots: map<Slot, Id>
    var jobs: map<Id, Job>
    var requests: map<Id, InputRequest>
    var responses: map<ResponseKey, Response>
    var admissions: map<AdmissionKey, Admission>

    constructor ()
      ensures State() == EMPTY_STORE
    {
      now, runs, actions, slots := 0, map[], map[], map[];
      jobs, requests, responses, admissions := map[], map[], map[], map[];
    }

    function State(): Store
      reads this
    {
      Store(now, runs, actions, slots, jobs, requests, responses, admissions)
    }

    // ---- Steps shared by the transactions ----

    method Append(run: Id, kind: EventKind, about: Option<Id>)
      requires run in runs
      modifies `runs
      ensures runs == old(runs)[run := old(runs)[run].Append(kind, about)]
    {
      var r := runs[run];
      var number := r.eventSeq + 1;
      runs := runs[run := r.(eventSeq := number, events := r.events + [Event(number, kind, about)])];
    }

    method Move(run: Id, next: RunStatus)
      requires run in runs
      modifies `runs
      ensures runs == old(runs)[run := old(runs)[run].Become(next)]
    {
      runs := runs[run := runs[run].(status := next, version := runs[run].version + 1)];
    }

    /** The end of a Run also retires the wake-ups nobody has claimed. */
    method End(run: Id, next: RunStatus, kind: EventKind)
      requires run in runs
      modifies `runs, `jobs
      ensures State() == Runs.Ended(old(State()), run, next, kind)
    {
      Move(run, next);
      Append(run, kind, None);
      jobs := RetireReady(jobs, run);
    }

    // ---- Leases ----

    static predicate NotAfter(jobs: map<Id, Job>, j: Id, k: Id)
      requires j in jobs && k in jobs
    {
      jobs[j].dueAt < jobs[k].dueAt || (jobs[j].dueAt == jobs[k].dueAt && j <= k)
    }

    /** Claim the first claimable job, by due time and then identifier. */
    method ClaimJob(worker: nat, leaseSeconds: nat, kind: Option<JobKind>) returns (r: Result<Option<Claim>>, pick: Id)
      modifies `jobs
      ensures Commit(State(), r) == Jobs.ClaimJob(old(State()), worker, leaseSeconds, kind, pick)
      ensures r == Ok(None) ==> forall j :: !Jobs.Claimable(old(State()), j, kind)
      ensures r.Ok? && r.value.Some? ==> Jobs.Claimable(old(State()), pick, kind)
      ensures r.Ok? && r.value.Some? ==> forall j :: Jobs.Claimable(old(State()), j, kind) ==>
                NotAfter(old(jobs), pick, j)
    {
      pick := 0;
      if leaseSeconds == 0 { r := Err(InvalidArgument); return; }
      var left := jobs.Keys;
      var best: Option<Id> := None;
      while left != {}
        invariant left <= jobs.Keys && jobs == old(jobs) && State() == old(State())
        invariant best.Some? ==> Jobs.Claimable(State(), best.value, kind)
        invariant forall j :: Jobs.Claimable(State(), j, kind) && j !in left ==>
                    best.Some? && NotAfter(jobs, best.value, j)
        decreases left
      {
        var j :| j in left;
        left := left - {j};
        if Jobs.Claimable(State(), j, kind) && (best.None? || NotAfter(jobs, j, best.value)) {
          best := Some(j);
        }
      }
      if best.None? { return Ok(None), pick; }
      pick := best.value;
      var job := jobs[pick];
      var epoch := job.epoch + 1;
      jobs := jobs[pick := job.(status := JobStatus.Leased, owner := Some(worker),
                                leaseUntil := Some(now + leaseSeconds),
                                epoch := epoch, attempts := job.attempts + 1)];
      r := Ok(Some(Claim(pick, job.kind, job.run, job.action, epoch, worker)));
    }

    method RenewLease(claim: Claim, leaseSeconds: nat) returns (r: Result<()>)
      modifies `jobs
      ensures Commit(State(), r) == Jobs.RenewLease(old(State()), claim, leaseSeconds)
    {
      if leaseSeconds == 0 { return Err(InvalidArgument); }
      if !State().Holds(claim) { return Err(LeaseLost); }
      jobs := jobs[claim.job := jobs[claim.job].(leaseUntil := Some(now + leaseSeconds))];
      r := Ok(());
    }

    method CompleteJob(claim: Claim) returns (r: Result<()>)
      modifies `jobs
      ensures Commit(State(), r) == Jobs.CompleteJob(old(State()), claim)
    {
      if !State().Holds(claim) { return Err(LeaseLost); }
      jobs := jobs[claim.job := jobs[claim.job].(status := JobStatus.Done, owner := None, leaseUntil := None)];
      r := Ok(());
    }

    method DeferJob(claim: Claim, delaySeconds: nat) returns (r: Result<()>)
      modifies `jobs
      ensures Commit(State(), r) == Jobs.DeferJob(old(State()), claim, delaySeconds)
    {
      if delaySeconds == 0 { return Err(InvalidArgument); }
      if !State().Holds(claim) { return Err(LeaseLost); }
      jobs := jobs[claim.job := jobs[claim.job].(status := JobStatus.Ready, dueAt := now + delaySeconds,
                                                 owner := None, leaseUntil := None)];
      r := Ok(());
    }

    // ---- Cancellation ----

    /** The owner's Runs that have a parent, shallow ones first. */
    method ChildRuns(owner: Owner) returns (order: seq<Id>)
      ensures forall r :: r in order <==> r in runs && runs[r].parent.Some? && runs[r].owner == owner
      ensures forall i, j :: 0 <= i < j < |order| ==>
                order[i] != order[j] && runs[order[i]].depth <= runs[order[j]].depth
    {
      var left := set r | r in runs && runs[r].parent.Some? && runs[r].owner == owner;
      order := [];
      while left != {}
        invariant left <= runs.Keys
        invariant forall r :: r in runs && runs[r].parent.Some? && runs[r].owner == owner <==> r in left || r in order
        invariant forall r :: r in left ==> r !in order && forall k :: 0 <= k < |order| ==>
                    runs[order[k]].depth <= runs[r].depth
        invariant forall i, j :: 0 <= i < j < |order| ==>
                    order[i] != order[j] && runs[order[i]].depth <= runs[order[j]].depth
        decreases left
      {
        var next := Shallowest(left);
        left := left - {next};
        order := order + [next];
      }
    }

    method Shallowest(ids: set<Id>) returns (best: Id)
      requires ids != {} && ids <= runs.Keys
      ensures best in ids && forall r :: r in ids ==> runs[best].depth <= runs[r].depth
    {
      best :| best in ids;
      var left := ids - {best};
      while left != {}
        invariant left <= ids && best in ids
        invariant forall r :: r in ids && r !in left ==> runs[best].depth <= runs[r].depth
        decreases left
      {
        var r :| r in left;
        left := left - {r};
        if runs[r].depth < runs[best].depth { best := r; }
      }
    }

    /** Stop one Run: its status, its undispatched Actions, its event and its cancel job. */
    method Stop(run: Id, jobOf: map<Id, Id>) returns (ok: bool)
      requires run in runs
      modifies `runs, `actions, `jobs
      ensures ok <==> run in jobOf && jobOf[run] !in old(jobs)
      ensures runs == old(runs)[run := Runs.Stopped(old(runs)[run])]
      ensures actions == SweepActions(old(actions), {run})
      ensures jobs == if ok then old(jobs)[jobOf[run] := NewJob(CancelRun, run, None, now)] else old(jobs)
    {
      Move(run, RunStatus.Cancelling);
      actions := SweepActions(actions, {run});
      Append(run, RunCancellationRequested, None);
      ok := run in jobOf && jobOf[run] !in jobs;
      if ok { jobs := jobs[jobOf[run] := NewJob(CancelRun, run, None, now)]; }
    }

    /** What the tables are when exactly these Runs have been stopped. */
    ghost predicate HasStopped(s: Store, stopped: set<Id>, jobOf: map<Id, Id>)
      reads this
    {
      && Runs.FreshJobs(s.jobs, stopped, jobOf)
      && State() == s.(runs := Runs.StopRuns(s.runs, stopped), actions := SweepActions(s.actions, stopped),
                       jobs := Runs.CancelJobs(s.jobs, stopped, jobOf, s.now))
    }

    /** Stopping one more Run. */
    method StopNext(run: Id, jobOf: map<Id, Id>, ghost s: Store, ghost stopped: set<Id>) returns (ok: bool)
      requires run in s.runs && run !in stopped && HasStopped(s, stopped, jobOf)
      modifies `runs, `actions, `jobs
      ensures ok <==> Runs.FreshJobs(s.jobs, stopped + {run}, jobOf)
      ensures ok ==> HasStopped(s, stopped + {run}, jobOf)
      ensures now == s.now && slots == s.slots && requests == s.requests
      ensures responses == s.responses && admissions == s.admissions
    {
      Sweeps.OneMoreFresh(s.jobs, stopped, jobOf, s.now, run);
      Sweeps.StopOneMoreRun(s.runs, stopped, run);
      Sweeps.SweepOneMoreRun(s.actions, stopped, run);
      ok := Stop(run, jobOf);
      if ok { Sweeps.OneMoreCancelJob(s.jobs, stopped, jobOf, s.now, run); }
    }

    method Restore(s: Store)
      modifies this
      ensures State() == s
    {
      now, runs, actions, slots := s.now, s.runs, s.actions, s.slots;
      jobs, requests, responses, admissions := s.jobs, s.requests, s.responses, s.admissions;
    }

    /**
     Stop a Run and everything below it, in one pass over the owner's child Runs in order of depth. The
     transition table never stands in the way, and nothing outside the subtree is touched.
     */
    method RequestCancellation(owner: Owner, root: Id, key: nat, hash: nat, jobOf: map<Id, Id>)
      returns (r: Result<Accepted>)
      requires Evolution.Sound(State())
      modifies this
      ensures Commit(State(), r) == Runs.RequestCancellation(old(State()), owner, root, key, hash, jobOf)
    {
      var at := AdmissionKey(owner, CancellationsRoute, key);
      if !State().Owns(owner, root) { return Err(NotFound); }
      if at in admissions {
        if admissions[at].hash != hash { return Err(IdempotencyConflict); }
        return Ok(Accepted(admissions[at].resource, true));
      }
      if runs[root].status.Terminal() { return Err(AlreadyTerminal); }
      if runs[root].status.Cancelling? {
        admissions := admissions[at := Admission(hash, root)];
        return Ok(Accepted(root, false));
      }
      var s := State();
      var order := ChildRuns(owner);
      var ok := Sweep(root, order, jobOf);
      if !ok {
        Restore(s);
        return Err(DuplicateKey);
      }
      admissions := admissions[at := Admission(hash, root)];
      r := Ok(Accepted(root, false));
    }

    /** The pass itself. `pending` grows by every Run whose parent is already in it. */
    method Sweep(root: Id, order: seq<Id>, jobOf: map<Id, Id>) returns (ok: bool)
      requires Evolution.Sound(State()) && root in runs
      requires !runs[root].status.Terminal() && !runs[root].status.Cancelling?
      requires Sweeps.ByDepth(runs, runs[root].owner, order)
      modifies `runs, `actions, `jobs
      ensures ok <==> Runs.FreshJobs(old(jobs), Runs.Stopping(old(runs), root), jobOf)
      ensures ok ==> State() == Runs.StopSubtree(old(State()), root, jobOf)
    {
      hide Evolution.Sound, Runs.Below, Runs.FreshJobs, Runs.CancelJobs, SweepActions, Sweeps.ByDepth,
           Runs.StopRuns, Sweeps.StoppingIn, Sweeps.Reached;
      ghost var s := State();
      var pending := {root};
      ghost var stopped: set<Id> := {};
      NothingStopped(jobOf);
      ok := StopNext(root, jobOf, s, stopped);
      stopped := stopped + {root};
      Sweeps.RootReached(s.runs, root, order);
      var k := 0;
      while k < |order| && ok
        invariant k <= |order|
        invariant pending == Sweeps.Reached(s.runs, root, order[..k]) && root in pending && pending <= s.runs.Keys
        invariant stopped == Sweeps.StoppingIn(s.runs, pending)
        invariant ok <==> Runs.FreshJobs(s.jobs, stopped, jobOf)
        invariant ok ==> HasStopped(s, stopped, jobOf)
      {
        var child := order[k];
        Sweeps.ParentReachedIffBelow(s, root, order, k);
        Sweeps.ReachedGrows(s, root, order, k);
        Sweeps.NotStoppedYet(s, root, order, k);
        if runs[child].parent.value in pending {
          Sweeps.StoppingGrows(s.runs, pending, child);
          pending := pending + {child};
          if !runs[child].status.Terminal() && !runs[child].status.Cancelling? {
            assert child !in stopped && runs[child].status.CanBecome(RunStatus.Cancelling);
            ok := StopNext(child, jobOf, s, stopped);
            stopped := stopped + {child};
          }
        }
        k := k + 1;
      }
      if ok {
        assert order[..k] == order;
        Sweeps.WholeListReachesSubtree(s, root, order);
      } else if Runs.FreshJobs(s.jobs, Runs.Stopping(s.runs, root), jobOf) {
        Sweeps.ReachedIsBelow(s, root, order[..k]);
        Sweeps.FreshSubset(s.jobs, stopped, Runs.Stopping(s.runs, root), jobOf);
      }
    }

    lemma NothingStopped(jobOf: map<Id, Id>)
      ensures HasStopped(State(), {}, jobOf)
    {
      assert Runs.StopRuns(runs, {}) == runs;
      assert SweepActions(actions, {}) == actions;
      assert Runs.CancelJobs(jobs, {}, jobOf, now) == jobs;
    }

    method FinalizeCancellation(owner: Owner, run: Id, claim: Option<Claim>) returns (r: Result<RunStatus>)
      modifies this
      ensures Commit(State(), r) == Runs.FinalizeCancellation(old(State()), owner, run, claim)
    {
      if !State().Fence(claim, CancelRun, run) { return Err(LeaseLost); }
      if !State().Owns(owner, run) { return Err(NotFound); }
      if runs[run].status.Cancelled? { return Ok(RunStatus.Cancelled); }
      if !runs[run].status.Cancelling? { return Err(VersionConflict); }
      if State().HasUnresolvedActions(run) || State().HasNonterminalChildren(run) { return Err(VersionConflict); }
      End(run, RunStatus.Cancelled, RunCancelled);
      r := Ok(RunStatus.Cancelled);
    }

    // ---- Admission ----

    method AdmitRun(owner: Owner, key: nat, hash: nat, limits: Limits, wall: Option<nat>, run: Id, job: Id)
      returns (r: Result<Accepted>)
      modifies this
      ensures Commit(State(), r) == Runs.AdmitRun(old(State()), owner, key, hash, limits, wall, run, job)
    {
      var at := AdmissionKey(owner, RunsRoute, key);
      if at in admissions {
        if admissions[at].hash != hash { return Err(IdempotencyConflict); }
        return Ok(Accepted(admissions[at].resource, true));
      }
      if run in runs || job in jobs { return Err(DuplicateKey); }
      admissions := admissions[at := Admission(hash, run)];
      runs := runs[run := Runs.AcceptedRun(owner, None, 0, now, limits, wall)];
      jobs := jobs[job := NewJob(AdvanceRun, run, None, now)];
      r := Ok(Accepted(run, false));
    }

    /** What is held back of a budget in one dimension, row by row. */
    method Reserved(rows: seq<Reservation>, d: Dimension) returns (total: nat)
      ensures total == SumHeld(rows, d)
    {
      total := 0;
      for k := 0 to |rows|
        invariant total == SumHeld(rows[..k], d)
      {
        assert rows[..k + 1][..k] == rows[..k];
        if rows[k].dimension == d && rows[k].status.Reserved? { total := total + rows[k].amount; }
      }
      assert rows[..|rows|] == rows;
    }

    /** Admit a child: every limit it brings must fit what its parent has left, and is held back there. */
    method AdmitChild(owner: Owner, parent: Id, key: nat, hash: nat, limits: Limits, wall: Option<nat>,
                      maxDepth: nat, maxChildren: nat, child: Id, job: Id) returns (r: Result<Accepted>)
      modifies this
      ensures Commit(State(), r)
           == Runs.AdmitChild(old(State()), owner, parent, key, hash, limits, wall, maxDepth, maxChildren, child, job)
    {
      hide Runs.ChildRows, Runs.Children, Runs.ChildRowsTaken, Runs.ChildFits, Runs.ChildLimitsValid;
      var at := AdmissionKey(owner, ChildrenRoute, key);
      if maxDepth == 0 || maxChildren == 0 || !Runs.ChildLimitsValid(limits, wall) { return Err(InvalidOperation); }
      if !State().Owns(owner, parent) { return Err(NotFound); }
      if at in admissions {
        if admissions[at].hash != hash { return Err(IdempotencyConflict); }
        return Ok(Accepted(admissions[at].resource, true));
      }
      var p := runs[parent];
      if !p.status.Queued? && !p.status.Running? { return Err(InvalidOperation); }
      if p.depth >= maxDepth || |Runs.Children(State(), parent)| >= maxChildren { return Err(InvalidOperation); }
      if p.budget.limits.cost.Some? && limits.cost.None? { return Err(InvalidOperation); }
      if p.budget.wallSeconds.Some? && (wall.None? || wall.value > p.budget.wallSeconds.value - (now - p.createdAt)) {
        return Err(InvalidOperation);
      }
      var fits := ChildFits(p.budget, limits);
      if !fits { return Err(BudgetExhausted); }
      if child in runs || job in jobs || Runs.ChildRowsTaken(p.budget, child) { return Err(DuplicateKey); }
      admissions := admissions[at := Admission(hash, child)];
      InsertChild(owner, parent, limits, wall, child);
      jobs := jobs[job := NewJob(AdvanceRun, child, None, now)];
      r := Ok(Accepted(child, false));
    }

    method InsertChild(owner: Owner, parent: Id, limits: Limits, wall: Option<nat>, child: Id)
      requires parent in runs
      modifies `runs
      ensures var p := old(runs)[parent];
              var p' := p.(budget := p.budget.(rows := p.budget.rows + Runs.ChildRows(child, limits)))
                .Append(RunChildAccepted, None);
              runs ==
                old(runs)[parent := p'][child := Runs.AcceptedRun(owner, Some(parent), p.depth + 1, now, limits, wall)]
    {
      var p := runs[parent];
      var rows := HoldBack(p.budget.rows, child, limits);
      runs := runs[parent := p.(budget := p.budget.(rows := rows))];
      Append(parent, RunChildAccepted, None);
      runs := runs[child := Runs.AcceptedRun(owner, Some(parent), p.depth + 1, now, limits, wall)];
    }

    /** Each limit of a child in turn, against what its parent used and holds back. */
    method ChildFits(b: Budget, limits: Limits) returns (fits: bool)
      ensures fits <==> Runs.ChildFits(b, limits, ModelTurns) && Runs.ChildFits(b, limits, ToolCalls)
                        && Runs.ChildFits(b, limits, OutputTokens) && Runs.ChildFits(b, limits, CostMicrounits)
    {
      var dimensions := [ModelTurns, ToolCalls, OutputTokens, CostMicrounits];
      fits := true;
      for k := 0 to |dimensions|
        invariant fits <==> forall i :: 0 <= i < k ==> Runs.ChildFits(b, limits, dimensions[i])
      {
        var d := dimensions[k];
        if limits.At(d).Some? {
          var active := Reserved(b.rows, d);
          if b.limits.At(d).Some?
            && b.used.At(d) + active + limits.At(d).value > b.limits.At(d).value { fits := false; }
        }
      }
      assert dimensions[0] == ModelTurns && dimensions[1] == ToolCalls && dimensions[2] == OutputTokens;
      assert dimensions[3] == CostMicrounits;
    }

    method HoldBack(rows: seq<Reservation>, child: Id, limits: Limits) returns (more: seq<Reservation>)
      ensures more == rows + Runs.ChildRows(child, limits)
    {
      var dimensions := [ModelTurns, ToolCalls, OutputTokens, CostMicrounits];
      var added: seq<Reservation> := [];
      for k := 0 to |dimensions|
        invariant added ==
          (if k > 0 then Runs.ChildRow(child, limits, ModelTurns) else [])
          + (if k > 1 then Runs.ChildRow(child, limits, ToolCalls) else [])
          + (if k > 2 then Runs.ChildRow(child, limits, OutputTokens) else [])
          + (if k > 3 then Runs.ChildRow(child, limits, CostMicrounits) else [])
      {
        var d := dimensions[k];
        if limits.At(d).Some? {
          added := added + [Reservation(ChildKey(child, d), d, limits.At(d).value, ReservationStatus.Reserved, 0)];
        }
      }
      more := rows + added;
    }

    // ---- Moving and ending Runs ----

    method TransitionRun(run: Id, expectedVersion: nat, next: RunStatus) returns (r: Result<RunStatus>)
      modifies this
      ensures Commit(State(), r) == Runs.TransitionRun(old(State()), run, expectedVersion, next)
    {
      if run !in runs { return Err(NotFound); }
      if runs[run].version != expectedVersion { return Err(VersionConflict); }
      if !runs[run].status.CanBecome(next) { return Err(InvalidTransition); }
      if next.Terminal() && State().HasNonterminalChildren(run) { return Err(VersionConflict); }
      Move(run, next);
      Append(run, RunTransitioned, None);
      r := Ok(next);
    }

    method EnsureRunning(run: Id, claim: Option<Claim>) returns (r: Result<RunStatus>)
      modifies this
      ensures Commit(State(), r) == Runs.EnsureRunning(old(State()), run, claim)
    {
      if !State().Fence(claim, AdvanceRun, run) { return Err(LeaseLost); }
      if run !in runs { return Err(NotFound); }
      if runs[run].status.Queued? {
        Move(run, RunStatus.Running);
        Append(run, RunStarted, None);
        return Ok(RunStatus.Running);
      }
      if !runs[run].status.Running? { return Err(AlreadyTerminal); }
      r := Ok(RunStatus.Running);
    }

    method FinishImplicit(run: Id, succeeded: bool) returns (r: Result<RunStatus>)
      modifies this
      ensures Commit(State(), r) == Runs.FinishImplicit(old(State()), run, succeeded)
    {
      var target := if succeeded then RunStatus.Succeeded else RunStatus.Failed;
      if run !in runs { return Err(NotFound); }
      if runs[run].status.Terminal() { return Ok(runs[run].status); }
      if !runs[run].status.CanBecome(target) { return Err(InvalidTransition); }
      if State().HasNonterminalChildren(run) { return Err(VersionConflict); }
      End(run, target, RunFinished);
      r := Ok(target);
    }

    method AppendEvent(run: Id, about: Option<Id>) returns (r: Result<nat>)
      modifies this
      ensures Commit(State(), r) == Runs.AppendEvent(old(State()), run, about)
    {
      if run !in runs { return Err(NotFound); }
      Append(run, Appended, about);
      r := Ok(runs[run].eventSeq);
    }

    method RecordCompletion(owner: Owner, run: Id, verified: bool, claim: Option<Claim>) returns (r: Result<()>)
      modifies this
      ensures Commit(State(), r) == Runs.RecordCompletion(old(State()), owner, run, verified, claim)
    {
      if !State().Fence(claim, AdvanceRun, run) { return Err(LeaseLost); }
      if !State().Owns(owner, run) { return Err(NotFound); }
      if !verified {
        Append(run, CompletionRecorded, None);
        return Ok(());
      }
      if State().HasNonterminalChildren(run) { return Err(VersionConflict); }
      if !runs[run].status.CanBecome(RunStatus.Succeeded) { return Err(InvalidTransition); }
      End(run, RunStatus.Succeeded, CompletionRecorded);
      r := Ok(());
    }

    method BlockRun(run: Id, claim: Option<Claim>) returns (r: Result<RunStatus>)
      modifies this
      ensures Commit(State(), r) == Runs.BlockRun(old(State()), run, claim)
    {
      if !State().Fence(claim, AdvanceRun, run) { return Err(LeaseLost); }
      if run !in runs { return Err(NotFound); }
      if runs[run].status.Blocked? { return Ok(RunStatus.Blocked); }
      if !runs[run].status.CanBecome(RunStatus.Blocked) { return Err(InvalidTransition); }
      Move(run, RunStatus.Blocked);
      Append(run, RunBlocked, None);
      r := Ok(RunStatus.Blocked);
    }

    method FailRun(run: Id, claim: Option<Claim>) returns (r: Result<RunStatus>)
      modifies this
      ensures Commit(State(), r) == Runs.FailRun(old(State()), run, claim)
    {
      if !State().Fence(claim, AdvanceRun, run) { return Err(LeaseLost); }
      if run !in runs { return Err(NotFound); }
      if runs[run].status.Terminal() { return Ok(runs[run].status); }
      if !runs[run].status.CanBecome(RunStatus.Failed) { return Err(InvalidTransition); }
      if State().HasNonterminalChildren(run) { return Err(VersionConflict); }
      End(run, RunStatus.Failed, RunFailed);
      r := Ok(RunStatus.Failed);
    }

    /** Drop what was not sent, free what was held back, and only then see whether an effect is in doubt. */
    method TerminateRun(run: Id, claim: Option<Claim>) returns (r: Result<RunStatus>)
      modifies this
      ensures Commit(State(), r) == Runs.TerminateRun(old(State()), run, claim)
    {
      hide SweepActions, Runs.Ended, Budget.ReleaseAll, RunStatus.CanBecome, Store.Fence;
      if !State().Fence(claim, AdvanceRun, run) { return Err(LeaseLost); }
      if run !in runs { return Err(NotFound); }
      if runs[run].status.Terminal() { return Ok(runs[run].status); }
      var s := State();
      Abandon(run);
      var target := if State().HasUncertainEffects(run) then RunStatus.Blocked else RunStatus.Failed;
      if !s.runs[run].status.CanBecome(target) {
        Restore(s);
        return Err(InvalidTransition);
      }
      if target.Failed? && s.HasNonterminalChildren(run) {
        Restore(s);
        return Err(VersionConflict);
      }
      End(run, target, if target.Blocked? then RunBlocked else RunFailed);
      r := Ok(target);
    }

    /** Drop what was not sent and free what was held back. */
    method Abandon(run: Id)
      requires run in runs
      modifies `runs, `actions
      ensures var s := old(State());
        State() == s.WithRun(run, s.runs[run].(budget := s.runs[run].budget.ReleaseAll()))
                    .(actions := SweepActions(s.actions, {run}))
    {
      actions := SweepActions(actions, {run});
      var freed := FreeRows(runs[run].budget);
      runs := runs[run := runs[run].(budget := freed)];
    }

    method FreeRows(b: Budget) returns (freed: Budget)
      ensures freed == b.ReleaseAll()
    {
      var rows: seq<Reservation> := [];
      for k := 0 to |b.rows|
        invariant |rows| == k && forall i :: 0 <= i < k ==> rows[i] == b.rows[i].Freed()
      {
        var row := b.rows[k];
        if row.status.Reserved? { row := row.(status := ReservationStatus.Released, actual := 0); }
        rows := rows + [row];
      }
      assert rows == b.ReleaseAll().rows;
      freed := b.(rows := rows);
    }

    method RecoverCheckpoint(owner: Owner, run: Id, incompatible: bool) returns (r: Result<()>)
      modifies this
      ensures Commit(State(), r) == Runs.RecoverCheckpoint(old(State()), owner, run, incompatible)
    {
      if !State().Owns(owner, run) { return Err(NotFound); }
      if !incompatible { return Ok(()); }
      if !runs[run].status.Blocked? {
        if !runs[run].status.CanBecome(RunStatus.Blocked) { return Err(InvalidTransition); }
        Move(run, RunStatus.Blocked);
      }
      Append(run, RunMigrationRequired, None);
      r := Err(MigrationRequired);
    }

    // ---- Actions ----

    method AdmitAction(owner: Owner, slot: Slot, request: Request, claim: Option<Claim>, action: Id)
      returns (r: Result<Acts.Admitted>)
      modifies this
      ensures Commit(State(), r) == Acts.AdmitAction(old(State()), owner, slot, request, claim, action)
    {
      if !State().Fence(claim, AdvanceRun, slot.run) { return Err(LeaseLost); }
      if !State().Owns(owner, slot.run) { return Err(NotFound); }
      if slot in slots && slots[slot] in actions {
        var existing := actions[slots[slot]].request;
        if existing.hash != request.hash || existing.capability != request.capability
          || existing.revision != request.revision {
          return Err(IdempotencyConflict);
        }
        return Ok(Acts.Admitted(slots[slot], true));
      }
      if !runs[slot.run].status.Queued? && !runs[slot.run].status.Running? { return Err(AlreadyTerminal); }
      if action in actions || slot in slots { return Err(DuplicateKey); }
      Insert(Action(owner, slot, request, ActionStatus.Ready, 0, 0, None, None, None, [], []), action);
      r := Ok(Acts.Admitted(action, false));
    }

    method Insert(row: Action, action: Id)
      requires row.slot.run in runs
      modifies `actions, `slots, `runs
      ensures actions == old(actions)[action := row] && slots == old(slots)[row.slot := action]
      ensures runs == old(runs)[row.slot.run := old(runs)[row.slot.run].Append(ActionReady, Some(action))]
    {
      actions := actions[action := row];
      slots := slots[row.slot := action];
      Append(row.slot.run, ActionReady, Some(action));
    }

    /** An Action whose newest attempt has got an outcome. */
    method CloseAttempt(a: Action, status: AttemptStatus) returns (a': Action)
      requires a.attempts != []
      ensures a' == a.(attempts := MarkLatest(a.attempts, status))
    {
      var at := Latest(a.attempts).value;
      a' := a.(attempts := a.attempts[at := a.attempts[at].(status := status)]);
    }

    /** Start an Action, or take a ledger-backed one over: its running attempt is given up, and the next one opened. */
    method BeginDispatch(action: Id, claim: Option<Claim>, key: Option<EffectKey>) returns (r: Result<bool>)
      modifies this
      ensures Commit(State(), r) == Acts.BeginDispatch(old(State()), action, claim, key)
    {
      if claim.Some? && !State().Holds(claim.value) { return Err(LeaseLost); }
      if claim.Some? && !Acts.ClaimCovers(State(), claim.value, action) { return Err(LeaseLost); }
      if action !in actions { return Ok(false); }
      var a := actions[action];
      var recovering := Acts.Recovering(State(), a, claim);
      if !a.status.Ready? && !recovering { return Ok(false); }
      if a.slot.run !in runs { return Err(NotFound); }
      if !runs[a.slot.run].status.Running? { return Err(AlreadyTerminal); }
      if claim.Some? && LeaseReplayable(a.request.capability) && key.None? { return Err(InvalidOperation); }
      if recovering {
        if key != a.key || !LatestIs(a.attempts, AttemptStatus.Started) { return Err(VersionConflict); }
        a := CloseAttempt(a, AttemptStatus.OutcomeUnknown);
      }
      var epoch := if claim.Some? then claim.value.epoch else 0;
      var attempt := Attempt(MaxNumber(a.attempts) + 1, AttemptStatus.Started, epoch, key);
      actions := actions[action := a.(status := ActionStatus.Running, version := a.version + 1, leaseEpoch := epoch,
                                      key := if key.Some? then key else a.key, attempts := a.attempts + [attempt])];
      Append(a.slot.run, if recovering then ActionRetryStarted else ActionStarted, Some(action));
      r := Ok(true);
    }

    method CompleteAction(action: Id, ok: bool, result: ActionResult,
                          claim: Option<Claim>) returns (r: Result<ActionStatus>)
      modifies this
      ensures Commit(State(), r) == Acts.CompleteAction(old(State()), action, ok, result, claim)
    {
      if claim.Some? && !State().Holds(claim.value) { return Err(LeaseLost); }
      if action !in actions { return Err(NotFound); }
      if claim.Some? && !Acts.ClaimCovers(State(), claim.value, action) { return Err(LeaseLost); }
      if actions[action].status.Succeeded? { return Ok(ActionStatus.Succeeded); }
      if !actions[action].status.Running? { return Err(VersionConflict); }
      if claim.Some? && actions[action].leaseEpoch != claim.value.epoch { return Err(LeaseLost); }
      if !LatestIs(actions[action].attempts, AttemptStatus.Started) { return Err(VersionConflict); }
      if actions[action].slot.run !in runs { return Err(NotFound); }
      var a := CloseAttempt(actions[action], if ok then AttemptStatus.Succeeded else AttemptStatus.Failed);
      actions := actions[action := a.(status := if ok then ActionStatus.Succeeded else ActionStatus.Failed,
                                      result := Some(result), version := a.version + 1)];
      Append(a.slot.run, ActionCompleted, Some(action));
      r := Ok(if ok then ActionStatus.Succeeded else ActionStatus.Failed);
    }

    method MarkOutcomeUnknown(action: Id, result: ActionResult) returns (r: Result<()>)
      modifies this
      ensures Commit(State(), r) == Acts.MarkOutcomeUnknown(old(State()), action, result)
    {
      hide RunStatus.CanBecome;
      if action !in actions { return Err(NotFound); }
      var run := actions[action].slot.run;
      if !actions[action].status.Running? || !LatestIs(actions[action].attempts, AttemptStatus.Started) {
        return Err(VersionConflict);
      }
      if run !in runs { return Err(NotFound); }
      if !runs[run].status.Blocked? {
        if !runs[run].status.CanBecome(RunStatus.Blocked) { return Err(InvalidTransition); }
        Move(run, RunStatus.Blocked);
      }
      var a := CloseAttempt(actions[action], AttemptStatus.OutcomeUnknown);
      actions := actions[action := a.(status := ActionStatus.OutcomeUnknown, result := Some(result),
                                      version := a.version + 1)];
      Append(run, ActionOutcomeUnknown, Some(action));
      r := Ok(());
    }

    method MarkRetryWait(action: Id, result: ActionResult, key: EffectKey) returns (r: Result<()>)
      modifies this
      ensures Commit(State(), r) == Acts.MarkRetryWait(old(State()), action, result, key)
    {
      if action !in actions { return Err(NotFound); }
      if !actions[action].status.Running?
        || !actions[action].request.effect.RemoteIdempotent? { return Err(VersionConflict); }
      if actions[action].key.Some? && actions[action].key != Some(key) { return Err(IdempotencyConflict); }
      if !LatestIs(actions[action].attempts, AttemptStatus.Started) { return Err(VersionConflict); }
      if actions[action].slot.run !in runs { return Err(NotFound); }
      var a := CloseAttempt(actions[action], AttemptStatus.OutcomeUnknown);
      actions := actions[action := a.(status := ActionStatus.RetryWait, result := Some(result), key := Some(key),
                                      version := a.version + 1)];
      Append(a.slot.run, ActionRetryScheduled, Some(action));
      r := Ok(());
    }

    method BeginRetry(action: Id, key: EffectKey) returns (r: Result<nat>)
      modifies this
      ensures Commit(State(), r) == Acts.BeginRetry(old(State()), action, key)
    {
      if action !in actions { return Err(NotFound); }
      var a := actions[action];
      if a.slot.run !in runs { return Err(NotFound); }
      if !a.status.RetryWait? || !a.request.effect.RemoteIdempotent? || a.key != Some(key)
        || !runs[a.slot.run].status.Running? {
        return Err(VersionConflict);
      }
      if !LatestIs(a.attempts, AttemptStatus.OutcomeUnknown) { return Err(VersionConflict); }
      var number := a.attempts[Latest(a.attempts).value].number + 1;
      actions := actions[action := a.(status := ActionStatus.Running, version := a.version + 1,
                                      attempts := a.attempts + [Attempt(number, AttemptStatus.Started, a.leaseEpoch,
                                          Some(key))])];
      Append(a.slot.run, ActionRetryStarted, Some(action));
      r := Ok(number);
    }

    method RecordCancelReceipt(action: Id, stopped: bool) returns (r: Result<()>)
      modifies this
      ensures Commit(State(), r) == Acts.RecordCancelReceipt(old(State()), action, stopped)
    {
      if action !in actions { return Err(NotFound); }
      var a := actions[action];
      var run := a.slot.run;
      if run !in runs { return Err(NotFound); }
      if !runs[run].status.Cancelling? { return Err(VersionConflict); }
      actions := actions[action := a.(status := if stopped then ActionStatus.Cancelled
                                      else ActionStatus.WaitingExternal,
                                      version := a.version + 1)];
      var over := stopped && !State().HasUnresolvedActions(run) && !State().HasNonterminalChildren(run);
      Append(run, ActionCancelReceipt, Some(action));
      if over {
        Move(run, RunStatus.Cancelled);
        Append(run, RunCancelled, None);
      }
      r := Ok(());
    }

    method ReconcileAction(owner: Owner, action: Id, verdict: Verdict, evidenced: bool, job: Id) returns (r: Result<()>)
      modifies this
      ensures Commit(State(), r) == Acts.ReconcileAction(old(State()), owner, action, verdict, evidenced, job)
    {
      hide Reconciled, Acts.FindVerdict, RunStatus.CanBecome, Store.HasUnresolvedActions, Store.HasNonterminalChildren;
      if !evidenced { return Err(InvalidArgument); }
      if !State().OwnsAction(owner, action) { return Err(NotFound); }
      var a := actions[action];
      var existing := Acts.FindVerdict(a.verdicts, verdict.key);
      if existing.Some? {
        if existing.value != verdict { return Err(IdempotencyConflict); }
        return Ok(());
      }
      if a.version != verdict.actionVersion || (!a.status.OutcomeUnknown? && !a.status.WaitingExternal?) {
        return Err(VersionConflict);
      }
      if a.slot.run !in runs { return Err(NotFound); }
      var blocked, cancelling := runs[a.slot.run].status.Blocked?, runs[a.slot.run].status.Cancelling?;
      if blocked && job in jobs { return Err(DuplicateKey); }
      actions := actions[action := Reconciled(a, verdict, cancelling)];
      var over := cancelling && !State().HasUnresolvedActions(a.slot.run)
        && !State().HasNonterminalChildren(a.slot.run);
      Move(a.slot.run, if blocked then RunStatus.Queued else runs[a.slot.run].status);
      Append(a.slot.run, ActionReconciled, Some(action));
      if blocked { jobs := jobs[job := NewJob(AdvanceRun, a.slot.run, Some(action), now)]; }
      if over {
        runs := runs[a.slot.run := runs[a.slot.run].(status := RunStatus.Cancelled)];
        Append(a.slot.run, RunCancelled, None);
      }
      r := Ok(());
    }

    /**
     Confirm a committed local effect from its receipt; a missing or odd receipt proves nothing and changes
     nothing.
     */
    method ReconcileLocal(v: Vault, owner: Owner, action: Id, claim: Claim) returns (r: Result<bool>)
      modifies this
      ensures Commit(State(), r) == Acts.ReconcileLocal(old(State()), v, owner, action, claim)
    {
      if !State().Fence(Some(claim), CancelRun, claim.run) { return Err(LeaseLost); }
      if !State().OwnsAction(owner, action) { return Err(NotFound); }
      var a := actions[action];
      if a.slot.run != claim.run { return Err(LeaseLost); }
      if a.status.Succeeded? { return Ok(true); }
      if !a.status.Running? || !a.LocalReplayable() || a.key != Some(ActionKey(action)) { return Ok(false); }
      if a.slot.run !in runs || !runs[a.slot.run].status.Cancelling? { return Err(VersionConflict); }
      if !Acts.BoundFor(a.request) || !Acts.ReceiptProves(v, owner, action, a.request.bound.value) { return Ok(false); }
      if !LatestIs(a.attempts, AttemptStatus.Started) { return Err(VersionConflict); }
      if a.attempts[Latest(a.attempts).value].key != a.key { return Ok(false); }
      var receipt := v.ledger[LedgerKey(owner, a.request.bound.value.Where(), ActionKey(action))];
      a := CloseAttempt(a, AttemptStatus.Succeeded);
      actions := actions[action := a.(status := ActionStatus.Succeeded, version := a.version + 1,
                                      result := Some(Envelope(Reply(receipt.status, receipt.body))))];
      Append(a.slot.run, ActionReconciledLocal, Some(action));
      r := Ok(true);
    }

    // ---- Approvals and clarifications ----

    method RequestApproval(owner: Owner, action: Id, expiresAt: nat, request: Id) returns (r: Result<Id>)
      modifies this
      ensures Commit(State(), r) == Inputs.RequestApproval(old(State()), owner, action, expiresAt, request)
    {
      if expiresAt <= now { return Err(InputRequestExpired); }
      if !State().OwnsAction(owner, action) { return Err(NotFound); }
      var a := actions[action];
      if a.slot.run !in runs { return Err(NotFound); }
      if Inputs.ApprovalOpen(State(), a) { return Ok(a.approval.value); }
      if !a.status.Ready? { return Err(VersionConflict); }
      if !runs[a.slot.run].status.Running? { return Err(AlreadyTerminal); }
      if request in requests { return Err(DuplicateKey); }
      requests := requests[request :=
        InputRequest(owner, a.slot.run, Some(action), Pending, 0, a.request.hash, Some(a.request.revision), expiresAt)];
      actions := actions[action := a.(status := ActionStatus.WaitingInput, approval := Some(request),
                                      version := a.version + 1)];
      Move(a.slot.run, RunStatus.WaitingInput);
      Append(a.slot.run, InputRequested, Some(action));
      r := Ok(request);
    }

    method RequestClarification(owner: Owner, run: Id, hash: nat, expiresAt: nat, claim: Option<Claim>, request: Id)
      returns (r: Result<Id>)
      modifies this
      ensures Commit(State(), r) ==
                Inputs.RequestClarification(old(State()), owner, run, hash, expiresAt, claim, request)
    {
      if expiresAt <= now { return Err(InputRequestExpired); }
      if !State().Fence(claim, AdvanceRun, run) { return Err(LeaseLost); }
      if !State().Owns(owner, run) { return Err(NotFound); }
      if hash in runs[run].clarifications { return Ok(runs[run].clarifications[hash]); }
      if !runs[run].status.Running? { return Err(AlreadyTerminal); }
      if request in requests { return Err(DuplicateKey); }
      requests := requests[request := InputRequest(owner, run, None, Pending, 0, hash, None, expiresAt)];
      runs := runs[run := runs[run].(clarifications := runs[run].clarifications[hash := request])];
      Move(run, RunStatus.WaitingInput);
      Append(run, InputRequested, None);
      r := Ok(request);
    }

    method Respond(owner: Owner, request: Id, expectedVersion: nat, decision: Decision, content: nat, key: nat, job: Id)
      returns (r: Result<RequestStatus>)
      modifies this
      ensures Commit(State(), r) ==
                Inputs.Respond(old(State()), owner, request, expectedVersion, decision, content, key, job)
    {
      var at := ResponseKey(owner, key);
      var response := Response(request, expectedVersion, decision, content);
      if at in responses {
        if responses[at] != response { return Err(IdempotencyConflict); }
        if request !in requests { return Err(NotFound); }
        return Ok(requests[request].status);
      }
      if request !in requests || requests[request].owner != owner { return Err(NotFound); }
      var q := requests[request];
      if q.version != expectedVersion || !q.status.Pending? { return Err(VersionConflict); }
      if q.run !in runs { return Err(NotFound); }
      if q.expiresAt <= now {
        requests := requests[request := q.(status := RequestStatus.Expired, version := q.version + 1)];
        Append(q.run, InputExpired, q.action);
        return Err(InputRequestExpired);
      }
      if q.action.Some? == decision.Submit? { return Err(VersionConflict); }
      if q.action.Some? && q.action.value !in actions { return Err(NotFound); }
      if q.action.Some? && !q.Fits(actions[q.action.value].request) { return Err(ApprovalRequired); }
      if !runs[q.run].status.WaitingInput? { return Err(VersionConflict); }
      if decision.Deny? && State().HasNonterminalChildren(q.run) { return Err(VersionConflict); }
      if !decision.Deny? && job in jobs { return Err(DuplicateKey); }
      r := Answer(owner, request, decision, at, response, job);
    }

    /** The writes of an answer that is accepted. */
    method Answer(owner: Owner, request: Id, decision: Decision, at: ResponseKey, response: Response, job: Id)
      returns (r: Result<RequestStatus>)
      requires request in requests && requests[request].run in runs
      requires requests[request].action.Some? ==> requests[request].action.value in actions
      modifies this
      ensures var s, q := old(State()), old(requests)[request];
        var status := if decision.Deny? then Denied else Answered;
        var next := if decision.Deny? then RunStatus.Failed else RunStatus.Queued;
        && r == Ok(status)
        && State() == s.WithRun(q.run, s.runs[q.run].Become(next)
                                .Append(if decision.Deny? then InputDenied else InputAnswered, q.action))
             .(requests := s.requests[request := q.(status := status, version := q.version + 1)],
               responses := s.responses[at := response],
               actions := if q.action.Some?
                 then s.actions[q.action.value := Decided(s.actions[q.action.value], decision.Approve?)] else s.actions,
               jobs := if decision.Deny? then s.jobs else s.jobs[job := NewJob(AdvanceRun, q.run, q.action, s.now)])
    {
      var q := requests[request];
      var status := if decision.Deny? then Denied else Answered;
      requests := requests[request := q.(status := status, version := q.version + 1)];
      responses := responses[at := response];
      if q.action.Some? {
        actions := actions[q.action.value := Decided(actions[q.action.value], decision.Approve?)];
      }
      Move(q.run, if decision.Deny? then RunStatus.Failed else RunStatus.Queued);
      Append(q.run, if decision.Deny? then InputDenied else InputAnswered, q.action);
      if !decision.Deny? { jobs := jobs[job := NewJob(AdvanceRun, q.run, q.action, now)]; }
      r := Ok(status);
    }

    // ---- Budgets ----

    /** Position of a key among the rows, the last one if there were several. */
    method Lookup(rows: seq<Reservation>, key: ReservationKey) returns (at: Option<nat>)
      ensures at == Find(rows, key)
    {
      var k := |rows|;
      assert rows[..k] == rows;
      while k > 0 && rows[k - 1].key != key
        invariant 0 <= k <= |rows| && Find(rows, key) == Find(rows[..k], key)
      {
        assert rows[..k][..k - 1] == rows[..k - 1];
        k := k - 1;
      }
      assert k > 0 ==> rows[..k][k - 1] == rows[k - 1];
      at := if k > 0 then Some(k - 1) else None;
    }

    method ReserveBudget(run: Id, key: ReservationKey, d: Dimension, amount: int, claim: Option<Claim>)
      returns (r: Result<Reservation>)
      modifies this
      ensures Commit(State(), r) == Accounts.ReserveBudget(old(State()), run, key, d, amount, claim)
    {
      if amount <= 0 { return Err(InvalidArgument); }
      if !State().Fence(claim, AdvanceRun, run) { return Err(LeaseLost); }
      if run !in runs { return Err(NotFound); }
      var b := runs[run].budget;
      SameBudget(run);
      var at := Lookup(b.rows, key);
      if at.Some? {
        if b.rows[at.value].dimension != d || b.rows[at.value].amount != amount { return Err(IdempotencyConflict); }
        return Ok(b.rows[at.value]);
      }
      var reserved := Reserved(b.rows, d);
      if b.limits.At(d).Some?
        && b.used.At(d) + reserved + amount > b.limits.At(d).value { return Err(BudgetExhausted); }
      var row := Reservation(key, d, amount, ReservationStatus.Reserved, 0);
      runs := runs[run := runs[run].(budget := b.(rows := b.rows + [row]))];
      r := Ok(row);
    }

    /** Writing back what was read changes nothing. */
    lemma SameBudget(run: Id)
      requires run in runs
      ensures runs[run := runs[run].(budget := runs[run].budget)] == runs
    {
    }

    method SettleBudget(run: Id, key: ReservationKey, actual: int,
                        claim: Option<Claim>) returns (r: Result<Reservation>)
      modifies this
      ensures Commit(State(), r) == Accounts.SettleBudget(old(State()), run, key, actual, claim)
    {
      if actual < 0 { return Err(InvalidArgument); }
      if run !in runs { return Err(NotFound); }
      var b := runs[run].budget;
      SameBudget(run);
      var at := Lookup(b.rows, key);
      if at.None? { return Err(NotFound); }
      if !State().Fence(claim, AdvanceRun, run) { return Err(LeaseLost); }
      var row := b.rows[at.value];
      if row.status.Settled? { return Ok(row); }
      if row.status.Released? { return Err(VersionConflict); }
      var others := Reserved(b.rows[at.value := row.Freed()], row.dimension);
      if b.limits.At(row.dimension).Some?
        && b.used.At(row.dimension) + others + actual > b.limits.At(row.dimension).value {
        return Err(BudgetExhausted);
      }
      row := row.(status := Settled, actual := actual);
      runs := runs[run := runs[run].(budget := b.(used := b.used.Plus(row.dimension, actual),
                                                  rows := b.rows[at.value := row]))];
      r := Ok(row);
    }

    method ReleaseBudget(run: Id, key: ReservationKey, claim: Option<Claim>) returns (r: Result<Reservation>)
      modifies this
      ensures Commit(State(), r) == Accounts.ReleaseBudget(old(State()), run, key, claim)
    {
      if run !in runs { return Err(NotFound); }
      var b := runs[run].budget;
      var at := Lookup(b.rows, key);
      if at.None? { return Err(NotFound); }
      if !State().Fence(claim, AdvanceRun, run) { return Err(LeaseLost); }
      var row := b.rows[at.value];
      if row.status.Reserved? { row := row.(status := ReservationStatus.Released, actual := 0); }
      runs := runs[run := runs[run].(budget := b.(rows := b.rows[at.value := row]))];
      r := Ok(row);
    }

    // ---- Model calls ----

    method StoreCall(run: Id, turn: nat, call: ModelCall, kind: EventKind)
      requires run in runs
      modifies `runs
      ensures var r := old(runs)[run]; runs == old(runs)[run := r.(calls := r.calls[turn := call]).Append(kind, None)]
    {
      runs := runs[run := runs[run].(calls := runs[run].calls[turn := call])];
      Append(run, kind, None);
    }

    method BeginModelCall(owner: Owner, run: Id, turn: nat, maxOutput: nat,
                          claim: Option<Claim>) returns (r: Result<ModelCall>)
      modifies this
      ensures Commit(State(), r) == Accounts.BeginModelCall(old(State()), owner, run, turn, maxOutput, claim)
    {
      if !State().Fence(claim, AdvanceRun, run) { return Err(LeaseLost); }
      if !State().Owns(owner, run) { return Err(NotFound); }
      if !runs[run].status.Running? { return Err(AlreadyTerminal); }
      var calls := runs[run].calls;
      if turn in calls && !calls[turn].status.Started? { return Ok(calls[turn]); }
      var call := if turn in calls then calls[turn] else ModelCall(CallStatus.Started, maxOutput, 0);
      StoreCall(run, turn, call, ModelCallStarted);
      r := Ok(call);
    }

    method CompleteModelCall(run: Id, turn: nat, outputTokens: nat, claim: Option<Claim>) returns (r: Result<ModelCall>)
      modifies this
      ensures Commit(State(), r) == Accounts.CompleteModelCall(old(State()), run, turn, outputTokens, claim)
    {
      if run !in runs || turn !in runs[run].calls { return Err(NotFound); }
      if !State().Fence(claim, AdvanceRun, run) { return Err(LeaseLost); }
      var call := runs[run].calls[turn];
      if !call.status.Started? { return Ok(call); }
      call := call.(status := CallStatus.Committed, outputTokens := outputTokens);
      StoreCall(run, turn, call, ModelResponseCommitted);
      r := Ok(call);
    }

    method MarkModelCall(run: Id, turn: nat, valid: bool, claim: Option<Claim>) returns (r: Result<ModelCall>)
      modifies this
      ensures Commit(State(), r) == Accounts.MarkModelCall(old(State()), run, turn, valid, claim)
    {
      if run !in runs || turn !in runs[run].calls { return Err(NotFound); }
      if !State().Fence(claim, AdvanceRun, run) { return Err(LeaseLost); }
      var call := runs[run].calls[turn];
      var status := if valid then CallStatus.Processed else CallStatus.Invalid;
      if call.status == status { return Ok(call); }
      if !call.status.Committed? { return Err(VersionConflict); }
      call := call.(status := status);
      StoreCall(run, turn, call, ModelCallClosed);
      r := Ok(call);
    }
  }
}
