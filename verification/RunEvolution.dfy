/** Every transaction on Runs evolves the tables in an orderly way. */
module RunEvolution {
  import opened States
  import opened Wrappers
  import opened Budgets
  import opened Vaults
  import opened Records
  import opened ActionProtocol
  import opened Evolution
  import opened EvolutionProofs
  import opened RunTransactions

  // ---- Admission ----

  /** One Run is new; no other record a reference goes through changes. */
  lemma SoundGrows(s: Store, s': Store, run: Id)
    requires Sound(s) && run !in s.runs && s'.runs.Keys == s.runs.Keys + {run}
    requires s'.actions == s.actions && s'.requests == s.requests && s'.slots == s.slots
    requires forall r :: r in s.runs ==>
               s'.runs[r].owner == s.runs[r].owner && s'.runs[r].parent == s.runs[r].parent
                 && s'.runs[r].depth == s.runs[r].depth
    requires forall j :: j in s'.jobs ==> s'.jobs[j].run in s'.runs
    requires ParentOk(s', run)
    ensures Sound(s')
  {
    forall r | r in s'.runs ensures ParentOk(s', r) { assert r != run ==> ParentOk(s, r); }
    forall a | a in s'.actions ensures ActionRefsOk(s', a) { assert ActionRefsOk(s, a); }
    forall q | q in s'.requests ensures RequestRefsOk(s', q) { assert RequestRefsOk(s, q); }
  }

  lemma RunsGrow(s: Store, s': Store, run: Id)
    requires run !in s.runs && s'.runs.Keys == s.runs.Keys + {run} && s'.now == s.now && NewRun(s, s', run)
    requires forall r :: r in s.runs ==> RunEvolves(s.runs[r], s'.runs[r]) && s'.runs[r].status == s.runs[r].status
    ensures RunsEvolve(s, s')
  {
    hide RunEvolves, NewRun;
  }

  lemma OrderlyArrival(s: Store, s': Store, run: Id, job: Id)
    requires run !in s.runs && s'.runs.Keys == s.runs.Keys + {run} && s'.runs[run].status.Queued?
    requires s'.actions == s.actions
    requires job !in s.jobs && s'.jobs == s.jobs[job := NewJob(AdvanceRun, run, None, s.now)]
    requires forall r :: r in s.runs ==> s'.runs[r].status == s.runs[r].status
    ensures Orderly(s, s')
  {
    assert WakesUp(s, s', run, job);
  }

  /** A queued Run arrives with a wake-up; every other Run keeps its status. */
  lemma RunArrives(s: Store, s': Store, run: Id, job: Id)
    requires Sound(s) && run !in s.runs && s'.runs.Keys == s.runs.Keys + {run} && s'.now == s.now
    requires s'.actions == s.actions && s'.requests == s.requests && s'.slots == s.slots
    requires job !in s.jobs && s'.jobs == s.jobs[job := NewJob(AdvanceRun, run, None, s.now)]
    requires forall r :: r in s.runs ==> RunEvolves(s.runs[r], s'.runs[r]) && s'.runs[r].status == s.runs[r].status
    requires NewRun(s, s', run) && ParentOk(s', run)
    ensures Evolves(s, s', None) && Orderly(s, s')
  {
    hide ActionsEvolve, JobsEvolve, Orderly, RunsEvolve, LogOk, LogExtends, BudgetEvolves, ParentOk, Children;
    RunsGrow(s, s', run);
    ActionsKept(s, s');
    JobsAdded(s, s', job, s'.jobs[job]);
    SoundGrows(s, s', run);
    OrderlyArrival(s, s', run, job);
  }

  lemma AdmitRunEvolves(s: Store, owner: Owner, key: nat, hash: nat, limits: Limits, wall: Option<nat>, run: Id,
                        job: Id)
    requires Sound(s)
    ensures var s' := AdmitRun(s, owner, key, hash, limits, wall, run, job).store;
      Evolves(s, s', None) && Orderly(s, s')
  {
    var s' := AdmitRun(s, owner, key, hash, limits, wall, run, job).store;
    if s' == s { UnchangedEvolves(s); } else { RunArrives(s, s', run, job); }
  }

  /** Appending one held row adds its amount to what is held in its dimension, and nothing to what is spent. */
  lemma SumsAfterRow(rows: seq<Reservation>, row: Reservation, d: Dimension)
    ensures SumHeld(rows + [row], d) == SumHeld(rows, d) + Held(row, d)
    ensures SumSpent(rows + [row], d) == SumSpent(rows, d) + Spent(row, d)
  {
    assert (rows + [row])[..|rows|] == rows;
  }

  /** The part of a child's limits a parent holds back for one dimension. */
  lemma SumsAfterChildRow(rows: seq<Reservation>, child: Id, limits: Limits, of: Dimension, d: Dimension)
    ensures SumHeld(rows + ChildRow(child, limits, of), d)
         == SumHeld(rows, d) + (if d == of && limits.At(of).Some? then limits.At(of).value else 0)
    ensures SumSpent(rows + ChildRow(child, limits, of), d) == SumSpent(rows, d)
  {
    if limits.At(of).Some? {
      SumsAfterRow(rows, ChildRow(child, limits, of)[0], d);
    } else {
      assert rows + ChildRow(child, limits, of) == rows;
    }
  }

  lemma Regroup(a: seq<Reservation>, b: seq<Reservation>, c: seq<Reservation>)
    ensures a + (b + c) == (a + b) + c
  {
  }

  /** Admitting a child holds back its whole limit in every dimension it is limited in. */
  lemma SumsAfterChild(rows: seq<Reservation>, child: Id, limits: Limits, d: Dimension)
    ensures SumHeld(rows + ChildRows(child, limits), d)
         == SumHeld(rows, d) + (if limits.At(d).Some? then limits.At(d).value else 0)
    ensures SumSpent(rows + ChildRows(child, limits), d) == SumSpent(rows, d)
  {
    var one := rows + ChildRow(child, limits, ModelTurns);
    var two := one + ChildRow(child, limits, ToolCalls);
    var three := two + ChildRow(child, limits, OutputTokens);
    SumsAfterChildRow(rows, child, limits, ModelTurns, d);
    SumsAfterChildRow(one, child, limits, ToolCalls, d);
    SumsAfterChildRow(two, child, limits, OutputTokens, d);
    SumsAfterChildRow(three, child, limits, CostMicrounits, d);
    Regroup(rows, ChildRow(child, limits, ModelTurns), ChildRow(child, limits, ToolCalls));
    Regroup(rows, ChildRow(child, limits, ModelTurns) + ChildRow(child, limits, ToolCalls),
            ChildRow(child, limits, OutputTokens));
    Regroup(rows, ChildRow(child, limits, ModelTurns) + ChildRow(child, limits, ToolCalls) +
                  ChildRow(child, limits, OutputTokens),
            ChildRow(child, limits, CostMicrounits));
  }

  lemma ChildRowsUnique(rows: seq<Reservation>, child: Id, limits: Limits)
    requires UniqueKeys(rows) && forall i, d :: 0 <= i < |rows| ==> rows[i].key != ChildKey(child, d)
    ensures UniqueKeys(rows + ChildRows(child, limits))
  {
    var added := ChildRows(child, limits);
    assert forall i :: 0 <= i < |added| ==> added[i].key == ChildKey(child, added[i].dimension);
    assert forall i, j :: 0 <= i < j < |added| ==> added[i].dimension != added[j].dimension;
  }

  lemma ChildBudgetEvolves(b: Budget, child: Id, limits: Limits)
    requires forall d: Dimension :: ChildFits(b, limits, d)
    requires !ChildRowsTaken(b, child)
    ensures BudgetEvolves(b, b.(rows := b.rows + ChildRows(child, limits)))
  {
    var b' := b.(rows := b.rows + ChildRows(child, limits));
    if b.Sound() {
      forall d: Dimension
        ensures SumSpent(b'.rows, d) == SumSpent(b.rows, d)
        ensures b.limits.At(d).Some? ==> b.used.At(d) + SumHeld(b'.rows, d) <= b.limits.At(d).value
      {
        SumsAfterChild(b.rows, child, limits, d);
        assert ChildFits(b, limits, d);
      }
      forall i, d | 0 <= i < |b.rows| ensures b.rows[i].key != ChildKey(child, d) {
        assert Find(b.rows, ChildKey(child, d)).None?;
      }
      ChildRowsUnique(b.rows, child, limits);
    }
  }

  /** The new rows are found where the old ones end. */
  lemma ChildRowsBack(b: Budget, child: Id, limits: Limits)
    requires limits.turns.Some? && limits.tools.Some? && limits.tokens.Some?
    requires b.limits.cost.Some? ==> limits.cost.Some?
    ensures Backs(b.(rows := b.rows + ChildRows(child, limits)), child, limits)
  {
    var b' := b.(rows := b.rows + ChildRows(child, limits));
    forall d: Dimension
      ensures limits.At(d).Some? ==> exists i :: RowBacks(b', i, child, d, limits.At(d).value)
      ensures limits.At(d).None? ==> b.limits.At(d).None?
    {
      var at := |b.rows| +
        match d case ModelTurns => 0 case ToolCalls => 1 case OutputTokens => 2 case CostMicrounits => 3;
      assert limits.At(d).Some? ==> RowBacks(b', at, child, d, limits.At(d).value);
    }
  }

  lemma ChildRowsHeld(b: Budget, child: Id, limits: Limits)
    requires !ChildRowsTaken(b, child)
    ensures AllHeld(b.(rows := b.rows + ChildRows(child, limits)), child)
  {
    forall i, d | 0 <= i < |b.rows| ensures b.rows[i].key != ChildKey(child, d) {
      assert Find(b.rows, ChildKey(child, d)).None?;
    }
  }

  lemma RunStays(r: Run)
    ensures RunEvolves(r, r)
  {
  }

  lemma ParentEvolves(p: Run, child: Id, limits: Limits)
    requires BudgetEvolves(p.budget, p.budget.(rows := p.budget.rows + ChildRows(child, limits)))
    ensures RunEvolves(p, p.(budget := p.budget.(rows := p.budget.rows + ChildRows(child, limits)))
                       .Append(RunChildAccepted, None))
  {
  }

  /** A child is admitted: its parent holds back its limits, and a wake-up waits for it. */
  lemma ChildArrives(s: Store, s': Store, parent: Id, limits: Limits, wall: Option<nat>, child: Id, job: Id)
    requires Sound(s) && parent in s.runs && child !in s.runs && job !in s.jobs
    requires !s.runs[parent].status.Terminal() && !ChildRowsTaken(s.runs[parent].budget, child)
    requires forall d: Dimension :: ChildFits(s.runs[parent].budget, limits, d)
    requires limits.turns.Some? && limits.tools.Some? && limits.tokens.Some?
    requires s.runs[parent].budget.limits.cost.Some? ==> limits.cost.Some?
    requires var p := s.runs[parent];
             s'.runs == s.runs[parent := p.(budget := p.budget.(rows := p.budget.rows + ChildRows(child, limits)))
                               .Append(RunChildAccepted, None)]
                              [child := AcceptedRun(p.owner, Some(parent), p.depth + 1, s.now, limits, wall)]
    requires s' ==
        s.(runs := s'.runs, jobs := s.jobs[job := NewJob(AdvanceRun, child, None, s.now)], admissions := s'.admissions)
    ensures Evolves(s, s', None) && Orderly(s, s')
  {
    hide Evolves, Orderly, BudgetEvolves, UniqueKeys, LogExtends, Backs, AllHeld;
    ChildBudgetEvolves(s.runs[parent].budget, child, limits);
    ChildRowsHeld(s.runs[parent].budget, child, limits);
    ParentEvolves(s.runs[parent], child, limits);
    ChildRowsBack(s.runs[parent].budget, child, limits);
    forall r | r in s.runs && r != parent ensures RunEvolves(s.runs[r], s'.runs[r]) { RunStays(s.runs[r]); }
    RunArrives(s, s', child, job);
  }

  lemma AdmitChildEvolves(s: Store, owner: Owner, parent: Id, key: nat, hash: nat, limits: Limits, wall: Option<nat>,
                          maxDepth: nat, maxChildren: nat, child: Id, job: Id)
    requires Sound(s)
    ensures var s' := AdmitChild(s, owner, parent, key, hash, limits, wall, maxDepth, maxChildren, child, job).store;
            Evolves(s, s', None) && Orderly(s, s')
  {
    var s' := AdmitChild(s, owner, parent, key, hash, limits, wall, maxDepth, maxChildren, child, job).store;
    if s' == s {
      UnchangedEvolves(s);
    } else {
      forall d: Dimension ensures ChildFits(s.runs[parent].budget, limits, d) { match d { case _ => } }
      ChildArrives(s, s', parent, limits, wall, child, job);
    }
  }

  // ---- Cancellation and endings ----

  /** Undispatched Actions of some Runs are dropped; no other Action changes. */
  lemma ActionsSwept(s: Store, s': Store, swept: set<Id>)
    requires Sound(s) && s.runs.Keys <= s'.runs.Keys
    requires s'.actions == SweepActions(s.actions, swept) && s'.requests == s.requests
    ensures ActionsEvolve(s, s', None)
  {
    forall a | a in s.actions ensures StepsTo(a, ViewOf(s, a), ViewOf(s', a), None) {
      if ViewOf(s', a) != ViewOf(s, a) {
        assert Enabled(ViewOf(s, a), Sweep);
      }
    }
  }

  lemma JobsForked(s: Store, s': Store, stopping: set<Id>, jobOf: map<Id, Id>)
    requires FreshJobs(s.jobs, stopping, jobOf) && s'.jobs == CancelJobs(s.jobs, stopping, jobOf, s.now)
    requires stopping <= s'.runs.Keys && s.runs.Keys <= s'.runs.Keys && forall j :: j in s.jobs ==>
               s.jobs[j].run in s.runs
    ensures JobsEvolve(s, s')
    ensures forall j :: j in s'.jobs ==> s'.jobs[j].run in s'.runs
  {
  }

  lemma RunsStopped(s: Store, s': Store, stopping: set<Id>)
    requires s'.now == s.now && forall r :: r in stopping ==>
               r in s.runs && s.runs[r].status.CanBecome(RunStatus.Cancelling)
    requires s'.runs == StopRuns(s.runs, stopping)
    ensures RunsEvolve(s, s')
  {
    forall r | r in s.runs ensures RunEvolves(s.runs[r], s'.runs[r]) {
      BecomeEvolves(s.runs[r], if r in stopping then RunStatus.Cancelling
                    else s.runs[r].status, RunCancellationRequested, None);
    }
  }

  lemma OrderlyStop(s: Store, s': Store, stopping: set<Id>)
    requires s'.runs == StopRuns(s.runs, stopping)
    requires forall j :: j in s.jobs && j in s'.jobs ==> s'.jobs[j] == s.jobs[j]
    ensures Orderly(s, s')
  {
  }

  lemma SoundStopped(s: Store, s': Store, stopping: set<Id>)
    requires Sound(s) && s'.requests == s.requests && s'.slots == s.slots
    requires s'.runs == StopRuns(s.runs, stopping) && s'.actions == SweepActions(s.actions, stopping)
    requires forall j :: j in s'.jobs ==> s'.jobs[j].run in s'.runs
    ensures Sound(s')
  {
    SoundKept(s, s');
  }

  lemma StopStep(s: Store, s': Store, stopping: set<Id>, jobOf: map<Id, Id>)
    requires Sound(s) && FreshJobs(s.jobs, stopping, jobOf)
    requires forall r :: r in stopping ==> r in s.runs && s.runs[r].status.CanBecome(RunStatus.Cancelling)
    requires s'.now == s.now && s'.requests == s.requests && s'.slots == s.slots
    requires s'.runs == StopRuns(s.runs, stopping)
    requires s'.actions == SweepActions(s.actions, stopping)
    requires s'.jobs == CancelJobs(s.jobs, stopping, jobOf, s.now)
    ensures Evolves(s, s', None) && Orderly(s, s')
  {
    hide RunsEvolve, ActionsEvolve, JobsEvolve, Orderly, RunEvolves, StepsTo;
    RunsStopped(s, s', stopping);
    ActionsSwept(s, s', stopping);
    JobsForked(s, s', stopping, jobOf);
    OrderlyStop(s, s', stopping);
    SoundStopped(s, s', stopping);
    hide *;
    assert Evolves(s, s', None) by { Assemble(s, s', None); }
  }

  lemma StopSubtreeEvolves(s: Store, s': Store, root: Id, jobOf: map<Id, Id>)
    requires Sound(s) && FreshJobs(s.jobs, Stopping(s.runs, root), jobOf)
    requires s' == StopSubtree(s, root, jobOf).(admissions := s'.admissions)
    ensures Evolves(s, s', None) && Orderly(s, s')
  {
    hide Evolves, Orderly, Sound;
    StopStep(s, s', Stopping(s.runs, root), jobOf);
  }

  lemma AdmissionsOnly(s: Store, s': Store)
    requires Sound(s) && s' == s.(admissions := s'.admissions)
    ensures Evolves(s, s', None) && Orderly(s, s')
  {
    RunsKept(s, s');
    ActionsKept(s, s');
    JobsKept(s, s');
    SoundKept(s, s');
  }

  lemma RequestCancellationEvolves(s: Store, owner: Owner, root: Id, key: nat, hash: nat, jobOf: map<Id, Id>)
    requires Sound(s)
    ensures var s' := RequestCancellation(s, owner, root, key, hash, jobOf).store;
      Evolves(s, s', None) && Orderly(s, s')
  {
    var s' := RequestCancellation(s, owner, root, key, hash, jobOf).store;
    if !s.Owns(owner, root) || AdmissionKey(owner, CancellationsRoute, key) in s.admissions
       || s.runs[root].status.Terminal() || s.runs[root].status.Cancelling?
    {
      AdmissionsOnly(s, s');
    } else if FreshJobs(s.jobs, Stopping(s.runs, root), jobOf) {
      StopSubtreeEvolves(s, s', root, jobOf);
    } else {
      UnchangedEvolves(s);
    }
  }

  lemma FinalizeCancellationEvolves(s: Store, owner: Owner, run: Id, claim: Option<Claim>)
    requires Sound(s)
    ensures var s' := FinalizeCancellation(s, owner, run, claim).store; Evolves(s, s', None) && Orderly(s, s')
  {
    var s' := FinalizeCancellation(s, owner, run, claim).store;
    if s' == s {
      UnchangedEvolves(s);
    } else {
      BecomeEvolves(s.runs[run], RunStatus.Cancelled, RunCancelled, None);
      RunStep(s, s', run, s'.runs[run], true);
    }
  }

  lemma TransitionRunEvolves(s: Store, run: Id, expectedVersion: nat, next: RunStatus)
    requires Sound(s)
    ensures Evolves(s, TransitionRun(s, run, expectedVersion, next).store, None)
  {
    var s' := TransitionRun(s, run, expectedVersion, next).store;
    if s' == s {
      UnchangedEvolves(s);
    } else {
      BecomeEvolves(s.runs[run], next, RunTransitioned, None);
      RunStepEvolves(s, s', run, s'.runs[run], false);
    }
  }

  lemma EnsureRunningEvolves(s: Store, run: Id, claim: Option<Claim>)
    requires Sound(s)
    ensures var s' := EnsureRunning(s, run, claim).store; Evolves(s, s', None) && Orderly(s, s')
  {
    var s' := EnsureRunning(s, run, claim).store;
    if s' == s {
      UnchangedEvolves(s);
    } else {
      BecomeEvolves(s.runs[run], RunStatus.Running, RunStarted, None);
      RunStep(s, s', run, s'.runs[run], false);
    }
  }

  /** Ending a Run whose children have ended. */
  lemma EndedEvolves(s: Store, run: Id, next: RunStatus, kind: EventKind)
    requires Sound(s) && run in s.runs && s.runs[run].status.CanBecome(next)
    requires next in {RunStatus.Succeeded, RunStatus.Failed}
    requires !s.HasNonterminalChildren(run)
    ensures var s' := Ended(s, run, next, kind); Evolves(s, s', None) && Orderly(s, s')
  {
    var s' := Ended(s, run, next, kind);
    BecomeEvolves(s.runs[run], next, kind, None);
    RunStep(s, s', run, s'.runs[run], true);
  }

  lemma FinishImplicitEvolves(s: Store, run: Id, succeeded: bool)
    requires Sound(s)
    ensures var s' := FinishImplicit(s, run, succeeded).store; Evolves(s, s', None) && Orderly(s, s')
  {
    if FinishImplicit(s, run, succeeded).store == s {
      UnchangedEvolves(s);
    } else {
      EndedEvolves(s, run, if succeeded then RunStatus.Succeeded else RunStatus.Failed, RunFinished);
    }
  }

  lemma AppendStepEvolves(s: Store, run: Id, kind: EventKind, about: Option<Id>)
    requires Sound(s) && run in s.runs
    ensures var s' := s.WithRun(run, s.runs[run].Append(kind, about)); Evolves(s, s', None) && Orderly(s, s')
  {
    var s' := s.WithRun(run, s.runs[run].Append(kind, about));
    AppendEvolves(s.runs[run], kind, about);
    RunStep(s, s', run, s'.runs[run], false);
  }

  lemma AppendEventEvolves(s: Store, run: Id, about: Option<Id>)
    requires Sound(s)
    ensures var s' := AppendEvent(s, run, about).store; Evolves(s, s', None) && Orderly(s, s')
  {
    if run in s.runs { AppendStepEvolves(s, run, Appended, about); } else { UnchangedEvolves(s); }
  }

  lemma RecordCompletionEvolves(s: Store, owner: Owner, run: Id, verified: bool, claim: Option<Claim>)
    requires Sound(s)
    ensures var s' := RecordCompletion(s, owner, run, verified, claim).store; Evolves(s, s', None) && Orderly(s, s')
  {
    if RecordCompletion(s, owner, run, verified, claim).store == s {
      UnchangedEvolves(s);
    } else if !verified {
      AppendStepEvolves(s, run, CompletionRecorded, None);
    } else {
      EndedEvolves(s, run, RunStatus.Succeeded, CompletionRecorded);
    }
  }

  lemma BlockedEvolves(s: Store, run: Id, kind: EventKind)
    requires Sound(s) && run in s.runs && s.runs[run].status.CanBecome(RunStatus.Blocked)
    ensures var s' := s.WithRun(run, s.runs[run].Become(RunStatus.Blocked).Append(kind, None));
            Evolves(s, s', None) && Orderly(s, s')
  {
    var s' := s.WithRun(run, s.runs[run].Become(RunStatus.Blocked).Append(kind, None));
    BecomeEvolves(s.runs[run], RunStatus.Blocked, kind, None);
    RunStep(s, s', run, s'.runs[run], false);
  }

  lemma BlockRunEvolves(s: Store, run: Id, claim: Option<Claim>)
    requires Sound(s)
    ensures var s' := BlockRun(s, run, claim).store; Evolves(s, s', None) && Orderly(s, s')
  {
    if BlockRun(s, run, claim).store == s { UnchangedEvolves(s); } else { BlockedEvolves(s, run, RunBlocked); }
  }

  lemma FailRunEvolves(s: Store, run: Id, claim: Option<Claim>)
    requires Sound(s)
    ensures var s' := FailRun(s, run, claim).store; Evolves(s, s', None) && Orderly(s, s')
  {
    if FailRun(s, run, claim).store == s { UnchangedEvolves(s); }
    else { EndedEvolves(s, run, RunStatus.Failed, RunFailed); }
  }

  lemma RecoverCheckpointEvolves(s: Store, owner: Owner, run: Id, incompatible: bool)
    requires Sound(s)
    ensures var s' := RecoverCheckpoint(s, owner, run, incompatible).store; Evolves(s, s', None) && Orderly(s, s')
  {
    if RecoverCheckpoint(s, owner, run, incompatible).store == s {
      UnchangedEvolves(s);
    } else if s.runs[run].status.Blocked? {
      AppendStepEvolves(s, run, RunMigrationRequired, None);
    } else {
      BlockedEvolves(s, run, RunMigrationRequired);
    }
  }

  /** A Run stops for good, or is blocked, with its reservations freed and its unsent Actions dropped. */
  lemma TerminatedRunEvolves(r: Run, next: RunStatus, kind: EventKind)
    requires r.status.CanBecome(next)
    ensures RunEvolves(r, r.(budget := r.budget.ReleaseAll()).Become(next).Append(kind, None))
  {
    var freed := r.(budget := r.budget.ReleaseAll());
    ReleaseAllEvolves(r.budget);
    BecomeEvolves(freed, next, kind, None);
  }

  lemma NotActiveOrderly(s: Store, s': Store, run: Id)
    requires run in s.runs && run in s'.runs && s'.runs == s.runs[run := s'.runs[run]]
    requires s'.jobs == RetireReady(s.jobs, run)
    requires !Active(s'.runs[run].status) && !s'.runs[run].status.Cancelled?
    ensures Orderly(s, s')
  {
  }

  lemma TerminateStep(s: Store, s': Store, run: Id, r': Run)
    requires Sound(s) && run in s.runs && RunEvolves(s.runs[run], r')
    requires !Active(r'.status) && !r'.status.Cancelled?
    requires r'.status.Terminal() ==> !s.HasNonterminalChildren(run)
    requires s' ==
        s.(runs := s.runs[run := r'], actions := SweepActions(s.actions, {run}), jobs := RetireReady(s.jobs, run))
    ensures Evolves(s, s', None) && Orderly(s, s')
  {
    hide RunsEvolve, ActionsEvolve, JobsEvolve, Orderly, LogOk, LogExtends, BudgetEvolves, StepsTo;
    NotActiveOrderly(s, s', run);
    RunsOne(s, s', run);
    ActionsSwept(s, s', {run});
    JobsRetired(s, s', run);
    SoundKept(s, s');
  }

  lemma TerminateRunEvolves(s: Store, run: Id, claim: Option<Claim>)
    requires Sound(s)
    ensures var s' := TerminateRun(s, run, claim).store; Evolves(s, s', None) && Orderly(s, s')
  {
    var s' := TerminateRun(s, run, claim).store;
    if s' == s {
      UnchangedEvolves(s);
    } else {
      var next := s'.runs[run].status;
      TerminatedRunEvolves(s.runs[run], next, if next.Blocked? then RunBlocked else RunFailed);
      TerminateStep(s, s', run, s'.runs[run]);
    }
  }
}
