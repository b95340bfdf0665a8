/** How a change of one record, or of one kind of record, evolves the tables; and the transactions on jobs. */
module EvolutionProofs {
  import opened States
  import opened Wrappers
  import opened Budgets
  import opened Records
  import opened Evolution
  import opened JobTransactions

  // ---- One record at a time ----

  lemma AppendEvolves(r: Run, kind: EventKind, about: Option<Id>)
    ensures RunEvolves(r, r.Append(kind, about))
  {
  }

  lemma BecomeEvolves(r: Run, next: RunStatus, kind: EventKind, about: Option<Id>)
    requires next == r.status || r.status.CanBecome(next)
    ensures RunEvolves(r, r.Become(next).Append(kind, about))
  {
    AppendEvolves(r.Become(next), kind, about);
  }

  // ---- Tables ----

  /** The references of the stored records are the same as before. */
  ghost predicate SameRefs(s: Store, s': Store) {
    && s'.runs.Keys == s.runs.Keys && s'.actions.Keys == s.actions.Keys && s'.slots == s.slots
    && s'.requests.Keys == s.requests.Keys
    && (forall r :: r in s.runs ==>
          s'.runs[r].owner == s.runs[r].owner && s'.runs[r].parent == s.runs[r].parent
            && s'.runs[r].depth == s.runs[r].depth)
    && (forall a :: a in s.actions ==>
          && s'.actions[a].slot == s.actions[a].slot && s'.actions[a].owner == s.actions[a].owner
          && s'.actions[a].approval == s.actions[a].approval)
    && (forall q :: q in s.requests ==>
          && s'.requests[q].run == s.requests[q].run && s'.requests[q].action == s.requests[q].action
          && (s'.requests[q].status.Pending? ==> s.requests[q].status.Pending?))
    && (forall j :: j in s'.jobs ==> s'.jobs[j].run in s'.runs)
  }

  lemma SoundKept(s: Store, s': Store)
    requires Sound(s) && SameRefs(s, s')
    ensures Sound(s')
  {
    forall r | r in s'.runs ensures ParentOk(s', r) { assert ParentOk(s, r); }
    forall a | a in s'.actions ensures ActionRefsOk(s', a) { assert ActionRefsOk(s, a); }
    forall q | q in s'.requests ensures RequestRefsOk(s', q) { assert RequestRefsOk(s, q); }
  }

  lemma RunsKept(s: Store, s': Store)
    requires s'.runs == s.runs && s.now <= s'.now
    ensures RunsEvolve(s, s')
  {
  }

  /** One Run changes; if it ends, its children have ended. */
  lemma RunsOne(s: Store, s': Store, run: Id)
    requires s'.now == s.now && run in s.runs && run in s'.runs && s'.runs == s.runs[run := s'.runs[run]]
    requires RunEvolves(s.runs[run], s'.runs[run])
    requires s'.runs[run].status.Terminal() && !s.runs[run].status.Terminal() ==> !s.HasNonterminalChildren(run)
    ensures RunsEvolve(s, s')
  {
    forall r | r in s.runs ensures RunEvolves(s.runs[r], s'.runs[r]) {
    }
  }

  /** The settled Actions of a cancelled Run stay settled when the Actions themselves do not change. */
  lemma ActionsKept(s: Store, s': Store)
    requires Sound(s) && s.runs.Keys <= s'.runs.Keys
    requires s'.actions == s.actions && s'.requests == s.requests
    ensures ActionsEvolve(s, s', None)
  {
  }

  /** One Action makes one move; it does not come back to life in a cancelled Run. */
  lemma ActionsOne(s: Store, s': Store, a: Id, cause: Option<Cause>)
    requires s.runs.Keys <= s'.runs.Keys && s'.requests == s.requests
    requires a in s.actions && a in s'.actions && s'.actions == s.actions[a := s'.actions[a]]
    requires StepsTo(a, ViewOf(s, a), ViewOf(s', a), cause)
    requires s'.actions[a].status.Settled() || !s.actions[a].status.Settled()
      || (s'.actions[a].slot.run in s'.runs && !s'.runs[s'.actions[a].slot.run].status.Cancelled?)
    ensures ActionsEvolve(s, s', cause)
  {
    forall b | b in s.actions && b != a ensures ViewOf(s', b) == ViewOf(s, b) {
    }
  }

  lemma JobsKept(s: Store, s': Store)
    requires s'.jobs == s.jobs
    ensures JobsEvolve(s, s')
  {
  }

  lemma JobsOne(s: Store, s': Store, j: Id)
    requires j in s.jobs && j in s'.jobs && s'.jobs == s.jobs[j := s'.jobs[j]]
    requires JobEvolves(s.jobs[j], s'.jobs[j], s.now)
    ensures JobsEvolve(s, s')
  {
  }

  lemma JobsAdded(s: Store, s': Store, j: Id, job: Job)
    requires j !in s.jobs && s'.jobs == s.jobs[j := job] && job.status.Ready? && job.epoch == 0
    ensures JobsEvolve(s, s')
  {
  }

  lemma JobsRetired(s: Store, s': Store, run: Id)
    requires s'.jobs == RetireReady(s.jobs, run)
    ensures JobsEvolve(s, s')
  {
  }

  /** The four parts make a step. */
  lemma Assemble(s: Store, s': Store, cause: Option<Cause>)
    requires RunsEvolve(s, s') && ActionsEvolve(s, s', cause) && JobsEvolve(s, s') && Sound(s')
    ensures Evolves(s, s', cause)
  {
    hide RunsEvolve, ActionsEvolve, JobsEvolve, Sound;
  }

  lemma UnchangedEvolves(s: Store)
    requires Sound(s)
    ensures Evolves(s, s, None) && Orderly(s, s)
  {
    RunsKept(s, s);
    ActionsKept(s, s);
    JobsKept(s, s);
  }

  /** No change needs no cause. */
  lemma UnchangedFor(s: Store, cause: Option<Cause>)
    requires Sound(s)
    ensures Evolves(s, s, cause) && Orderly(s, s)
  {
    UnchangedEvolves(s);
  }

  /** Only one job changes. */
  lemma JobStepEvolves(s: Store, j: Id, job: Job)
    requires Sound(s) && j in s.jobs && JobEvolves(s.jobs[j], job, s.now)
    ensures Evolves(s, s.WithJob(j, job), None)
  {
    hide RunsEvolve, ActionsEvolve, JobsEvolve;
    var s' := s.WithJob(j, job);
    RunsKept(s, s');
    ActionsKept(s, s');
    JobsOne(s, s', j);
    SoundKept(s, s');
  }

  lemma JobStepOrderly(s: Store, j: Id, job: Job)
    requires j in s.jobs && job.run == s.jobs[j].run && (job.status.Done? ==> s.jobs[j].status.Done?)
    ensures Orderly(s, s.WithJob(j, job))
  {
  }

  /** The status of a Run stays, starts, or is none that workers wait on. */
  predicate StatusOrderly(r: Run, r': Run) {
    r'.status == r.status || (r.status.Queued? && r'.status.Running?) || !Active(r'.status)
  }

  /** One Run changes, and wake-ups of it may be retired. */
  lemma RunStepEvolves(s: Store, s': Store, run: Id, r': Run, retired: bool)
    requires Sound(s) && run in s.runs
    requires s' == s.(runs := s.runs[run := r'], jobs := if retired then RetireReady(s.jobs, run) else s.jobs)
    requires RunEvolves(s.runs[run], r')
    requires r'.status.Terminal() && !s.runs[run].status.Terminal() ==> !s.HasNonterminalChildren(run)
    ensures Evolves(s, s', None)
  {
    hide RunsEvolve, ActionsEvolve, JobsEvolve, LogOk, LogExtends, BudgetEvolves, StepsTo;
    RunsOne(s, s', run);
    ActionsKept(s, s');
    if retired { JobsRetired(s, s', run); } else { JobsKept(s, s'); }
    SoundKept(s, s');
  }

  lemma RunStepOrderly(s: Store, s': Store, run: Id, r': Run, retired: bool)
    requires run in s.runs
    requires s' == s.(runs := s.runs[run := r'], jobs := if retired then RetireReady(s.jobs, run) else s.jobs)
    requires StatusOrderly(s.runs[run], r') && (retired ==> !Active(r'.status))
    requires r'.status.Cancelled? ==> s.runs[run].status.Cancelled? || !s.HasUnresolvedActions(run)
    ensures Orderly(s, s')
  {
  }

  /** One Action makes a move, and its Run may change with it. */
  lemma ActionStepEvolves(s: Store, s': Store, a: Id, a': Action, r': Run, cause: Option<Cause>)
    requires Sound(s) && a in s.actions && s.actions[a].slot.run in s.runs
    requires s' == s.(runs := s.runs[s.actions[a].slot.run := r'], actions := s.actions[a := a'])
    requires a'.slot == s.actions[a].slot && a'.owner == s.actions[a].owner && a'.approval == s.actions[a].approval
    requires StepsTo(a, ViewOf(s, a), ViewOf(s', a), cause)
    requires a'.status.Settled() || !s.actions[a].status.Settled() || !r'.status.Cancelled?
    requires RunEvolves(s.runs[a'.slot.run], r')
    requires r'.status.Terminal() && !s.runs[a'.slot.run].status.Terminal() ==> !s.HasNonterminalChildren(a'.slot.run)
    ensures Evolves(s, s', cause)
  {
    hide RunsEvolve, ActionsEvolve, JobsEvolve, LogOk, LogExtends, BudgetEvolves, StepsTo;
    RunsOne(s, s', a'.slot.run);
    ActionsOne(s, s', a, cause);
    JobsKept(s, s');
    SoundKept(s, s');
  }

  lemma ActionStepOrderly(s: Store, s': Store, a: Id, a': Action, r': Run)
    requires a in s.actions && s.actions[a].slot.run in s.runs
    requires s' == s.(runs := s.runs[s.actions[a].slot.run := r'], actions := s.actions[a := a'])
    requires StatusOrderly(s.runs[s.actions[a].slot.run], r')
    requires r'.status.Cancelled? ==>
               s.runs[s.actions[a].slot.run].status.Cancelled? || !s'.HasUnresolvedActions(s.actions[a].slot.run)
    ensures Orderly(s, s')
  {
  }

  /** One Run changes in an orderly way. */
  lemma RunStep(s: Store, s': Store, run: Id, r': Run, retired: bool)
    requires Sound(s) && run in s.runs
    requires s' == s.(runs := s.runs[run := r'], jobs := if retired then RetireReady(s.jobs, run) else s.jobs)
    requires RunEvolves(s.runs[run], r')
    requires r'.status.Terminal() && !s.runs[run].status.Terminal() ==> !s.HasNonterminalChildren(run)
    requires StatusOrderly(s.runs[run], r') && (retired ==> !Active(r'.status))
    requires r'.status.Cancelled? ==> s.runs[run].status.Cancelled? || !s.HasUnresolvedActions(run)
    ensures Evolves(s, s', None) && Orderly(s, s')
  {
    RunStepEvolves(s, s', run, r', retired);
    RunStepOrderly(s, s', run, r', retired);
  }

  // ---- Jobs ----

  lemma TickEvolves(s: Store, seconds: nat)
    requires Sound(s)
    ensures Evolves(s, s.(now := s.now + seconds), None) && Orderly(s, s.(now := s.now + seconds))
  {
    hide RunsEvolve, ActionsEvolve, JobsEvolve;
    var s' := s.(now := s.now + seconds);
    RunsKept(s, s');
    ActionsKept(s, s');
    JobsKept(s, s');
    SoundKept(s, s');
  }

  lemma ClaimJobEvolves(s: Store, worker: nat, lease: nat, kind: Option<JobKind>, pick: Id)
    requires Sound(s)
    ensures var s' := ClaimJob(s, worker, lease, kind, pick).store; Evolves(s, s', None) && Orderly(s, s')
  {
    var s' := ClaimJob(s, worker, lease, kind, pick).store;
    if s' == s { UnchangedEvolves(s); }
    else { JobStepEvolves(s, pick, s'.jobs[pick]); JobStepOrderly(s, pick, s'.jobs[pick]); }
  }

  lemma RenewLeaseEvolves(s: Store, claim: Claim, lease: nat)
    requires Sound(s)
    ensures var s' := RenewLease(s, claim, lease).store; Evolves(s, s', None) && Orderly(s, s')
  {
    var s' := RenewLease(s, claim, lease).store;
    if s' == s { UnchangedEvolves(s); }
    else { JobStepEvolves(s, claim.job, s'.jobs[claim.job]); JobStepOrderly(s, claim.job, s'.jobs[claim.job]); }
  }

  lemma CompleteJobEvolves(s: Store, claim: Claim)
    requires Sound(s)
    ensures Evolves(s, CompleteJob(s, claim).store, None)
  {
    var s' := CompleteJob(s, claim).store;
    if s' == s { UnchangedEvolves(s); } else { JobStepEvolves(s, claim.job, s'.jobs[claim.job]); }
  }

  lemma DeferJobEvolves(s: Store, claim: Claim, delay: nat)
    requires Sound(s)
    ensures var s' := DeferJob(s, claim, delay).store; Evolves(s, s', None) && Orderly(s, s')
  {
    var s' := DeferJob(s, claim, delay).store;
    if s' == s { UnchangedEvolves(s); }
    else { JobStepEvolves(s, claim.job, s'.jobs[claim.job]); JobStepOrderly(s, claim.job, s'.jobs[claim.job]); }
  }
}
