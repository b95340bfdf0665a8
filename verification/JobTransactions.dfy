/** Leases on durable jobs: claim, renew, complete, defer. Lease time is the database clock. */
module JobTransactions {
  import opened Wrappers
  import opened Records

  predicate Claimable(s: Store, job: Id, kind: Option<JobKind>) {
    && job in s.jobs
    && (|| s.jobs[job].status.Ready?
        || (s.jobs[job].status.Leased? && s.jobs[job].leaseUntil.Some? && s.jobs[job].leaseUntil.value < s.now))
    && s.jobs[job].dueAt <= s.now
    && (kind.Some? ==> s.jobs[job].kind == kind.value)
  }

  function Claimed(j: Job, worker: nat, until: nat): Job {
    j.(status := JobStatus.Leased, owner := Some(worker), leaseUntil := Some(until),
       epoch := j.epoch + 1, attempts := j.attempts + 1)
  }

  /** Claim one claimable job; which of them, the caller's query order and skipped locks decide. */
  function ClaimJob(s: Store, worker: nat, leaseSeconds: nat, kind: Option<JobKind>, pick: Id): Commit<Option<Claim>> {
    if leaseSeconds == 0 then Abort(s, InvalidArgument)
    else if !Claimable(s, pick, kind) then Commit(s, Ok(None))
    else
      var job := Claimed(s.jobs[pick], worker, s.now + leaseSeconds);
      Commit(s.WithJob(pick, job), Ok(Some(Claim(pick, job.kind, job.run, job.action, job.epoch, worker))))
  }

  function RenewLease(s: Store, claim: Claim, leaseSeconds: nat): Commit<()> {
    if leaseSeconds == 0 then Abort(s, InvalidArgument)
    else if !s.Holds(claim) then Abort(s, LeaseLost)
    else
      Commit(s.WithJob(claim.job, s.jobs[claim.job].(leaseUntil := Some(s.now + leaseSeconds))), Ok(()))
  }

  function CompleteJob(s: Store, claim: Claim): Commit<()> {
    if !s.Holds(claim) then Abort(s, LeaseLost)
    else
      Commit(s.WithJob(claim.job, s.jobs[claim.job].(status := JobStatus.Done, owner := None, leaseUntil := None)),
             Ok(()))
  }

  function DeferJob(s: Store, claim: Claim, delaySeconds: nat): Commit<()> {
    if delaySeconds == 0 then Abort(s, InvalidArgument)
    else if !s.Holds(claim) then Abort(s, LeaseLost)
    else
      Commit(s.WithJob(claim.job, s.jobs[claim.job].(status := JobStatus.Ready, dueAt := s.now + delaySeconds,
                                                      owner := None, leaseUntil := None)), Ok(()))
  }
}
