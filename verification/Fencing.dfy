/**
 Fencing: per job, epochs only grow, one claim at most is live, and a claim that was overtaken or has
 lapsed can never again change anything.
 */
module Fencing {
  import opened Wrappers
  import opened Records
  import opened Evolution
  import opened Kernel
  import opened KernelEvolution
  import Jobs = JobTransactions

  /** The claim a transaction is made under, if it is made under one. */
  function ClaimOf(tx: Tx): Option<Claim> {
    match tx
    case RenewLease(held, _) => Some(held)
    case CompleteJob(held) => Some(held)
    case DeferJob(held, _) => Some(held)
    case FinalizeCancellation(_, _, claim) => claim
    case EnsureRunning(_, claim) => claim
    case RecordCompletion(_, _, _, claim) => claim
    case BlockRun(_, claim) => claim
    case FailRun(_, claim) => claim
    case TerminateRun(_, claim) => claim
    case AdmitAction(_, _, _, claim, _) => claim
    case BeginDispatch(_, claim, _) => claim
    case CompleteAction(_, _, _, claim) => claim
    case ReconcileLocal(_, _, _, held) => Some(held)
    case RequestClarification(_, _, _, _, claim, _) => claim
    case ReserveBudget(_, _, _, _, claim) => claim
    case SettleBudget(_, _, _, claim) => claim
    case ReleaseBudget(_, _, claim) => claim
    case BeginModelCall(_, _, _, _, claim) => claim
    case CompleteModelCall(_, _, _, claim) => claim
    case MarkModelCall(_, _, _, claim) => claim
    case _ => None
  }

  /** The claim was handed out in this state or before. */
  predicate Issued(s: Store, claim: Claim) {
    claim.job in s.jobs && claim.epoch <= s.jobs[claim.job].epoch
  }

  /** Handed out, and no longer live. */
  predicate Stale(s: Store, claim: Claim) {
    Issued(s, claim) && !s.Holds(claim)
  }

  lemma StaleJobStep(j: Job, j': Job, claim: Claim, now: nat, now': nat)
    requires JobEvolves(j, j', now) && now <= now'
    requires claim.epoch <= j.epoch && !LeaseMatches(j, claim, now)
    ensures claim.epoch <= j'.epoch && !LeaseMatches(j', claim, now')
  {
  }

  lemma StaleStep(s: Store, tx: Tx, claim: Claim)
    requires Sound(s) && Stale(s, claim)
    ensures Stale(Apply(s, tx), claim)
  {
    hide Apply, Sound, ActionsEvolve, RunEvolves, NewRun, JobEvolves, LeaseMatches;
    StepParts(s, tx);
    StaleJobStep(s.jobs[claim.job], Apply(s, tx).jobs[claim.job], claim, s.now, Apply(s, tx).now);
  }

  /** A claim that stopped being live stays that way through every later run of the kernel. */
  lemma {:induction false} StaleForever(s: Store, txs: seq<Tx>, claim: Claim)
    requires Sound(s) && Stale(s, claim)
    ensures Sound(Execute(s, txs)) && Stale(Execute(s, txs), claim)
  {
    hide Apply, Evolves, Sound, Stale;
    if txs != [] {
      var before := Execute(s, txs[..|txs| - 1]);
      StaleForever(s, txs[..|txs| - 1], claim);
      StaleStep(before, txs[|txs| - 1], claim);
      SoundStep(before, txs[|txs| - 1]);
    }
  }

  lemma SoundStep(s: Store, tx: Tx)
    requires Sound(s)
    ensures Sound(Apply(s, tx))
  {
    hide *;
    StepParts(s, tx);
  }

  predicate Unheld(s: Store, tx: Tx) {
    ClaimOf(tx).Some? && !s.Holds(ClaimOf(tx).value)
  }

  lemma UnheldJob(s: Store, tx: Tx)
    requires OnJob(tx) && Unheld(s, tx)
    ensures ApplyJob(s, tx) == s
  {
    hide LeaseMatches;
  }

  lemma UnheldRun(s: Store, tx: Tx)
    requires OnRun(tx) && Unheld(s, tx)
    ensures ApplyRun(s, tx) == s
  {
    hide LeaseMatches;
  }

  lemma UnheldRunEnd(s: Store, tx: Tx)
    requires OnRunEnd(tx) && Unheld(s, tx)
    ensures ApplyRunEnd(s, tx) == s
  {
    hide LeaseMatches;
  }

  lemma UnheldAction(s: Store, tx: Tx)
    requires OnAction(tx) && Unheld(s, tx)
    ensures ApplyAction(s, tx) == s
  {
    hide LeaseMatches;
  }

  lemma UnheldInput(s: Store, tx: Tx)
    requires OnInput(tx) && Unheld(s, tx)
    ensures ApplyInput(s, tx) == s
  {
    hide LeaseMatches, Acts.ReconcileAction, Inputs.RequestApproval, Inputs.Respond;
  }

  lemma UnheldAccount(s: Store, tx: Tx)
    requires OnAccount(tx) && Unheld(s, tx)
    ensures ApplyAccount(s, tx) == s
  {
    hide LeaseMatches;
  }

  /** A transaction made under a claim that is not live leaves the store as it was. */
  lemma UnheldClaimChangesNothing(s: Store, tx: Tx)
    requires ClaimOf(tx).Some? && !s.Holds(ClaimOf(tx).value)
    ensures Apply(s, tx) == s
  {
    hide ApplyJob, ApplyRun, ApplyRunEnd, ApplyAction, ApplyInput, ApplyAccount, LeaseMatches;
    if OnRun(tx) { UnheldRun(s, tx); }
    else if OnRunEnd(tx) { UnheldRunEnd(s, tx); }
    else if OnAction(tx) { UnheldAction(s, tx); }
    else if OnInput(tx) { UnheldInput(s, tx); }
    else if OnAccount(tx) { UnheldAccount(s, tx); }
    else { UnheldJob(s, tx); }
  }

  /** A claim takes the next epoch, is live at once, and makes every claim of that job handed out before it stale. */
  lemma ClaimTakesNextEpoch(s: Store, worker: nat, leaseSeconds: nat, kind: Option<JobKind>, pick: Id)
    ensures var c := Jobs.ClaimJob(s, worker, leaseSeconds, kind, pick);
      c.result.Ok? && c.result.value.Some? ==>
        var claim := c.result.value.value;
        && claim.job == pick && pick in s.jobs && claim.epoch == s.jobs[pick].epoch + 1 && claim.worker == worker
        && c.store.Holds(claim) && Issued(c.store, claim)
        && (forall earlier: Claim :: earlier.job == pick && Issued(s, earlier) ==> Stale(c.store, earlier))
        && (forall other: Claim :: other.job == pick && c.store.Holds(other) ==>
              other.epoch == claim.epoch && other.worker == claim.worker)
  {
  }

  lemma {:induction false} IssuedForever(s: Store, txs: seq<Tx>, claim: Claim)
    requires Sound(s) && Issued(s, claim)
    ensures Sound(Execute(s, txs)) && Issued(Execute(s, txs), claim)
  {
    hide Apply, Evolves, Sound, Orderly;
    if txs != [] {
      var before, tx := Execute(s, txs[..|txs| - 1]), txs[|txs| - 1];
      IssuedForever(s, txs[..|txs| - 1], claim);
      SoundStep(before, tx);
      IssuedStep(before, tx, claim);
    }
  }

  lemma IssuedStep(s: Store, tx: Tx, claim: Claim)
    requires Sound(s) && Issued(s, claim)
    ensures Issued(Apply(s, tx), claim)
  {
    hide Apply, Sound, ActionsEvolve, RunsEvolve;
    StepParts(s, tx);
  }

  /**
   Fencing. Once a later claim of the same job is taken, an older one loses for good: however the kernel
   goes on, it is never live again, no transaction made under it changes the store, and claims of that
   job get ever larger epochs.
   */
  lemma OvertakenClaimIsFenced(s: Store, earlier: Claim, worker: nat, leaseSeconds: nat, kind: Option<JobKind>,
                               txs: seq<Tx>, tx: Tx)
    requires Sound(s) && Issued(s, earlier)
    requires var c := Jobs.ClaimJob(s, worker, leaseSeconds, kind, earlier.job); c.result.Ok? && c.result.value.Some?
    ensures var taken := Jobs.ClaimJob(s, worker, leaseSeconds, kind, earlier.job);
            var later := Execute(taken.store, txs);
            && taken.result.value.value.epoch > earlier.epoch
            && !later.Holds(earlier)
            && (ClaimOf(tx) == Some(earlier) ==> Apply(later, tx) == later)
            && forall w, l, k :: var again := Jobs.ClaimJob(later, w, l, k, earlier.job);
                 again.result.Ok? && again.result.value.Some? ==>
                   again.result.value.value.epoch > taken.result.value.value.epoch
  {
    var claimed := Jobs.ClaimJob(s, worker, leaseSeconds, kind, earlier.job);
    var later := Execute(claimed.store, txs);
    ClaimTakesNextEpoch(s, worker, leaseSeconds, kind, earlier.job);
    assert claimed.store == Apply(s, Tx.ClaimJob(worker, leaseSeconds, kind, earlier.job));
    SoundStep(s, Tx.ClaimJob(worker, leaseSeconds, kind, earlier.job));
    hide Apply, Sound;
    StaleForever(claimed.store, txs, earlier);
    IssuedForever(claimed.store, txs, claimed.result.value.value);
    if ClaimOf(tx) == Some(earlier) { UnheldClaimChangesNothing(later, tx); }
    forall w, l, k |
      var again := Jobs.ClaimJob(later, w, l, k, earlier.job);
      again.result.Ok? && again.result.value.Some?
      ensures Jobs.ClaimJob(later, w, l, k, earlier.job).result.value.value.epoch > claimed.result.value.value.epoch
    {
      ClaimTakesNextEpoch(later, w, l, k, earlier.job);
    }
  }

  /** A lapsed lease is lost the same way, even when nobody else takes the job. */
  lemma LapsedClaimIsFenced(s: Store, claim: Claim, txs: seq<Tx>, tx: Tx)
    requires Sound(s) && claim.job in s.jobs && s.jobs[claim.job].epoch == claim.epoch
    requires s.jobs[claim.job].leaseUntil.Some? ==> s.jobs[claim.job].leaseUntil.value < s.now
    requires ClaimOf(tx) == Some(claim)
    ensures Apply(Execute(s, txs), tx) == Execute(s, txs)
  {
    StaleForever(s, txs, claim);
    UnheldClaimChangesNothing(Execute(s, txs), tx);
  }
}
