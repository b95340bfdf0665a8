/**
 No lost wake-up. Any number of workers claim advance jobs, look at a Run's status, act, and then
 complete or defer the job on the strength of a status that may be out of date. Each may stop for good
 between any two steps, and a stopped one may go on after its lease is gone.
 */
module Wakeups {
  import opened Wrappers
  import opened Records
  import opened Evolution
  import opened Kernel
  import opened KernelEvolution
  import opened Fencing
  import Jobs = JobTransactions
  import Runs = RunTransactions

  /** How far a worker has come with its claim; `Leaving` is the decision it can no longer change. */
  datatype Phase = Claimed | Ensuring | InTurn | Failing | Leaving(complete: bool) | Gone

  datatype Session = Session(claim: Claim, phase: Phase)

  datatype System = System(store: Store, sessions: seq<Session>)
  {
    function Enter(i: nat, phase: Phase): System
      requires i < |sessions|
    {
      this.(sessions := sessions[i := sessions[i].(phase := phase)])
    }
  }

  datatype Step =
    | Environment(tx: Tx)                                      // anybody's transaction
    | Take(worker: nat, leaseSeconds: nat, pick: Id)           // claim an advance job
    | Look(i: nat)                                             // read the Run's status
    | Ensure(i: nat)                                           // start a queued Run
    | PutOff(i: nat)                                           // provider or identity unavailable
    | Fail(i: nat)                                             // any other error
    | Block(i: nat)                                            // block the Run after an error
    | Terminate(i: nat)                                        // the budget is exhausted
    | Finish(i: nat, delaySeconds: nat)                        // complete or defer the job

  /** Advance jobs are completed only by workers, and the generic transition is not used. */
  predicate Allowed(sys: System, step: Step) {
    step.Environment? ==>
      && !step.tx.TransitionRun?
      && (step.tx.CompleteJob? && step.tx.held.job in sys.store.jobs ==>
          !sys.store.jobs[step.tx.held.job].kind.AdvanceRun?)
  }

  ghost function Next(sys: System, step: Step): System {
    match step
    case Environment(tx) => sys.(store := Apply(sys.store, tx))
    case Take(worker, lease, pick) =>
      var c := Jobs.ClaimJob(sys.store, worker, lease, Some(AdvanceRun), pick);
      if c.result.Ok? && c.result.value.Some?
      then System(c.store, sys.sessions + [Session(c.result.value.value, Claimed)]) else sys
    case _ => if step.i < |sys.sessions| then Move(sys, step, step.i) else sys
  }

  /** One step of worker `i`. */
  ghost function Move(sys: System, step: Step, i: nat): System
    requires i < |sys.sessions| && !step.Environment? && !step.Take?
  {
    var s, claim, phase := sys.store, sys.sessions[i].claim, sys.sessions[i].phase;
    var working := phase.Claimed? || phase.Ensuring? || phase.InTurn?;
    match step
    case Look(_) =>
      if claim.run !in s.runs then sys
      else
        var status := s.runs[claim.run].status;
        if phase.Claimed? then
          sys.Enter(i, if status.Queued? then Ensuring else if status.Running? then InTurn else Leaving(true))
        else if phase.InTurn? then sys.Enter(i, Leaving(!status.Running?))
        else sys
    case Ensure(_) =>
      if !phase.Ensuring? then sys
      else
        var c := Runs.EnsureRunning(s, claim.run, Some(claim));
        sys.(store := c.store).Enter(i, if c.result.Ok? then InTurn else Failing)
    case PutOff(_) => if working then sys.Enter(i, Leaving(false)) else sys
    case Fail(_) => if working then sys.Enter(i, Failing) else sys
    case Block(_) =>
      if !phase.Failing? then sys
      else
        var c := Runs.BlockRun(s, claim.run, Some(claim));
        sys.(store := c.store).Enter(i, if c.result.Ok? then Leaving(true) else Gone)
    case Terminate(_) =>
      if !working then sys
      else
        var c := Runs.TerminateRun(s, claim.run, Some(claim));
        sys.(store := c.store).Enter(i, if c.result.Ok? then Leaving(!c.result.value.Running?) else Gone)
    case Finish(_, delaySeconds) =>
      if !phase.Leaving? then sys
      else if phase.complete then sys.(store := Jobs.CompleteJob(s, claim).store).Enter(i, Gone)
      else sys.(store := Jobs.DeferJob(s, claim, delaySeconds).store).Enter(i, Gone)
  }

  /**
   A worker that could still finish job `j` is not about to complete it, nor (for a queued Run) in the middle
   of a turn.
   */
  predicate Harmless(s: Store, session: Session, j: Id, queued: bool) {
    session.claim.job == j && s.Holds(session.claim) ==>
      session.phase != Leaving(true) && (queued ==> session.phase != InTurn)
  }

  /** Job `j` will bring a worker back to Run `r`. */
  ghost predicate WakesLater(sys: System, r: Id, j: Id)
    requires r in sys.store.runs
  {
    && j in sys.store.jobs && sys.store.jobs[j].kind.AdvanceRun? && sys.store.jobs[j].run == r
    && !sys.store.jobs[j].status.Done?
    && forall i :: 0 <= i < |sys.sessions| ==> Harmless(sys.store, sys.sessions[i], j, sys.store.runs[r].status.Queued?)
  }

  ghost predicate SessionsOk(sys: System) {
    forall i :: 0 <= i < |sys.sessions| ==>
      && Issued(sys.store, sys.sessions[i].claim)
      && sys.sessions[i].claim.run == sys.store.jobs[sys.sessions[i].claim.job].run
      && sys.store.jobs[sys.sessions[i].claim.job].kind.AdvanceRun?
  }

  ghost predicate NobodyStranded(sys: System) {
    forall r :: r in sys.store.runs && Active(sys.store.runs[r].status) ==> exists j :: WakesLater(sys, r, j)
  }

  ghost predicate SystemOk(sys: System) {
    Sound(sys.store) && SessionsOk(sys) && NobodyStranded(sys)
  }

  // ---- Transactions beside the workers ----

  lemma SessionsKept(sys: System, tx: Tx)
    requires Sound(sys.store) && SessionsOk(sys)
    ensures SessionsOk(sys.(store := Apply(sys.store, tx)))
    ensures forall i :: 0 <= i < |sys.sessions| && !sys.store.Holds(sys.sessions[i].claim)
              ==> !Apply(sys.store, tx).Holds(sys.sessions[i].claim)
  {
    hide Apply, Sound, RunsEvolve, ActionsEvolve, LeaseMatches;
    StepParts(sys.store, tx);
    forall i | 0 <= i < |sys.sessions| && !sys.store.Holds(sys.sessions[i].claim)
      ensures !Apply(sys.store, tx).Holds(sys.sessions[i].claim)
    {
      StaleStep(sys.store, tx, sys.sessions[i].claim);
    }
  }

  /** An orderly change of the store, with no session doing anything. */
  lemma WakeKept(sys: System, s': Store, r: Id)
    requires SessionsOk(sys) && NobodyStranded(sys) && WakesOrderly(sys.store, s') && JobsEvolve(sys.store, s')
    requires r in s'.runs && Active(s'.runs[r].status)
    requires forall i :: 0 <= i < |sys.sessions| && !sys.store.Holds(sys.sessions[i].claim) ==>
               !s'.Holds(sys.sessions[i].claim)
    ensures exists j :: WakesLater(sys.(store := s'), r, j)
  {
    hide LeaseMatches;
    var s := sys.store;
    if r in s.runs
      && (s.runs[r].status == s'.runs[r].status || (s.runs[r].status.Queued? && s'.runs[r].status.Running?)) {
      var j :| WakesLater(sys, r, j);
      assert JobEvolves(s.jobs[j], s'.jobs[j], s.now);
      forall i | 0 <= i < |sys.sessions| ensures Harmless(s', sys.sessions[i], j, s'.runs[r].status.Queued?) {
        assert Harmless(s, sys.sessions[i], j, s.runs[r].status.Queued?);
      }
      assert WakesLater(sys.(store := s'), r, j);
    } else {
      var j :| WakesUp(s, s', r, j);
      assert WakesLater(sys.(store := s'), r, j);
    }
  }

  lemma OrderlyTx(s: Store, tx: Tx)
    requires Sound(s) && Plain(tx)
    ensures WakesOrderly(s, Apply(s, tx)) && JobsEvolve(s, Apply(s, tx)) && Sound(Apply(s, tx))
  {
    hide Apply, Sound, RunsEvolve, ActionsEvolve, CancelsSettled, WakesOrderly, JobsEvolve;
    StepEvolves(s, tx);
  }

  lemma PlainKeeps(sys: System, tx: Tx)
    requires SystemOk(sys) && Plain(tx)
    ensures SystemOk(sys.(store := Apply(sys.store, tx)))
  {
    hide Apply, Sound, SessionsOk, NobodyStranded, WakesOrderly, JobsEvolve;
    OrderlyTx(sys.store, tx);
    SessionsKept(sys, tx);
    StrandedByNone(sys, Apply(sys.store, tx));
  }

  lemma StrandedByNone(sys: System, s': Store)
    requires SessionsOk(sys) && NobodyStranded(sys) && WakesOrderly(sys.store, s') && JobsEvolve(sys.store, s')
    requires forall i :: 0 <= i < |sys.sessions| && !sys.store.Holds(sys.sessions[i].claim) ==>
               !s'.Holds(sys.sessions[i].claim)
    ensures NobodyStranded(sys.(store := s'))
  {
    hide SessionsOk, WakesOrderly, JobsEvolve, WakesLater, LeaseMatches;
    forall r | r in s'.runs && Active(s'.runs[r].status) ensures exists j :: WakesLater(sys.(store := s'), r, j) {
      WakeKept(sys, s', r);
    }
  }

  /** Completing a job hurts nobody when no active Run relies on it. */
  lemma CompletionKeeps(sys: System, claim: Claim)
    requires SystemOk(sys)
    requires claim.job in sys.store.jobs && sys.store.Holds(claim) ==>
               || !sys.store.jobs[claim.job].kind.AdvanceRun?
               || exists i :: 0 <= i < |sys.sessions| && sys.sessions[i] == Session(claim, Leaving(true))
    ensures SystemOk(sys.(store := Jobs.CompleteJob(sys.store, claim).store))
  {
    hide Sound, LeaseMatches;
    var s, tx := sys.store, Tx.CompleteJob(claim);
    var s' := Apply(s, tx);
    assert s' == Jobs.CompleteJob(s, claim).store;
    SoundStep(s, tx);
    SessionsKept(sys, tx);
    forall r | r in s'.runs && Active(s'.runs[r].status) ensures exists j :: WakesLater(sys.(store := s'), r, j) {
      var j :| WakesLater(sys, r, j);
      forall i | 0 <= i < |sys.sessions| ensures Harmless(s', sys.sessions[i], j, s'.runs[r].status.Queued?) {
        assert Harmless(s, sys.sessions[i], j, s.runs[r].status.Queued?);
      }
      assert s.Holds(claim) ==> j != claim.job;
      assert WakesLater(sys.(store := s'), r, j);
    }
  }

  // ---- The workers ----

  /** When a worker may enter a phase: what it decides on must have been true at some moment since it got its claim. */
  predicate Justified(s: Store, session: Session, phase: Phase) {
    var run := session.claim.run;
    && (phase == Leaving(true) && run in s.runs && Active(s.runs[run].status) ==>
          s.runs[run].status.Queued? && session.phase.InTurn?)
    && (phase.InTurn? && run in s.runs ==> !s.runs[run].status.Queued? || session.phase.InTurn?)
  }

  lemma EnterKeeps(sys: System, i: nat, phase: Phase)
    requires SystemOk(sys) && i < |sys.sessions| && Justified(sys.store, sys.sessions[i], phase)
    ensures SystemOk(sys.Enter(i, phase))
  {
    hide Sound, LeaseMatches;
    var s, sys' := sys.store, sys.Enter(i, phase);
    forall r | r in s.runs && Active(s.runs[r].status) ensures exists j :: WakesLater(sys', r, j) {
      var j :| WakesLater(sys, r, j);
      forall k | 0 <= k < |sys'.sessions| ensures Harmless(s, sys'.sessions[k], j, s.runs[r].status.Queued?) {
        assert Harmless(s, sys.sessions[k], j, s.runs[r].status.Queued?);
      }
      assert WakesLater(sys', r, j);
    }
  }

  lemma TakeKeeps(sys: System, worker: nat, lease: nat, pick: Id)
    requires SystemOk(sys)
    ensures SystemOk(Next(sys, Take(worker, lease, pick)))
  {
    hide Sound, LeaseMatches, Apply;
    var c := Jobs.ClaimJob(sys.store, worker, lease, Some(AdvanceRun), pick);
    var sys' := Next(sys, Take(worker, lease, pick));
    if sys' != sys {
      var mid := sys.(store := c.store);
      assert SystemOk(mid) by {
        ClaimIsStep(sys.store, worker, lease, pick);
        PlainKeeps(sys, Tx.ClaimJob(worker, lease, Some(AdvanceRun), pick));
      }
      forall r | r in mid.store.runs && Active(mid.store.runs[r].status) ensures exists j :: WakesLater(sys', r, j) {
        var j :| WakesLater(mid, r, j);
        forall k | 0 <= k < |sys'.sessions|
          ensures Harmless(mid.store, sys'.sessions[k], j, mid.store.runs[r].status.Queued?)
        {
          assert k < |mid.sessions| ==> Harmless(mid.store, mid.sessions[k], j, mid.store.runs[r].status.Queued?);
        }
        assert WakesLater(sys', r, j);
      }
    }
  }

  lemma ClaimIsStep(s: Store, worker: nat, lease: nat, pick: Id)
    ensures Jobs.ClaimJob(s, worker, lease, Some(AdvanceRun), pick).store ==
              Apply(s, Tx.ClaimJob(worker, lease, Some(AdvanceRun), pick))
  {
  }

  /** A worker's transaction on its Run, and the phase it leads to. */
  lemma ActKeeps(sys: System, i: nat, tx: Tx, s': Store, phase: Phase)
    requires SystemOk(sys) && i < |sys.sessions| && Plain(tx) && s' == Apply(sys.store, tx)
    requires Justified(s', sys.sessions[i], phase)
    ensures SystemOk(sys.(store := s').Enter(i, phase))
  {
    hide Apply, SystemOk, Justified;
    PlainKeeps(sys, tx);
    EnterKeeps(sys.(store := s'), i, phase);
  }

  lemma EnsureKeeps(sys: System, i: nat)
    requires SystemOk(sys) && i < |sys.sessions|
    ensures SystemOk(Move(sys, Ensure(i), i))
  {
    hide SystemOk, Store.Fence;
    var claim := sys.sessions[i].claim;
    var c := Runs.EnsureRunning(sys.store, claim.run, Some(claim));
    if sys.sessions[i].phase.Ensuring? {
      ActKeeps(sys, i, EnsureRunning(claim.run, Some(claim)), c.store, if c.result.Ok? then InTurn else Failing);
    }
  }

  lemma BlockKeeps(sys: System, i: nat)
    requires SystemOk(sys) && i < |sys.sessions|
    ensures SystemOk(Move(sys, Block(i), i))
  {
    hide SystemOk, Store.Fence;
    var claim := sys.sessions[i].claim;
    var c := Runs.BlockRun(sys.store, claim.run, Some(claim));
    if sys.sessions[i].phase.Failing? {
      ActKeeps(sys, i, BlockRun(claim.run, Some(claim)), c.store, if c.result.Ok? then Leaving(true) else Gone);
    }
  }

  lemma TerminateKeeps(sys: System, i: nat)
    requires SystemOk(sys) && i < |sys.sessions|
    ensures SystemOk(Move(sys, Terminate(i), i))
  {
    hide SystemOk, Store.Fence;
    var claim, phase := sys.sessions[i].claim, sys.sessions[i].phase;
    var c := Runs.TerminateRun(sys.store, claim.run, Some(claim));
    if phase.Claimed? || phase.Ensuring? || phase.InTurn? {
      ActKeeps(sys, i, TerminateRun(claim.run, Some(claim)), c.store,
               if c.result.Ok? then Leaving(!c.result.value.Running?) else Gone);
    }
  }

  lemma FinishKeeps(sys: System, i: nat, delaySeconds: nat)
    requires SystemOk(sys) && i < |sys.sessions|
    ensures SystemOk(Move(sys, Finish(i, delaySeconds), i))
  {
    hide SystemOk, LeaseMatches;
    var claim, phase := sys.sessions[i].claim, sys.sessions[i].phase;
    if phase == Leaving(true) {
      assert sys.sessions[i] == Session(claim, Leaving(true));
      CompletionKeeps(sys, claim);
      EnterKeeps(sys.(store := Jobs.CompleteJob(sys.store, claim).store), i, Gone);
    } else if phase == Leaving(false) {
      ActKeeps(sys, i, DeferJob(claim, delaySeconds), Jobs.DeferJob(sys.store, claim, delaySeconds).store, Gone);
    }
  }

  lemma MoveKeeps(sys: System, step: Step, i: nat)
    requires SystemOk(sys) && i < |sys.sessions| && !step.Environment? && !step.Take?
    ensures SystemOk(Move(sys, step, i))
  {
    hide SystemOk, Apply;
    match step
    case Look(_) =>
      var claim, phase := sys.sessions[i].claim, sys.sessions[i].phase;
      if claim.run in sys.store.runs && (phase.Claimed? || phase.InTurn?) {
        EnterKeeps(sys, i, Move(sys, step, i).sessions[i].phase);
      }
    case Ensure(_) => EnsureKeeps(sys, i);
    case PutOff(_) => EnterKeeps(sys, i, Leaving(false));
    case Fail(_) => EnterKeeps(sys, i, Failing);
    case Block(_) => BlockKeeps(sys, i);
    case Terminate(_) => TerminateKeeps(sys, i);
    case Finish(_, delaySeconds) => FinishKeeps(sys, i, delaySeconds);
  }

  lemma NextKeeps(sys: System, step: Step)
    requires SystemOk(sys) && Allowed(sys, step)
    ensures SystemOk(Next(sys, step))
  {
    hide SystemOk, Apply, Move;
    match step
    case Environment(tx) =>
      if tx.CompleteJob? {
        CompletionIsStep(sys.store, tx.held);
        CompletionKeeps(sys, tx.held);
      } else {
        PlainKeeps(sys, tx);
      }
    case Take(worker, lease, pick) => TakeKeeps(sys, worker, lease, pick);
    case _ => if step.i < |sys.sessions| { MoveKeeps(sys, step, step.i); }
  }

  lemma CompletionIsStep(s: Store, claim: Claim)
    ensures Jobs.CompleteJob(s, claim).store == Apply(s, Tx.CompleteJob(claim))
  {
  }

  ghost function Reached(steps: seq<Step>): Option<System> {
    if steps == [] then Some(System(EMPTY_STORE, []))
    else
      var before, step := Reached(steps[..|steps| - 1]), steps[|steps| - 1];
      if before.Some? && Allowed(before.value, step) then Some(Next(before.value, step)) else None
  }

  lemma {:induction false} ReachedOk(steps: seq<Step>, sys: System)
    requires Reached(steps) == Some(sys)
    ensures SystemOk(sys)
  {
    if steps == [] {
      EmptySound();
    } else {
      hide SystemOk, Next, Allowed;
      var before := Reached(steps[..|steps| - 1]).value;
      ReachedOk(steps[..|steps| - 1], before);
      NextKeeps(before, steps[|steps| - 1]);
    }
  }

  /**
   No lost wake-up: in every state that any interleaving of workers, crashes, zombies and other
   transactions can reach, a queued or running Run has an unfinished advance job that no worker with a
   live claim is about to complete.
   */
  lemma ActiveRunsAreWoken(steps: seq<Step>, sys: System, r: Id)
    requires Reached(steps) == Some(sys) && r in sys.store.runs
    requires sys.store.runs[r].status.Queued? || sys.store.runs[r].status.Running?
    ensures exists j :: j in sys.store.jobs && sys.store.jobs[j].kind.AdvanceRun? && sys.store.jobs[j].run == r
              && !sys.store.jobs[j].status.Done?
              && forall i :: 0 <= i < |sys.sessions| && sys.sessions[i].claim.job == j
                          && sys.store.Holds(sys.sessions[i].claim)
                   ==> sys.sessions[i].phase != Leaving(true)
  {
    ReachedOk(steps, sys);
    hide Sound, LeaseMatches;
    var j :| WakesLater(sys, r, j);
    assert j in sys.store.jobs;
    forall i | 0 <= i < |sys.sessions|
      ensures Harmless(sys.store, sys.sessions[i], j, sys.store.runs[r].status.Queued?) { }
  }
}
