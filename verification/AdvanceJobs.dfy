/** The worker's way through an advance job, as the steps it takes in the system of workers. */
module AdvanceJobs {
  import opened Wrappers
  import opened Records
  import opened Evolution
  import opened Wakeups
  import opened RunControllers
  import Jobs = JobTransactions

  /** How the runner's turn came out, as far as the worker acts on it. */
  datatype Turn = Went | Exhausted | Unavailable | Broken

  /** The second state is reached some steps after the first ones. */
  ghost predicate Extends(steps: seq<Step>, sys: System) {
    exists more :: Reached(steps + more) == Some(sys)
  }

  /** Wherever the first state is reached, the second is reached from it. */
  ghost predicate Leads(sys: System, sys': System) {
    forall steps :: Reached(steps) == Some(sys) ==> Extends(steps, sys')
  }

  lemma LeadsNowhere(sys: System)
    ensures Leads(sys, sys)
  {
    hide Next;
    forall steps | Reached(steps) == Some(sys) ensures Extends(steps, sys) {
      assert steps + [] == steps;
    }
  }

  lemma LeadsOn(sys: System, sys': System, step: Step)
    requires Leads(sys, sys') && Allowed(sys', step)
    ensures Leads(sys, Next(sys', step))
  {
    hide Next, Allowed;
    forall steps | Reached(steps) == Some(sys) ensures Extends(steps, Next(sys', step)) {
      assert Extends(steps, sys');
      var more :| Reached(steps + more) == Some(sys');
      var all := steps + (more + [step]);
      assert all[..|all| - 1] == steps + more && all[|all| - 1] == step;
    }
  }

  /** A worker's own step is always allowed. */
  lemma WorkerStep(sys: System, sys': System, step: Step, i: nat)
    requires Leads(sys, sys') && i < |sys'.sessions| && !step.Environment? && !step.Take? && step.i == i
    ensures Leads(sys, Move(sys', step, i))
  {
    LeadsOn(sys, sys', step);
    hide Leads, Move;
  }

  lemma TakeStep(sys: System, worker: nat, leaseSeconds: nat, pick: Id)
    ensures var c := Jobs.ClaimJob(sys.store, worker, leaseSeconds, Some(AdvanceRun), pick);
      c.result.Ok? && c.result.value.Some? ==>
        Leads(sys, System(c.store, sys.sessions + [Session(c.result.value.value, Claimed)]))
  {
    LeadsNowhere(sys);
    LeadsOn(sys, sys, Take(worker, leaseSeconds, pick));
    hide Leads, Jobs.ClaimJob;
  }

  /** The claim is live and the Run is there. */
  predicate Prepared(s: Store, claim: Claim, retrySeconds: nat, nextSeconds: nat) {
    s.Fence(Some(claim), AdvanceRun, claim.run) && claim.run in s.runs && retrySeconds > 0 && nextSeconds > 0
  }

  class AdvanceWorker {
    const controller: RunController

    constructor (controller: RunController)
      ensures this.controller == controller
    {
      this.controller := controller;
    }

    ghost function World(sessions: seq<Session>): System
      reads this, controller
    {
      System(controller.State(), sessions)
    }

    predicate HandedBack(claim: Claim, complete: bool)
      reads controller
    {
      claim.job in controller.jobs
      && (if complete then controller.jobs[claim.job].status.Done? else controller.jobs[claim.job].status.Ready?)
    }

    /** Hand the job back: for good, or to be claimed again after a delay. */
    method Finish(claim: Claim, complete: bool, delaySeconds: nat, ghost start: System, ghost sessions: seq<Session>,
                  ghost i: nat)
      returns (r: Result<()>, ghost after: seq<Session>)
      requires Leads(start, World(sessions)) && i < |sessions| && sessions[i] == Session(claim, Leaving(complete))
      modifies controller
      ensures Leads(start, World(after))
      ensures r.Ok? ==> HandedBack(claim, complete)
      ensures r.Ok? <==> old(controller.State()).Holds(claim) && (complete || delaySeconds > 0)
      ensures controller.runs == old(controller.runs)
      ensures r.Err? ==> controller.State() == old(controller.State())
    {
      hide Leads;
      after := sessions[i := Session(claim, Gone)];
      WorkerStep(start, World(sessions), Step.Finish(i, delaySeconds), i);
      if complete {
        r := controller.CompleteJob(claim);
      } else {
        r := controller.DeferJob(claim, delaySeconds);
      }
    }

    /** The Run is over budget, or the turn broke: end or block the Run, then hand the job back. */
    method GiveUp(claim: Claim, exhausted: bool, delaySeconds: nat, ghost start: System, ghost sessions: seq<Session>,
                  ghost i: nat)
      returns (r: Result<bool>, ghost after: seq<Session>)
      requires Leads(start, World(sessions)) && i < |sessions|
               && sessions[i] == Session(claim, if exhausted then InTurn else Failing)
      modifies controller
      ensures Leads(start, World(after))
      ensures r.Ok? ==> HandedBack(claim, true) && r.value && claim.run in controller.runs
      ensures r.Ok? ==>
          controller.runs[claim.run].status.Blocked? || (exhausted && controller.runs[claim.run].status.Terminal())
    {
      hide Leads;
      after := sessions;
      var complete := true;
      if exhausted {
        WorkerStep(start, World(sessions), Step.Terminate(i), i);
        var ended := controller.TerminateRun(claim.run, Some(claim));
        after := sessions[i := Session(claim, if ended.Ok? then Leaving(!ended.value.Running?) else Gone)];
        if ended.Err? { return Err(ended.error), after; }
        complete := !ended.value.Running?;
      } else {
        WorkerStep(start, World(sessions), Step.Block(i), i);
        var blocked := controller.BlockRun(claim.run, Some(claim));
        after := sessions[i := Session(claim, if blocked.Ok? then Leaving(true) else Gone)];
        if blocked.Err? { return Err(blocked.error), after; }
      }
      var done;
      done, after := Finish(claim, complete, delaySeconds, start, after, i);
      r := if done.Err? then Err(done.error) else Ok(complete);
    }

    /**
     Advance the claimed Run by one turn and hand the job back. The job is completed only if the Run was
     not running when the worker last looked (a Run that was queued again meanwhile has a new job);
     otherwise it will be claimed again. Without an error of the turn and with a live claim it always comes through.
     */
    method Advance(claim: Claim, turn: Turn, retrySeconds: nat, nextSeconds: nat,
                   ghost start: System, ghost sessions: seq<Session>, ghost i: nat)
      returns (r: Result<bool>, ghost after: seq<Session>)
      requires Leads(start, World(sessions)) && i < |sessions| && sessions[i] == Session(claim, Claimed)
      modifies controller
      ensures Leads(start, World(after))
      ensures r.Ok? ==>
                HandedBack(claim, r.value)
                && (r.value && claim.run in controller.runs ==> !controller.runs[claim.run].status.Running?)
      ensures Prepared(old(controller.State()), claim, retrySeconds, nextSeconds)
              && (turn.Unavailable? || turn.Went?) ==>
                r == Ok(!Active(old(controller.runs)[claim.run].status))
    {
      hide Leads;
      after := sessions;
      if claim.run !in controller.runs { return Err(NotFound), after; }
      WorkerStep(start, World(after), Look(i), i);
      var status := controller.runs[claim.run].status;
      if !Active(status) {
        after := after[i := Session(claim, Leaving(true))];
        var done;
        done, after := Finish(claim, true, retrySeconds, start, after, i);
        r := if done.Err? then Err(done.error) else Ok(true);
        return r, after;
      }
      after := after[i := Session(claim, if status.Queued? then Ensuring else InTurn)];
      if status.Queued? {
        WorkerStep(start, World(after), Ensure(i), i);
        var running := controller.EnsureRunning(claim.run, Some(claim));
        after := after[i := Session(claim, if running.Ok? then InTurn else Failing)];
        // Of a Run just seen queued only the lease can be lost.
        if running.Err? { return Err(running.error), after; }
      }
      r, after := Leave(claim, turn, retrySeconds, nextSeconds, start, after, i);
    }

    /** What the worker does once the turn is over, however it came out. */
    method Leave(claim: Claim, turn: Turn, retrySeconds: nat, nextSeconds: nat,
                 ghost start: System, ghost sessions: seq<Session>, ghost i: nat)
      returns (r: Result<bool>, ghost after: seq<Session>)
      requires Leads(start, World(sessions)) && i < |sessions| && sessions[i] == Session(claim, InTurn)
      modifies controller
      ensures Leads(start, World(after))
      ensures r.Ok? ==>
                HandedBack(claim, r.value)
                && (r.value && claim.run in controller.runs ==> !controller.runs[claim.run].status.Running?)
      ensures Prepared(old(controller.State()), claim, retrySeconds, nextSeconds)
              && (turn.Unavailable? || turn.Went?) ==>
                r == Ok(turn.Went? && !old(controller.runs)[claim.run].status.Running?)
    {
      hide Leads;
      after := sessions;
      match turn {
        case Exhausted =>
          r, after := GiveUp(claim, true, nextSeconds, start, after, i);
        case Broken =>
          WorkerStep(start, World(after), Step.Fail(i), i);
          after := after[i := Session(claim, Failing)];
          r, after := GiveUp(claim, false, retrySeconds, start, after, i);
        case Unavailable =>
          WorkerStep(start, World(after), PutOff(i), i);
          after := after[i := Session(claim, Leaving(false))];
          var done;
          done, after := Finish(claim, false, retrySeconds, start, after, i);
          r := if done.Err? then Err(done.error) else Ok(false);
        case Went =>
          if claim.run !in controller.runs { return Err(NotFound), after; }
          WorkerStep(start, World(after), Look(i), i);
          var complete := !controller.runs[claim.run].status.Running?;
          after := after[i := Session(claim, Leaving(complete))];
          var done;
          done, after := Finish(claim, complete, nextSeconds, start, after, i);
          r := if done.Err? then Err(done.error) else Ok(complete);
      }
    }

    /** Claim an advance job, if there is one, and see it through. */
    method RunOnce(worker: nat, leaseSeconds: nat, turn: Turn, retrySeconds: nat, nextSeconds: nat,
                   ghost sessions: seq<Session>)
      returns (r: Result<Option<bool>>, ghost after: seq<Session>)
      modifies controller
      ensures Leads(old(World(sessions)), World(after))
      ensures r == Ok(None) ==> after == sessions && controller.State() == old(controller.State())
      ensures r == Ok(None) ==> forall j :: !Jobs.Claimable(controller.State(), j, Some(AdvanceRun))
    {
      ghost var start := World(sessions);
      LeadsNowhere(start);
      hide Leads;
      after := sessions;
      var claimed, pick := controller.ClaimJob(worker, leaseSeconds, Some(AdvanceRun));
      if claimed.Err? { return Err(claimed.error), after; }
      if claimed.value.None? { return Ok(None), after; }
      TakeStep(start, worker, leaseSeconds, pick);
      var claim := claimed.value.value;
      after := sessions + [Session(claim, Claimed)];
      var done;
      done, after := Advance(claim, turn, retrySeconds, nextSeconds, start, after, |sessions|);
      r := if done.Err? then Err(done.error) else Ok(Some(done.value));
    }
  }
}
