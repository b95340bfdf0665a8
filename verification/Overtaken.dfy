/**
 A history in which an Action is recorded as failed, its own write having been refused, and the write of the
 attempt it overtook is carried out afterwards.
 */
module Overtaken {
  import opened States
  import opened Wrappers
  import opened Budgets
  import opened Paths
  import opened Vaults
  import opened Records
  import opened ActionProtocol
  import opened Kernel
  import opened Ledgers
  import opened LocalEffects
  import opened FailedEffects
  import Acts = ActionTransactions

  const USER := Owner(0, 0)
  const LIMITS := Limits(None, None, None, None)
  /** The Action asks to replace a revision of the file that nobody has written yet. */
  const GUESSED := WriteFile("w", "f", [], Some(Strong(Sha256([]), 1)), None)
  const ASKED := Request(0, WorkspaceFileWrite, 0, LocalTransactional, Some(GUESSED))
  const FIRST := Claim(1, AdvanceRun, 1, None, 1, 5)
  const SECOND := Claim(1, AdvanceRun, 1, None, 2, 6)

  function JobAt(epoch: nat, worker: nat, until: nat): Job {
    Job(AdvanceRun, 1, None, JobStatus.Leased, 0, Some(worker), Some(until), epoch, epoch)
  }

  /** One Run with one job, and nothing in the resource tables. */
  predicate Stage(sys: System, now: nat, status: RunStatus, job: Job) {
    var s := sys.store;
    && s.now == now && s.runs.Keys == {1} && s.runs[1].owner == USER && s.runs[1].status == status
    && s.jobs == map[1 := job] && s.requests == map[] && sys.vault == EMPTY_VAULT
  }

  predicate Empty(sys: System) {
    sys.store.actions == map[] && sys.store.slots == map[] && sys.calls == []
  }

  /** The Action under its key, its latest attempt in this state. */
  predicate Asked(s: Store, status: ActionStatus, epoch: nat) {
    && 10 in s.actions && s.actions[10].owner == USER && s.actions[10].slot == Slot(1, 0, 0)
    && s.actions[10].request == ASKED
    && s.actions[10].status == status && s.actions[10].approval.None?
    && (status.Running? ==> s.actions[10].leaseEpoch == epoch && s.actions[10].key == Some(ActionKey(10))
                            && LatestIs(s.actions[10].attempts, AttemptStatus.Started))
  }

  lemma Go(steps: seq<Step>, step: Step) returns (more: seq<Step>)
    requires Reached(steps).Some? && Allowed(Reached(steps).value, step)
    ensures more == steps + [step] && Reached(more) == Some(Next(Reached(steps).value, step))
  {
    hide Allowed, Next;
    more := steps + [step];
    assert more[..|more| - 1] == steps;
  }

  lemma Admit(sys: System)
    requires sys == System(EMPTY_STORE, EMPTY_VAULT, [])
    ensures var sys' := Next(sys, Transact(Tx.AdmitRun(USER, 0, 0, LIMITS, None, 1, 1)));
      Stage(sys', 0, RunStatus.Queued, NewJob(AdvanceRun, 1, None, 0)) && Empty(sys')
  {
    hide ApplyRunEnd, ApplyAction, ApplyInput, ApplyAccount, ApplyJob;
  }

  lemma Start(sys: System)
    requires Stage(sys, 0, RunStatus.Queued, NewJob(AdvanceRun, 1, None, 0)) && Empty(sys)
    ensures var sys' := Next(sys, Transact(Tx.EnsureRunning(1, None)));
      Stage(sys', 0, RunStatus.Running, NewJob(AdvanceRun, 1, None, 0)) && Empty(sys')
  {
    hide ApplyRunEnd, ApplyAction, ApplyInput, ApplyAccount, ApplyJob;
  }

  lemma Propose(sys: System)
    requires Stage(sys, 0, RunStatus.Running, NewJob(AdvanceRun, 1, None, 0)) && Empty(sys)
    ensures var sys' := Next(sys, Transact(Tx.AdmitAction(USER, Slot(1, 0, 0), ASKED, None, 10)));
      && Stage(sys', 0, RunStatus.Running, NewJob(AdvanceRun, 1, None, 0)) && Asked(sys'.store, ActionStatus.Ready, 0)
      && sys'.store.actions[10].attempts == [] && sys'.calls == []
  {
    hide ApplyRunEnd, ApplyAction, ApplyRun, ApplyAccount, ApplyJob;
  }

  lemma TakeJob(sys: System)
    requires Stage(sys, 0, RunStatus.Running, NewJob(AdvanceRun, 1, None, 0))
    ensures var sys' := Next(sys, Transact(Tx.ClaimJob(5, 1, None, 1)));
      Stage(sys', 0, RunStatus.Running, JobAt(1, 5, 1)) && sys'.store.actions == sys.store.actions
        && sys'.calls == sys.calls
  {
    hide ApplyRunEnd, ApplyAction, ApplyRun, ApplyAccount, ApplyInput;
  }

  /** What a dispatch under this claim leaves of a store in such a state. */
  lemma Opens(s: Store, claim: Claim, epoch: nat, until: nat, now: nat)
    requires s.now == now <= until && s.runs.Keys == {1} && s.runs[1].status.Running?
    requires s.jobs == map[1 := JobAt(epoch, claim.worker, until)] && claim.job == 1 && claim.epoch == epoch
    requires Asked(s, ActionStatus.Ready, 0) || (epoch > 0 && Asked(s, ActionStatus.Running, epoch - 1))
    ensures var c := Acts.BeginDispatch(s, 10, Some(claim), Some(ActionKey(10)));
      && c.result == Ok(true) && Asked(c.store, ActionStatus.Running, epoch)
      && c.store == s.(runs := c.store.runs, actions := c.store.actions)
      && c.store.runs.Keys == {1} && c.store.runs[1].owner == s.runs[1].owner && c.store.runs[1].status.Running?
  {
  }

  lemma Send(sys: System)
    requires Stage(sys, 0, RunStatus.Running, JobAt(1, 5, 1)) && Asked(sys.store, ActionStatus.Ready, 0)
    requires sys.store.actions[10].attempts == [] && sys.calls == []
    ensures var sys' := Next(sys, Begin(10, FIRST));
      && Stage(sys', 0, RunStatus.Running, JobAt(1, 5, 1)) && Asked(sys'.store, ActionStatus.Running, 1)
      && sys'.calls == [Call(10, FIRST, Opened)]
  {
    Opens(sys.store, FIRST, 1, 1, 0);
    hide Apply, WriteOp, Replayable, Acts.BeginDispatch, LatestIs;
  }

  /** Time passes, and another worker claims the job. */
  lemma Wait(sys: System)
    requires Stage(sys, 0, RunStatus.Running, JobAt(1, 5, 1))
    ensures var sys' := Next(sys, Transact(Tx.Tick(2)));
      Stage(sys', 2, RunStatus.Running, JobAt(1, 5, 1)) && sys'.store.actions == sys.store.actions
        && sys'.calls == sys.calls
  {
    hide ApplyRunEnd, ApplyAction, ApplyRun, ApplyAccount, ApplyInput;
  }

  lemma ClaimAgain(sys: System)
    requires Stage(sys, 2, RunStatus.Running, JobAt(1, 5, 1))
    ensures var sys' := Next(sys, Transact(Tx.ClaimJob(6, 1, None, 1)));
      Stage(sys', 2, RunStatus.Running, JobAt(2, 6, 3)) && sys'.store.actions == sys.store.actions
        && sys'.calls == sys.calls
  {
    hide ApplyRunEnd, ApplyAction, ApplyRun, ApplyAccount, ApplyInput;
  }

  lemma Overtake(sys: System)
    requires Stage(sys, 2, RunStatus.Running, JobAt(2, 6, 3)) && Asked(sys.store, ActionStatus.Running, 1)
    requires sys.calls == [Call(10, FIRST, Opened)]
    ensures var sys' := Next(sys, Begin(10, SECOND));
      && Stage(sys', 2, RunStatus.Running, JobAt(2, 6, 3)) && Asked(sys'.store, ActionStatus.Running, 2)
      && sys'.calls == [Call(10, FIRST, Opened), Call(10, SECOND, Opened)]
  {
    Opens(sys.store, SECOND, 2, 3, 2);
    hide Apply, WriteOp, Replayable, Acts.BeginDispatch, LatestIs;
  }

  /** There is no such revision yet. */
  lemma Refuse(sys: System)
    requires Stage(sys, 2, RunStatus.Running, JobAt(2, 6, 3)) && Asked(sys.store, ActionStatus.Running, 2)
    requires sys.calls == [Call(10, FIRST, Opened), Call(10, SECOND, Opened)]
    ensures var sys' := Next(sys, Write(1, 30));
      sys' == sys.(calls := [Call(10, FIRST, Opened), Call(10, SECOND, Refused)])
  {
  }

  lemma Report(sys: System)
    requires Stage(sys, 2, RunStatus.Running, JobAt(2, 6, 3)) && Asked(sys.store, ActionStatus.Running, 2)
    requires sys.calls == [Call(10, FIRST, Opened), Call(10, SECOND, Refused)]
    ensures var sys' := Next(sys, Complete(1));
      && Stage(sys', 2, RunStatus.Running, JobAt(2, 6, 3)) && Asked(sys'.store, ActionStatus.Failed, 2)
      && sys'.calls == [Call(10, FIRST, Opened), Call(10, SECOND, Finished(None))]
  {
    hide Apply, WriteOp, Replayable;
  }

  lemma PlainPath()
    ensures NormalizeFilePath("f").Ok?
  {
    assert Segments("f")[0] == "f" && Segments("f") == ["f"];
  }

  lemma Waiting(sys: System)
    requires Stage(sys, 2, RunStatus.Running, JobAt(2, 6, 3)) && Asked(sys.store, ActionStatus.Failed, 2)
    requires sys.calls == [Call(10, FIRST, Opened), Call(10, SECOND, Finished(None))]
    ensures SettledForGood(sys.store, 10) && !HasEffect(sys.vault, 10) && WriteOnItsWay(sys, 10)
  {
    assert sys.calls[0].action == 10 && sys.calls[0].phase.Opened?;
    PlainPath();
  }

  /** The Run runs and has the Action to carry out. */
  lemma Accepted() returns (steps: seq<Step>)
    ensures Reached(steps).Some?
    ensures var sys := Reached(steps).value;
      && Stage(sys, 0, RunStatus.Running, NewJob(AdvanceRun, 1, None, 0)) && Asked(sys.store, ActionStatus.Ready, 0)
      && sys.store.actions[10].attempts == [] && sys.calls == []
  {
    steps := [];
    hide Next, Stage, Empty, Asked;
    Admit(Reached(steps).value);
    steps := Go(steps, Transact(Tx.AdmitRun(USER, 0, 0, LIMITS, None, 1, 1)));
    Start(Reached(steps).value);
    steps := Go(steps, Transact(Tx.EnsureRunning(1, None)));
    Propose(Reached(steps).value);
    steps := Go(steps, Transact(Tx.AdmitAction(USER, Slot(1, 0, 0), ASKED, None, 10)));
  }

  /** Two workers have dispatched it, one after the other. */
  lemma Dispatched(steps: seq<Step>) returns (more: seq<Step>)
    requires Reached(steps).Some?
    requires var sys := Reached(steps).value;
      && Stage(sys, 0, RunStatus.Running, NewJob(AdvanceRun, 1, None, 0)) && Asked(sys.store, ActionStatus.Ready, 0)
      && sys.store.actions[10].attempts == [] && sys.calls == []
    ensures Reached(more).Some?
    ensures var sys := Reached(more).value;
      && Stage(sys, 2, RunStatus.Running, JobAt(2, 6, 3)) && Asked(sys.store, ActionStatus.Running, 2)
      && sys.calls == [Call(10, FIRST, Opened), Call(10, SECOND, Opened)]
  {
    hide Next, Stage, Reached;
    TakeJob(Reached(steps).value);
    more := Go(steps, Transact(Tx.ClaimJob(5, 1, None, 1)));
    Send(Reached(more).value);
    more := Go(more, Begin(10, FIRST));
    Wait(Reached(more).value);
    more := Go(more, Transact(Tx.Tick(2)));
    ClaimAgain(Reached(more).value);
    more := Go(more, Transact(Tx.ClaimJob(6, 1, None, 1)));
    Overtake(Reached(more).value);
    more := Go(more, Begin(10, SECOND));
  }

  /** The second write is refused, and that is reported. */
  lemma FailedWhileWaiting(steps: seq<Step>) returns (more: seq<Step>)
    requires Reached(steps).Some?
    requires var sys := Reached(steps).value;
      && Stage(sys, 2, RunStatus.Running, JobAt(2, 6, 3)) && Asked(sys.store, ActionStatus.Running, 2)
      && sys.calls == [Call(10, FIRST, Opened), Call(10, SECOND, Opened)]
    ensures Reached(more).Some?
    ensures var sys := Reached(more).value;
      && 10 in sys.store.actions && sys.store.actions[10].status.Failed?
      && SettledForGood(sys.store, 10) && !HasEffect(sys.vault, 10) && WriteOnItsWay(sys, 10)
  {
    hide Next, Reached, Stage, SettledForGood, HasEffect, WriteOnItsWay;
    Refuse(Reached(steps).value);
    more := Go(steps, Write(1, 30));
    SameStage(Reached(steps).value, Reached(more).value);
    Report(Reached(more).value);
    more := Go(more, Complete(1));
    Waiting(Reached(more).value);
  }

  lemma SameStage(sys: System, sys': System)
    requires Stage(sys, 2, RunStatus.Running, JobAt(2, 6, 3)) && sys' == sys.(calls := sys'.calls)
    ensures Stage(sys', 2, RunStatus.Running, JobAt(2, 6, 3))
  {
  }

  /**
   An Action is recorded as failed without any effect; later its effect is there, and it still counts as failed.
   */
  lemma FailedThenCarriedOut() returns (steps: seq<Step>, more: seq<Step>)
    ensures Continues(steps, more) && Reached(steps).Some?
    ensures var (before, after) := (Reached(steps).value, Reached(steps + more).value);
      && 10 in before.store.actions && before.store.actions[10].status.Failed? && !HasEffect(before.vault, 10)
      && after.store == before.store && HasEffect(after.vault, 10)
  {
    hide Next, Stage, Empty, Asked, SettledForGood, HasEffect, WriteOnItsWay, Reached;
    steps := Accepted();
    steps := Dispatched(steps);
    steps := FailedWhileWaiting(steps);
    more := Arrives(steps, 10);
  }
}
