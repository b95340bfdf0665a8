/** A history in which a cancellation drops an Action, and a late approval brings it back and lets it be sent. */
module Revival {
  import opened States
  import opened Wrappers
  import opened Budgets
  import opened Vaults
  import opened Records
  import opened ActionProtocol
  import opened Kernel
  import opened Histories
  import Runs = RunTransactions

  const USER := Owner(0, 0)
  const ASKED := Request(7, OtherCapability(0), 0, Unsafe, None)
  const LIMITS := Limits(Some(9), Some(9), Some(9), None)
  const VERDICT := Verdict(0, 2, ConfirmedApplied, 0)

  /** The Run in this status, with these jobs around. */
  predicate Stage(s: Store, status: RunStatus, jobs: set<Id>, admissions: nat) {
    && s.now == 0 && s.runs.Keys == {1} && s.runs[1].owner == USER && s.runs[1].status == status
    && s.runs[1].parent.None?
    && s.runs[1].clarifications == map[] && s.jobs.Keys == jobs && s.responses == map[]
    && (admissions == 1 ==> s.admissions.Keys == {AdmissionKey(USER, RunsRoute, 0)})
  }

  /** The Action that is dropped. */
  predicate First(s: Store, status: ActionStatus, approval: Option<Id>) {
    && 10 in s.actions && s.actions[10].owner == USER && s.actions[10].slot == Slot(1, 0, 0)
    && s.actions[10].request == ASKED
    && s.actions[10].status == status && s.actions[10].approval == approval
  }

  /** The Action in doubt that keeps the Run from ending. */
  predicate Second(s: Store, status: ActionStatus, version: nat) {
    && 11 in s.actions && s.actions[11].owner == USER && s.actions[11].slot == Slot(1, 0, 1)
    && s.actions[11].status == status && s.actions[11].version == version && s.actions[11].verdicts == []
    && (status.Running? ==> LatestIs(s.actions[11].attempts, AttemptStatus.Started))
  }

  /** The approval of the first Action is still open. */
  predicate Open(s: Store) {
    s.requests.Keys <= {20, 21} && 20 in s.requests
    && s.requests[20] == InputRequest(USER, 1, Some(10), RequestStatus.Pending, 0, ASKED.hash, Some(ASKED.revision), 5)
  }

  lemma Admit()
    ensures var s := Apply(EMPTY_STORE, Tx.AdmitRun(USER, 0, 0, LIMITS, None, 1, 1));
      Stage(s, RunStatus.Queued, {1}, 1) && s.actions == map[] && s.slots == map[] && s.requests == map[]
  {
    hide ApplyRunEnd, ApplyAction, ApplyInput, ApplyAccount, ApplyJob;
  }

  lemma Start(s: Store, jobs: set<Id>, admissions: nat)
    requires Stage(s, RunStatus.Queued, jobs, admissions)
    ensures var s' := Apply(s, Tx.EnsureRunning(1, None));
      Stage(s', RunStatus.Running, jobs, admissions) && s' == s.(runs := s'.runs)
  {
    hide ApplyRunEnd, ApplyAction, ApplyInput, ApplyAccount, ApplyJob;
  }

  lemma Propose(s: Store)
    requires Stage(s, RunStatus.Running, {1}, 1) && s.actions == map[] && s.slots == map[]
    ensures var s' := Apply(s, Tx.AdmitAction(USER, Slot(1, 0, 0), ASKED, None, 10));
      Stage(s', RunStatus.Running, {1}, 1) && First(s', ActionStatus.Ready, None)
      && s'.actions.Keys == {10} && s'.slots.Keys == {Slot(1, 0, 0)} && s'.requests == s.requests
  {
    hide ApplyRun, ApplyRunEnd, ApplyAction, ApplyAccount, ApplyJob;
  }

  lemma ProposeMore(s: Store)
    requires Stage(s, RunStatus.Running, {1}, 1) && First(s, ActionStatus.Ready, None)
    requires s.actions.Keys == {10} && s.slots.Keys == {Slot(1, 0, 0)}
    ensures var s' := Apply(s, Tx.AdmitAction(USER, Slot(1, 0, 1), ASKED, None, 11));
      Stage(s', RunStatus.Running, {1}, 1) && First(s', ActionStatus.Ready, None) && Second(s', ActionStatus.Ready, 0)
      && s'.actions[11].attempts == [] && s'.requests == s.requests
  {
    hide ApplyRun, ApplyRunEnd, ApplyAction, ApplyAccount, ApplyJob;
  }

  lemma Send(s: Store)
    requires Stage(s, RunStatus.Running, {1}, 1) && First(s, ActionStatus.Ready, None)
    requires Second(s, ActionStatus.Ready, 0)
    requires s.actions[11].attempts == []
    ensures var s' := Apply(s, Tx.BeginDispatch(11, None, None));
      Stage(s', RunStatus.Running, {1}, 1) && First(s', ActionStatus.Ready, None) && Second(s', ActionStatus.Running, 1)
      && s'.requests == s.requests
  {
    hide ApplyRun, ApplyRunEnd, ApplyInput, ApplyAccount, ApplyJob;
  }

  lemma Ask(s: Store)
    requires Stage(s, RunStatus.Running, {1}, 1) && First(s, ActionStatus.Ready, None)
    requires Second(s, ActionStatus.Running, 1)
    requires s.requests == map[]
    ensures var s' := Apply(s, Tx.RequestApproval(USER, 10, 5, 20));
      Stage(s', RunStatus.WaitingInput, {1}, 1) && Open(s') && 21 !in s'.requests
      && First(s', ActionStatus.WaitingInput, Some(20)) && Second(s', ActionStatus.Running, 1)
  {
    hide ApplyRun, ApplyRunEnd, ApplyAction, ApplyAccount, ApplyJob, LatestIs;
  }

  /** The cancellation is accepted: the subtree stops, and the key is remembered. */
  lemma CancelStops(s: Store)
    requires Stage(s, RunStatus.WaitingInput, {1}, 1)
    requires Runs.Stopping(s.runs, 1) == {1} && Runs.FreshJobs(s.jobs, {1}, map[1 := 2])
    ensures var s', stopped := Apply(s, Tx.RequestCancellation(USER, 1, 0, 0, map[1 := 2])),
                               Runs.StopSubtree(s, 1, map[1 := 2]);
      s' == stopped.(admissions := s'.admissions)
  {
    hide ApplyRunEnd, ApplyAction, ApplyInput, ApplyAccount, ApplyJob, Runs.Stopping, Runs.Below, Runs.StopSubtree,
         Runs.FreshJobs;
  }

  lemma Cancel(s: Store)
    requires Stage(s, RunStatus.WaitingInput, {1}, 1)
    requires First(s, ActionStatus.WaitingInput, Some(20)) && Second(s, ActionStatus.Running, 1)
    ensures var s' := Apply(s, Tx.RequestCancellation(USER, 1, 0, 0, map[1 := 2]));
      Stage(s', RunStatus.Cancelling, {1, 2}, 2) && s'.requests == s.requests
      && First(s', ActionStatus.Cancelled, Some(20)) && Second(s', ActionStatus.Running, 1)
  {
    OnlyOneStops(s);
    StopOne(s);
    CancelStops(s);
    hide Apply, Runs.Stopping, Runs.Below, Runs.StopSubtree, Runs.FreshJobs, LatestIs;
  }

  lemma OneJob(jobs: map<Id, Job>)
    requires jobs.Keys == {1}
    ensures Runs.FreshJobs(jobs, {1}, map[1 := 2]) && Runs.CancelJobs(jobs, {1}, map[1 := 2], 0).Keys == {1, 2}
  {
  }

  lemma SweptActions(s: Store)
    requires First(s, ActionStatus.WaitingInput, Some(20)) && Second(s, ActionStatus.Running, 1)
    ensures var s' := s.(actions := SweepActions(s.actions, {1}));
      First(s', ActionStatus.Cancelled, Some(20)) && Second(s', ActionStatus.Running, 1)
  {
    hide LatestIs;
  }

  lemma StopOne(s: Store)
    requires Stage(s, RunStatus.WaitingInput, {1}, 1)
    requires First(s, ActionStatus.WaitingInput, Some(20)) && Second(s, ActionStatus.Running, 1)
    requires Runs.Stopping(s.runs, 1) == {1}
    ensures Runs.FreshJobs(s.jobs, {1}, map[1 := 2])
    ensures var s' := Runs.StopSubtree(s, 1, map[1 := 2]);
      s'.now == 0 && s'.runs.Keys == {1} && s'.runs[1] == Runs.Stopped(s.runs[1]) && s'.jobs.Keys == {1, 2}
      && s' == s.(runs := s'.runs, jobs := s'.jobs, actions := s'.actions)
      && First(s', ActionStatus.Cancelled, Some(20)) && Second(s', ActionStatus.Running, 1)
  {
    OneJob(s.jobs);
    SweptActions(s);
    hide Runs.Stopping, Runs.Below, Runs.Stopped, LatestIs, Runs.CancelJobs, Runs.FreshJobs, SweepActions;
    assert Runs.StopRuns(s.runs, {1}).Keys == {1};
  }

  lemma OnlyOneStops(s: Store)
    requires s.runs.Keys == {1} && s.runs[1].status.WaitingInput?
    ensures Runs.Stopping(s.runs, 1) == {1}
  {
    assert Runs.Below(s.runs, 1, 1);
  }

  lemma Lose(s: Store)
    requires Stage(s, RunStatus.Cancelling, {1, 2}, 2)
    requires First(s, ActionStatus.Cancelled, Some(20)) && Second(s, ActionStatus.Running, 1)
    ensures var s' := Apply(s, Tx.MarkOutcomeUnknown(11, Opaque(0)));
      Stage(s', RunStatus.Blocked, {1, 2}, 2) && First(s', ActionStatus.Cancelled, Some(20))
      && Second(s', ActionStatus.OutcomeUnknown, 2) && s'.requests == s.requests
  {
    hide ApplyRun, ApplyRunEnd, ApplyInput, ApplyAccount, ApplyJob;
  }

  lemma Judge(s: Store)
    requires Stage(s, RunStatus.Blocked, {1, 2}, 2) && First(s, ActionStatus.Cancelled, Some(20))
    requires Second(s, ActionStatus.OutcomeUnknown, 2)
    ensures var s' := Apply(s, Tx.ReconcileAction(USER, 11, VERDICT, true, 3));
      Stage(s', RunStatus.Queued, {1, 2, 3}, 2) && First(s', ActionStatus.Cancelled, Some(20))
        && s'.requests == s.requests
  {
    hide ApplyRun, ApplyRunEnd, ApplyAction, ApplyAccount, ApplyJob;
    hide Store.HasUnresolvedActions, Store.HasNonterminalChildren;
  }

  lemma Clarify(s: Store)
    requires Stage(s, RunStatus.Running, {1, 2, 3}, 2) && Open(s) && 21 !in s.requests
    ensures var s' := Apply(s, Tx.RequestClarification(USER, 1, 8, 5, None, 21));
      s'.now == 0 && s'.runs.Keys == {1} && s'.runs[1].status.WaitingInput? && s'.jobs.Keys == {1, 2, 3}
        && s'.responses == map[]
      && Open(s') && s'.actions == s.actions
  {
    hide ApplyRun, ApplyRunEnd, ApplyAction, ApplyAccount, ApplyJob;
  }

  lemma Approve(s: Store)
    requires s.now == 0 && s.runs.Keys == {1} && s.runs[1].status.WaitingInput? && s.jobs.Keys == {1, 2, 3}
             && s.responses == map[]
    requires Open(s) && First(s, ActionStatus.Cancelled, Some(20))
    ensures var s' := Apply(s, Tx.Respond(USER, 20, 0, Decision.Approve, 0, 0, 4));
      First(s', ActionStatus.Ready, Some(20)) && s'.runs.Keys == {1} && s'.runs[1].status.Queued?
  {
    hide ApplyRun, ApplyRunEnd, ApplyAction, ApplyAccount, ApplyJob;
  }

  // ---- The history ----

  /** Two Actions are proposed, one is sent, the other waits for approval. */
  lemma Prepared() returns (s: Store)
    ensures Leads(EMPTY_STORE, s) && Stage(s, RunStatus.WaitingInput, {1}, 1) && Open(s) && 21 !in s.requests
    ensures First(s, ActionStatus.WaitingInput, Some(20)) && Second(s, ActionStatus.Running, 1)
  {
    hide *;
    LeadsNowhere(EMPTY_STORE);
    s := EMPTY_STORE;
    Admit();
    s := Go(s, Tx.AdmitRun(USER, 0, 0, LIMITS, None, 1, 1));
    Start(s, {1}, 1);
    s := Go(s, Tx.EnsureRunning(1, None));
    Propose(s);
    s := Go(s, Tx.AdmitAction(USER, Slot(1, 0, 0), ASKED, None, 10));
    ProposeMore(s);
    s := Go(s, Tx.AdmitAction(USER, Slot(1, 0, 1), ASKED, None, 11));
    Send(s);
    s := Go(s, Tx.BeginDispatch(11, None, None));
    Ask(s);
    s := Go(s, Tx.RequestApproval(USER, 10, 5, 20));
  }

  /**
   The Run is cancelled, which drops the first Action; the second one, in doubt, blocks the Run instead of
   ending it.
   */
  lemma Dropped() returns (s: Store)
    ensures Leads(EMPTY_STORE, s) && Stage(s, RunStatus.Blocked, {1, 2}, 2) && Open(s) && 21 !in s.requests
    ensures First(s, ActionStatus.Cancelled, Some(20)) && Second(s, ActionStatus.OutcomeUnknown, 2)
  {
    hide Apply, Stage, First, Second, Leads;
    s := Prepared();
    Cancel(s);
    s := Go(s, Tx.RequestCancellation(USER, 1, 0, 0, map[1 := 2]));
    Lose(s);
    s := Go(s, Tx.MarkOutcomeUnknown(11, Opaque(0)));
  }

  /** A person judges the effect in doubt, the Run goes on, asks something else, and the open approval is answered. */
  lemma Revived(s: Store) returns (s': Store)
    requires Stage(s, RunStatus.Blocked, {1, 2}, 2) && Open(s) && 21 !in s.requests
    requires First(s, ActionStatus.Cancelled, Some(20)) && Second(s, ActionStatus.OutcomeUnknown, 2)
    ensures Leads(s, s') && First(s', ActionStatus.Ready, Some(20))
  {
    hide Apply, Stage, Second, Leads;
    LeadsNowhere(s);
    Judge(s);
    s' := Apply(s, Tx.ReconcileAction(USER, 11, VERDICT, true, 3));
    LeadsOn(s, s, Tx.ReconcileAction(USER, 11, VERDICT, true, 3));
    Start(s', {1, 2, 3}, 2);
    LeadsOn(s, s', Tx.EnsureRunning(1, None));
    s' := Apply(s', Tx.EnsureRunning(1, None));
    Clarify(s');
    LeadsOn(s, s', Tx.RequestClarification(USER, 1, 8, 5, None, 21));
    s' := Apply(s', Tx.RequestClarification(USER, 1, 8, 5, None, 21));
    Approve(s');
    LeadsOn(s, s', Tx.Respond(USER, 20, 0, Decision.Approve, 0, 0, 4));
    s' := Apply(s', Tx.Respond(USER, 20, 0, Decision.Approve, 0, 0, 4));
  }

  /**
   Without the condition on approvals a settled Action is not final: a cancelled one becomes ready to be sent
   again.
   */
  lemma DroppedActionComesBack() returns (s: Store, s': Store)
    ensures Leads(EMPTY_STORE, s) && Leads(s, s')
    ensures 10 in s.actions && s.actions[10].status.Cancelled?
    ensures 10 in s'.actions && s'.actions[10].status.Ready?
  {
    hide Leads, Stage, Open, Second;
    s := Dropped();
    s' := Revived(s);
  }
}
