/** What any single transaction may do to the tables, and the reference invariants all of them keep. */
module Evolution {
  import opened States
  import opened Wrappers
  import opened Budgets
  import opened Records
  import opened ActionProtocol
  import opened InputTransactions

  /** The number of events retention has removed from a Run's log. */
  function Pruned(r: Run): int {
    r.eventSeq - |r.events|
  }

  /** A log holds consecutive sequence numbers up to the Run's counter. */
  ghost predicate LogOk(r: Run) {
    && Pruned(r) >= 0
    && forall i :: 0 <= i < |r.events| ==> r.events[i].seqNo == Pruned(r) + 1 + i
  }

  /** The log only grows, at its end. */
  predicate LogExtends(r: Run, r': Run) {
    Pruned(r') == Pruned(r) && r.events <= r'.events
  }

  ghost predicate RunEvolves(r: Run, r': Run) {
    && r'.owner == r.owner && r'.parent == r.parent && r'.depth == r.depth && r'.createdAt == r.createdAt
    && (r'.status == r.status || r.status.CanBecome(r'.status))
    && r.version <= r'.version
    && (LogOk(r) ==> LogOk(r') && LogExtends(r, r'))
    && BudgetEvolves(r.budget, r'.budget)
  }

  /** Row `i` holds back a child's limit in one dimension. */
  predicate RowBacks(b: Budget, i: int, child: Id, d: Dimension, amount: nat) {
    0 <= i < |b.rows| && b.rows[i].key == ChildKey(child, d) && b.rows[i].dimension == d && b.rows[i].amount == amount
  }

  /** A parent's budget has a row for each limit of a child, and is limited only where the child is. */
  ghost predicate Backs(b: Budget, child: Id, limits: Limits) {
    forall d: Dimension ::
      && (limits.At(d).Some? ==> exists i :: RowBacks(b, i, child, d, limits.At(d).value))
      && (limits.At(d).None? ==> b.limits.At(d).None?)
  }

  /** Every row under one of the child's keys is still held. */
  predicate AllHeld(b: Budget, child: Id) {
    forall i :: 0 <= i < |b.rows| && b.rows[i].key.ChildKey? && b.rows[i].key.child == child ==>
      b.rows[i].status.Reserved?
  }

  /**
   A newly admitted Run: waiting for a worker, nothing spent, and a child only of a Run that is not over and
   backs it.
   */
  ghost predicate NewRun(s: Store, s': Store, r: Id)
    requires r in s'.runs
  {
    var run := s'.runs[r];
    && run.status.Queued? && LogOk(run) && Pruned(run) == 0 && run.budget.rows == [] && run.budget.used == NOTHING_USED
    && run.calls == map[]
    && (run.parent.Some? ==>
          && run.parent.value in s.runs && run.parent.value in s'.runs
          && !s'.runs[run.parent.value].status.Terminal()
          && Backs(s'.runs[run.parent.value].budget, r, run.budget.limits)
          && AllHeld(s'.runs[run.parent.value].budget, r))
  }

  ghost predicate RunsEvolve(s: Store, s': Store) {
    && s.now <= s'.now
    && s.runs.Keys <= s'.runs.Keys
    && (forall r :: r in s.runs ==> RunEvolves(s.runs[r], s'.runs[r]))
    && (forall r :: r in s'.runs && r !in s.runs ==> NewRun(s, s', r))
    && (forall r :: r in s.runs && s'.runs[r].status.Terminal() && !s.runs[r].status.Terminal()
          ==> !s'.HasNonterminalChildren(r))
  }

  function ViewOf(s: Store, a: Id): View
    requires a in s.actions
  {
    View(s.actions[a], ApprovalOpen(s, s.actions[a]))
  }

  /** Why an Action may move: a transaction about this Action asks for exactly this move. */
  datatype Cause = Cause(action: Id, move: ActionMove)

  /** Moves a transaction may make on Actions it is not itself about, or that people ask for. */
  predicate Unprompted(m: ActionMove) {
    m.Sweep? || m.Lapse? || m.Decide? || m.AskApproval? || m.Reconcile?
  }

  /** At most one move; dispatches, outcomes, retries and cancel receipts only where they are asked for. */
  ghost predicate StepsTo(a: Id, v: View, v': View, cause: Option<Cause>) {
    v' == v || exists m :: Enabled(v, m) && v' == Perform(v, m) && (Unprompted(m) || cause == Some(Cause(a, m)))
  }

  ghost predicate ActionsEvolve(s: Store, s': Store, cause: Option<Cause>) {
    && s.actions.Keys <= s'.actions.Keys
    && (forall a :: a in s.actions ==> StepsTo(a, ViewOf(s, a), ViewOf(s', a), cause))
    && (forall a :: a in s'.actions && a !in s.actions ==> Fresh(ViewOf(s', a)))
    && (forall a :: a in s'.actions && !s'.actions[a].status.Settled()
          ==> || (a in s.actions && !s.actions[a].status.Settled())
              || (s'.actions[a].slot.run in s'.runs && !s'.runs[s'.actions[a].slot.run].status.Cancelled?))
  }

  /** Leases: an epoch grows by one per claim, and within an epoch only the live holder extends or ends the lease. */
  ghost predicate JobEvolves(j: Job, j': Job, now: nat) {
    && j'.kind == j.kind && j'.run == j.run && j'.action == j.action
    && (|| j' == j
        || (j'.epoch == j.epoch + 1 && j'.status.Leased?)
        || (j'.epoch == j.epoch && !j'.status.Leased? && (j.status.Done? ==> j'.status.Done?))
        || (j'.epoch == j.epoch && j.status.Leased? && j'.status.Leased? && j'.owner == j.owner
            && j.leaseUntil.Some? && j.leaseUntil.value >= now))
  }

  ghost predicate JobsEvolve(s: Store, s': Store) {
    && s.jobs.Keys <= s'.jobs.Keys
    && (forall j :: j in s.jobs ==> JobEvolves(s.jobs[j], s'.jobs[j], s.now))
    && (forall j :: j in s'.jobs && j !in s.jobs ==> s'.jobs[j].status.Ready? && s'.jobs[j].epoch == 0)
  }

  /** A child sits one level below a stored parent and has its owner. */
  ghost predicate ParentOk(s: Store, r: Id)
    requires r in s.runs
  {
    var run := s.runs[r];
    run.parent.Some? ==>
      && run.parent.value in s.runs
      && run.depth == s.runs[run.parent.value].depth + 1
      && run.owner == s.runs[run.parent.value].owner
  }

  ghost predicate ActionRefsOk(s: Store, a: Id)
    requires a in s.actions
  {
    var action := s.actions[a];
    && action.slot.run in s.runs
    && action.owner == s.runs[action.slot.run].owner
    && action.slot in s.slots && s.slots[action.slot] == a
    && (action.approval.Some? ==>
          action.approval.value in s.requests && s.requests[action.approval.value].action == Some(a))
  }

  ghost predicate RequestRefsOk(s: Store, q: Id)
    requires q in s.requests
  {
    var request := s.requests[q];
    && request.run in s.runs
    && (request.action.Some? ==>
          && request.action.value in s.actions
          && s.actions[request.action.value].slot.run == request.run
          && (request.status.Pending? ==> s.actions[request.action.value].approval == Some(q)))
  }

  /** Every stored reference resolves, both ways where the code relies on it. */
  ghost predicate Sound(s: Store) {
    && (forall r {:trigger ParentOk(s, r)} :: r in s.runs ==> ParentOk(s, r))
    && (forall a {:trigger ActionRefsOk(s, a)} :: a in s.actions ==> ActionRefsOk(s, a))
    && (forall q {:trigger RequestRefsOk(s, q)} :: q in s.requests ==> RequestRefsOk(s, q))
    && (forall k :: k in s.slots ==> s.slots[k] in s.actions && s.actions[s.slots[k]].slot == k)
    && (forall j :: j in s.jobs ==> s.jobs[j].run in s.runs)
  }

  ghost predicate Evolves(s: Store, s': Store, cause: Option<Cause>) {
    RunsEvolve(s, s') && ActionsEvolve(s, s', cause) && JobsEvolve(s, s') && Sound(s')
  }

  /** A Run a worker is supposed to advance. */
  predicate Active(status: RunStatus) {
    status.Queued? || status.Running?
  }

  /** A Run becomes cancelled only when none of its Actions is unresolved. */
  ghost predicate CancelsSettled(s: Store, s': Store) {
    forall r :: r in s'.runs && s'.runs[r].status.Cancelled? && !(r in s.runs && s.runs[r].status.Cancelled?)
      ==> !s'.HasUnresolvedActions(r)
  }

  predicate WakesUp(s: Store, s': Store, r: Id, j: Id) {
    j in s'.jobs && j !in s.jobs && s'.jobs[j].kind.AdvanceRun? && s'.jobs[j].run == r
  }

  /** A Run becomes active only with a new wake-up, and loses wake-ups only when it is no longer active. */
  ghost predicate WakesOrderly(s: Store, s': Store) {
    && (forall r :: r in s'.runs && Active(s'.runs[r].status) ==>
          || (r in s.runs
              && (s.runs[r].status == s'.runs[r].status || (s.runs[r].status.Queued? && s'.runs[r].status.Running?)))
          || (s'.runs[r].status.Queued? && exists j :: WakesUp(s, s', r, j)))
    && (forall j :: j in s.jobs && j in s'.jobs && !s.jobs[j].status.Done? && s'.jobs[j].status.Done?
                    && s.jobs[j].run in s'.runs
          ==> !Active(s'.runs[s.jobs[j].run].status))
  }

  /** What every transaction but the generic transition and the completion of a job also guarantees. */
  ghost predicate Orderly(s: Store, s': Store) {
    CancelsSettled(s, s') && WakesOrderly(s, s')
  }
}
