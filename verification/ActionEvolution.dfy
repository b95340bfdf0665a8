/** Every transaction on Actions, input requests, budgets and model calls evolves the tables in an orderly way. */
module ActionEvolution {
  import opened States
  import opened Wrappers
  import opened Budgets
  import opened Vaults
  import opened Records
  import opened ActionProtocol
  import opened Evolution
  import opened EvolutionProofs
  import opened ActionTransactions

  // ---- Actions ----

  /** An Action makes a move and its Run records an event about it. */
  lemma ActionStep(s: Store, s': Store, a: Id, a': Action, move: ActionMove, next: RunStatus, kind: EventKind)
    requires Sound(s) && a in s.actions
    requires s.actions[a].slot.run in s.runs
    requires var run := s.actions[a].slot.run;
             || s'.runs == s.runs[run := s.runs[run].Become(next).Append(kind, Some(a))]
             || (next == s.runs[run].status && s'.runs == s.runs[run := s.runs[run].Append(kind, Some(a))])
    requires s' == s.(runs := s'.runs, actions := s.actions[a := a'])
    requires a'.slot == s.actions[a].slot && a'.owner == s.actions[a].owner && a'.approval == s.actions[a].approval
    requires Enabled(ViewOf(s, a), move) && ViewOf(s', a) == Perform(ViewOf(s, a), move)
    requires var status := s.runs[s.actions[a].slot.run].status;
             next == status || (next.Blocked? && status.CanBecome(next))
    requires !s.actions[a].status.Settled()
    ensures Evolves(s, s', Some(Cause(a, move))) && Orderly(s, s')
  {
    hide Evolves, Orderly, LogOk, LogExtends, BudgetEvolves;
    var run := s.actions[a].slot.run;
    BecomeEvolves(s.runs[run], next, kind, Some(a));
    AppendEvolves(s.runs[run], kind, Some(a));
    ActionStepEvolves(s, s', a, a', s'.runs[run], Some(Cause(a, move)));
    ActionStepOrderly(s, s', a, a', s'.runs[run]);
  }

  lemma AdmitActionEvolves(s: Store, owner: Owner, slot: Slot, request: Request, claim: Option<Claim>, action: Id)
    requires Sound(s)
    ensures var s' := AdmitAction(s, owner, slot, request, claim, action).store; Evolves(s, s', None) && Orderly(s, s')
  {
    hide Evolves, Orderly, Sound;
    var s' := AdmitAction(s, owner, slot, request, claim, action).store;
    if s' == s {
      UnchangedEvolves(s);
    } else {
      AppendEvolves(s.runs[slot.run], ActionReady, Some(action));
      ActionArrives(s, s', slot, action);
    }
  }

  lemma ActionsGrow(s: Store, s': Store, action: Id)
    requires s'.requests == s.requests && action !in s.actions && action in s'.actions
    requires s'.actions == s.actions[action := s'.actions[action]] && Fresh(ViewOf(s', action))
    requires s'.actions[action].slot.run in s'.runs && !s'.runs[s'.actions[action].slot.run].status.Cancelled?
    ensures ActionsEvolve(s, s', None)
  {
    forall a | a in s.actions ensures ViewOf(s', a) == ViewOf(s, a) { }
  }

  lemma SoundWithAction(s: Store, s': Store, slot: Slot, action: Id)
    requires Sound(s) && action !in s.actions && slot !in s.slots && slot.run in s.runs && slot.run in s'.runs
    requires s'.runs == s.runs[slot.run := s'.runs[slot.run]]
    requires var r, r' := s.runs[slot.run], s'.runs[slot.run];
      r'.owner == r.owner && r'.parent == r.parent && r'.depth == r.depth
    requires s' == s.(runs := s'.runs, actions := s'.actions, slots := s.slots[slot := action])
    requires action in s'.actions && s'.actions == s.actions[action := s'.actions[action]]
    requires s'.actions[action].slot == slot && s'.actions[action].owner == s.runs[slot.run].owner
    requires s'.actions[action].approval.None?
    ensures Sound(s')
  {
    forall r | r in s'.runs ensures ParentOk(s', r) { assert ParentOk(s, r); }
    forall a | a in s'.actions ensures ActionRefsOk(s', a) { assert a != action ==> ActionRefsOk(s, a); }
    forall q | q in s'.requests ensures RequestRefsOk(s', q) { assert RequestRefsOk(s, q); }
  }

  lemma StatusesKept(s: Store, s': Store)
    requires s'.runs.Keys == s.runs.Keys && forall r :: r in s.runs ==> s'.runs[r].status == s.runs[r].status
    requires s'.jobs == s.jobs
    ensures Orderly(s, s')
  {
  }

  lemma ActionArrives(s: Store, s': Store, slot: Slot, action: Id)
    requires Sound(s) && slot.run in s.runs && action !in s.actions && slot !in s.slots
    requires !s.runs[slot.run].status.Cancelled?
    requires s' == s.(runs := s.runs[slot.run := s.runs[slot.run].Append(ActionReady, Some(action))],
                      actions := s'.actions, slots := s.slots[slot := action])
    requires action in s'.actions && s'.actions == s.actions[action := s'.actions[action]]
    requires var a := s'.actions[action];
      a.slot == slot && a.owner == s.runs[slot.run].owner && a.status.Ready? && a.attempts == [] && a.verdicts == []
      && a.key.None? && a.approval.None? && a.result.None?
    requires RunEvolves(s.runs[slot.run], s'.runs[slot.run])
    ensures Evolves(s, s', None) && Orderly(s, s')
  {
    hide RunsEvolve, ActionsEvolve, JobsEvolve, Orderly, Sound, LogOk, LogExtends, BudgetEvolves;
    RunsOne(s, s', slot.run);
    JobsKept(s, s');
    ActionsGrow(s, s', action);
    SoundWithAction(s, s', slot, action);
    StatusesKept(s, s');
  }

  /** A dispatch opens a ready Action, and takes over a running one. */
  function DispatchCause(s: Store, action: Id, claim: Option<Claim>, key: Option<EffectKey>): Option<Cause> {
    var epoch := if claim.Some? then claim.value.epoch else 0;
    if action !in s.actions then None
    else Some(Cause(action, if s.actions[action].status.Ready? then Open(epoch, key) else Reclaim(epoch, key)))
  }

  lemma BeginDispatchEvolves(s: Store, action: Id, claim: Option<Claim>, key: Option<EffectKey>)
    requires Sound(s)
    ensures var s' := BeginDispatch(s, action, claim, key).store;
      Evolves(s, s', DispatchCause(s, action, claim, key)) && Orderly(s, s')
  {
    hide Evolves, Orderly, Sound;
    var s' := BeginDispatch(s, action, claim, key).store;
    if s' == s {
      UnchangedFor(s, DispatchCause(s, action, claim, key));
    } else {
      var a := s.actions[action];
      var epoch := if claim.Some? then claim.value.epoch else 0;
      var move := if a.status.Ready? then Open(epoch, key) else Reclaim(epoch, key);
      ActionStep(s, s', action, s'.actions[action], move, s.runs[a.slot.run].status,
                 if a.status.Ready? then ActionStarted else ActionRetryStarted);
    }
  }

  lemma CompleteActionEvolves(s: Store, action: Id, ok: bool, result: ActionResult, claim: Option<Claim>)
    requires Sound(s)
    ensures var s' := CompleteAction(s, action, ok, result, claim).store;
      Evolves(s, s', Some(Cause(action, Close(ok, result)))) && Orderly(s, s')
  {
    hide Evolves, Orderly, Sound;
    var s' := CompleteAction(s, action, ok, result, claim).store;
    if s' == s {
      UnchangedFor(s, Some(Cause(action, Close(ok, result))));
    } else {
      ActionStep(s, s', action, s'.actions[action], Close(ok, result), s.runs[s.actions[action].slot.run].status,
                 ActionCompleted);
    }
  }

  lemma MarkOutcomeUnknownEvolves(s: Store, action: Id, result: ActionResult)
    requires Sound(s)
    ensures var s' := MarkOutcomeUnknown(s, action, result).store;
      Evolves(s, s', Some(Cause(action, LoseOutcome(result)))) && Orderly(s, s')
  {
    hide Evolves, Orderly, Sound;
    var s' := MarkOutcomeUnknown(s, action, result).store;
    if s' == s {
      UnchangedFor(s, Some(Cause(action, LoseOutcome(result))));
    } else {
      ActionStep(s, s', action, s'.actions[action], LoseOutcome(result), RunStatus.Blocked, ActionOutcomeUnknown);
    }
  }

  lemma MarkRetryWaitEvolves(s: Store, action: Id, result: ActionResult, key: EffectKey)
    requires Sound(s)
    ensures var s' := MarkRetryWait(s, action, result, key).store;
      Evolves(s, s', Some(Cause(action, ScheduleRetry(key, result)))) && Orderly(s, s')
  {
    hide Evolves, Orderly, Sound;
    var s' := MarkRetryWait(s, action, result, key).store;
    if s' == s {
      UnchangedFor(s, Some(Cause(action, ScheduleRetry(key, result))));
    } else {
      ActionStep(s, s', action, s'.actions[action], ScheduleRetry(key, result),
                 s.runs[s.actions[action].slot.run].status, ActionRetryScheduled);
    }
  }

  lemma BeginRetryEvolves(s: Store, action: Id, key: EffectKey)
    requires Sound(s)
    ensures var s' := BeginRetry(s, action, key).store;
      Evolves(s, s', Some(Cause(action, Retry(key)))) && Orderly(s, s')
  {
    hide Evolves, Orderly, Sound;
    var s' := BeginRetry(s, action, key).store;
    if s' == s {
      UnchangedFor(s, Some(Cause(action, Retry(key))));
    } else {
      ActionStep(s, s', action, s'.actions[action], Retry(key), s.runs[s.actions[action].slot.run].status,
                 ActionRetryStarted);
    }
  }

  /** A receipt closes an Action with the stored reply. */
  function ReceiptCause(v: Vault, s: Store, owner: Owner, action: Id): Option<Cause> {
    if action !in s.actions || s.actions[action].request.bound.None? then None
    else
      var at := LedgerKey(owner, s.actions[action].request.bound.value.Where(), ActionKey(action));
      if at !in v.ledger then None
      else Some(Cause(action, Close(true, Envelope(Reply(v.ledger[at].status, v.ledger[at].body)))))
  }

  lemma ReconcileLocalEvolves(s: Store, v: Vault, owner: Owner, action: Id, claim: Claim)
    requires Sound(s)
    ensures var s' := ReconcileLocal(s, v, owner, action, claim).store;
      Evolves(s, s', ReceiptCause(v, s, owner, action)) && Orderly(s, s')
  {
    hide Evolves, Orderly, Sound;
    var c := ReconcileLocal(s, v, owner, action, claim);
    var s' := c.store;
    if s' == s {
      UnchangedFor(s, ReceiptCause(v, s, owner, action));
    } else {
      var a := s.actions[action];
      var receipt := v.ledger[LedgerKey(owner, a.request.bound.value.Where(), ActionKey(action))];
      ActionStep(s, s', action, s'.actions[action], Close(true, Envelope(Reply(receipt.status, receipt.body))),
                 s.runs[a.slot.run].status, ActionReconciledLocal);
    }
  }

  /** Two events and a confirmed cancellation. */
  lemma ConfirmedEvolves(r: Run, kind: EventKind, about: Option<Id>, r': Run)
    requires r.status.Cancelling? && r'.status.Cancelled? && r'.version >= r.version
    requires r' == r.Append(kind, about).Append(RunCancelled, None).(status := r'.status, version := r'.version)
    ensures RunEvolves(r, r')
  {
    AppendEvolves(r, kind, about);
    AppendEvolves(r.Append(kind, about), RunCancelled, None);
  }

  /** No Run is its own child, so changing a Run does not change whether its children have ended. */
  lemma ChildrenUnaffected(s: Store, s': Store, run: Id)
    requires Sound(s) && run in s.runs && run in s'.runs && s'.runs == s.runs[run := s'.runs[run]]
    requires s'.runs[run].parent == s.runs[run].parent
    ensures s'.HasNonterminalChildren(run) <==> s.HasNonterminalChildren(run)
  {
    assert ParentOk(s, run);
    if c :| c in s.runs && s.runs[c].parent == Some(run) && !s.runs[c].status.Terminal() {
      assert c in s'.runs && s'.runs[c].parent == Some(run) && !s'.runs[c].status.Terminal();
    }
  }

  lemma ReceiptStep(s: Store, s': Store, action: Id, stopped: bool)
    requires Sound(s) && action in s.actions && s.actions[action].slot.run in s.runs
    requires s.actions[action].slot.run in s'.runs
    requires var run := s.actions[action].slot.run;
      && s' == s.(runs := s.runs[run := s'.runs[run]],
                  actions := s.actions[action := Acknowledged(s.actions[action], stopped)])
      && s.runs[run].status.Cancelling? && RunEvolves(s.runs[run], s'.runs[run])
      && (s'.runs[run].status == s.runs[run].status
          || (s'.runs[run].status.Cancelled? && stopped && !s'.HasUnresolvedActions(run)
              && !s.HasNonterminalChildren(run)))
    ensures Evolves(s, s', Some(Cause(action, Acknowledge(stopped)))) && Orderly(s, s')
  {
    var run := s.actions[action].slot.run;
    assert Enabled(ViewOf(s, action), Acknowledge(stopped));
    ActionStepEvolves(s, s', action, s'.actions[action], s'.runs[run], Some(Cause(action, Acknowledge(stopped))));
    ActionStepOrderly(s, s', action, s'.actions[action], s'.runs[run]);
  }

  lemma RecordCancelReceiptEvolves(s: Store, action: Id, stopped: bool)
    requires Sound(s)
    ensures var s' := RecordCancelReceipt(s, action, stopped).store;
      Evolves(s, s', Some(Cause(action, Acknowledge(stopped)))) && Orderly(s, s')
  {
    var s' := RecordCancelReceipt(s, action, stopped).store;
    if s' == s {
      UnchangedFor(s, Some(Cause(action, Acknowledge(stopped))));
    } else {
      var a := s.actions[action];
      var run := a.slot.run;
      if s'.runs[run].status.Cancelled? {
        ConfirmedEvolves(s.runs[run], ActionCancelReceipt, Some(action), s'.runs[run]);
        ChildrenUnaffected(s, s', run);
      } else {
        AppendEvolves(s.runs[run], ActionCancelReceipt, Some(action));
      }
      ReceiptStep(s, s', action, stopped);
    }
  }

  lemma SoundWithJob(s: Store, j: Id, job: Job)
    requires Sound(s) && job.run in s.runs
    ensures Sound(s.WithJob(j, job))
  {
    var s' := s.WithJob(j, job);
    forall r | r in s'.runs ensures ParentOk(s', r) { assert ParentOk(s, r); }
    forall a | a in s'.actions ensures ActionRefsOk(s', a) { assert ActionRefsOk(s, a); }
    forall q | q in s'.requests ensures RequestRefsOk(s', q) { assert RequestRefsOk(s, q); }
  }

  lemma SameRunsEvolve(s: Store, mid: Store, s': Store)
    requires RunsEvolve(s, mid) && s'.runs == mid.runs && s'.now == mid.now
    ensures RunsEvolve(s, s')
  {
    hide RunEvolves;
  }

  lemma SameActionsEvolve(s: Store, mid: Store, s': Store)
    requires ActionsEvolve(s, mid, None) && s'.runs == mid.runs
    requires s'.actions == mid.actions && s'.requests == mid.requests
    ensures ActionsEvolve(s, s', None)
  {
    hide StepsTo, Fresh;
    forall a | a in s'.actions ensures ViewOf(s', a) == ViewOf(mid, a) { }
  }

  /** An Action's move, its Run's change and one new job for that Run. */
  lemma WithWakeUp(s: Store, mid: Store, run: Id, about: Option<Id>, job: Id)
    requires Evolves(s, mid, None) && mid.jobs == s.jobs && job !in s.jobs && run in mid.runs
    ensures Evolves(s, mid.WithJob(job, NewJob(AdvanceRun, run, about, s.now)), None)
  {
    hide RunsEvolve, ActionsEvolve, JobsEvolve, Sound;
    var s' := mid.WithJob(job, NewJob(AdvanceRun, run, about, s.now));
    JobsAdded(s, s', job, s'.jobs[job]);
    SoundWithJob(mid, job, s'.jobs[job]);
    SameRunsEvolve(s, mid, s');
    SameActionsEvolve(s, mid, s');
  }

  lemma WakeUpOrderly(s: Store, s': Store, run: Id, job: Id)
    requires run in s.runs && run in s'.runs && s'.runs == s.runs[run := s'.runs[run]]
    requires WakesUp(s, s', run, job) && s'.jobs == s.jobs[job := s'.jobs[job]]
    requires s'.runs[run].status.Queued?
    ensures Orderly(s, s')
  {
  }

  /** A verdict as a move: what it does to the Action, with its Run becoming `next`. */
  lemma VerdictEvolves(s: Store, s': Store, action: Id, verdict: Verdict, cancelling: bool)
    requires Sound(s) && action in s.actions
    requires s.actions[action].status.OutcomeUnknown? || s.actions[action].status.WaitingExternal?
    requires var run := s.actions[action].slot.run;
      && run in s.runs && run in s'.runs && RunEvolves(s.runs[run], s'.runs[run])
      && s' == s.(runs := s.runs[run := s'.runs[run]],
                  actions := s.actions[action := Reconciled(s.actions[action], verdict, cancelling)])
      && (s'.runs[run].status.Terminal() && !s.runs[run].status.Terminal() ==> !s.HasNonterminalChildren(run))
    ensures Evolves(s, s', None)
  {
    var run := s.actions[action].slot.run;
    assert Enabled(ViewOf(s, action), ActionMove.Reconcile(verdict, cancelling));
    ActionStepEvolves(s, s', action, s'.actions[action], s'.runs[run], None);
  }

  /** A verdict on an Action of a blocked Run wakes the Run up. */
  lemma VerdictWakes(s: Store, s': Store, action: Id, verdict: Verdict, job: Id)
    requires Sound(s) && action in s.actions && job !in s.jobs
    requires s.actions[action].status.OutcomeUnknown? || s.actions[action].status.WaitingExternal?
    requires s.actions[action].slot.run in s.runs && s.runs[s.actions[action].slot.run].status.Blocked?
    requires var run := s.actions[action].slot.run;
      s' == s.WithAction(action, Reconciled(s.actions[action], verdict, false))
             .WithRun(run, s.runs[run].Become(RunStatus.Queued).Append(ActionReconciled, Some(action)))
             .WithJob(job, NewJob(AdvanceRun, run, Some(action), s.now))
    ensures Evolves(s, s', None) && Orderly(s, s')
  {
    var run := s.actions[action].slot.run;
    BecomeEvolves(s.runs[run], RunStatus.Queued, ActionReconciled, Some(action));
    var mid := s'.(jobs := s.jobs);
    VerdictEvolves(s, mid, action, verdict, false);
    WithWakeUp(s, mid, run, Some(action), job);
    WakeUpOrderly(s, s', run, job);
  }

  /** A verdict on an Action of any other Run leaves its status, or confirms its cancellation. */
  lemma VerdictStays(s: Store, s': Store, action: Id, verdict: Verdict)
    requires Sound(s) && action in s.actions && s.actions[action].slot.run in s.runs
    requires s.actions[action].slot.run in s'.runs
    requires s.actions[action].status.OutcomeUnknown? || s.actions[action].status.WaitingExternal?
    requires var run := s.actions[action].slot.run;
             var r, r' := s.runs[run], s'.runs[run];
      && s' == s.(runs := s.runs[run := r'],
                  actions := s.actions[action := Reconciled(s.actions[action], verdict, r.status.Cancelling?)])
      && (|| r' == r.Become(r.status).Append(ActionReconciled, Some(action))
          || (r.status.Cancelling? && !s'.HasUnresolvedActions(run) && !s'.HasNonterminalChildren(run)
              && r' == r.Become(r.status).Append(ActionReconciled, Some(action)).(status := RunStatus.Cancelled)
                .Append(RunCancelled, None)))
    ensures Evolves(s, s', None) && Orderly(s, s')
  {
    var run := s.actions[action].slot.run;
    var r, r' := s.runs[run], s'.runs[run];
    if r' == r.Become(r.status).Append(ActionReconciled, Some(action)) {
      BecomeEvolves(r, r.status, ActionReconciled, Some(action));
    } else {
      ConfirmedEvolves(r, ActionReconciled, Some(action), r');
      ChildrenUnaffected(s, s', run);
    }
    VerdictEvolves(s, s', action, verdict, r.status.Cancelling?);
    ActionStepOrderly(s, s', action, s'.actions[action], r');
  }

  lemma ReconcileActionEvolves(s: Store, owner: Owner, action: Id, verdict: Verdict, evidenced: bool, job: Id)
    requires Sound(s)
    ensures var s' := ReconcileAction(s, owner, action, verdict, evidenced, job).store;
      Evolves(s, s', None) && Orderly(s, s')
  {
    hide Evolves, Orderly, Sound, FindVerdict, Reconciled;
    var s' := ReconcileAction(s, owner, action, verdict, evidenced, job).store;
    if s' == s {
      UnchangedEvolves(s);
      return;
    }
    if s.runs[s.actions[action].slot.run].status.Blocked? {
      VerdictWakes(s, s', action, verdict, job);
    } else {
      VerdictStays(s, s', action, verdict);
    }
  }
}
