/** Every transaction on input requests, budgets and model calls evolves the tables in an orderly way. */
module InputEvolution {
  import opened States
  import opened Wrappers
  import opened Budgets
  import opened Vaults
  import opened Records
  import opened ActionProtocol
  import opened Evolution
  import opened EvolutionProofs
  import opened ActionEvolution
  import opened InputTransactions
  import opened AccountTransactions

  // ---- Approvals and clarifications ----

  /** A request nobody has heard of yet is added; it may become the approval of one Action. */
  lemma RequestArrives(s: Store, s': Store, request: Id, run: Id, about: Option<Id>)
    requires Sound(s) && request !in s.requests && run in s.runs && s'.runs.Keys == s.runs.Keys
    requires s'.now == s.now && s'.jobs == s.jobs && s'.slots == s.slots
    requires request in s'.requests && s'.requests == s.requests[request := s'.requests[request]]
    requires s'.requests[request].run == run && s'.requests[request].action == about
    requires forall r :: r in s.runs ==>
               s'.runs[r].owner == s.runs[r].owner && s'.runs[r].parent == s.runs[r].parent
                 && s'.runs[r].depth == s.runs[r].depth
    requires about.Some? ==>
               && about.value in s.actions && s.actions[about.value].slot.run == run
               && s'.actions == s.actions[about.value := Asked(s.actions[about.value], request)]
    requires about.None? ==> s'.actions == s.actions
    requires forall a :: a in s.actions && s.actions[a].approval.Some? ==>
               !(about == Some(a) && ApprovalOpen(s, s.actions[a]))
    ensures Sound(s')
  {
    hide ApprovalOpen, ActionRefsOk, RequestRefsOk;
    forall r | r in s'.runs ensures ParentOk(s', r) {
      assert ParentOk(s, r);
    }
    hide ParentOk;
    forall a | a in s'.actions ensures ActionRefsOk(s', a) {
      assert ActionRefsOk(s, a);
      ActionStays(s, s', request, about, a);
    }
    forall q | q in s'.requests ensures RequestRefsOk(s', q) {
      RequestStays(s, s', request, about, q);
    }
  }

  lemma ActionStays(s: Store, s': Store, request: Id, about: Option<Id>, a: Id)
    requires a in s.actions && a in s'.actions && ActionRefsOk(s, a)
    requires s'.runs.Keys == s.runs.Keys && s'.slots == s.slots && request !in s.requests && request in s'.requests
    requires s'.requests == s.requests[request := s'.requests[request]] && s'.requests[request].action == about
    requires forall r :: r in s.runs ==> s'.runs[r].owner == s.runs[r].owner
    requires about.Some? ==>
               && about.value in s.actions && s.actions[about.value].slot.run == s'.requests[request].run
               && s'.actions == s.actions[about.value := Asked(s.actions[about.value], request)]
    requires about.None? ==> s'.actions == s.actions
    ensures ActionRefsOk(s', a)
  {
  }

  lemma RequestStays(s: Store, s': Store, request: Id, about: Option<Id>, q: Id)
    requires q in s.requests ==> RequestRefsOk(s, q)
    requires s'.runs.Keys == s.runs.Keys && request !in s.requests && request in s'.requests
    requires s'.requests == s.requests[request := s'.requests[request]] && q in s'.requests
    requires s'.requests[request].run in s.runs && s'.requests[request].action == about
    requires about.Some? ==>
               && about.value in s.actions && s.actions[about.value].slot.run == s'.requests[request].run
               && (s.actions[about.value].approval.Some? ==> !ApprovalOpen(s, s.actions[about.value]))
               && s'.actions == s.actions[about.value := Asked(s.actions[about.value], request)]
    requires about.None? ==> s'.actions == s.actions
    ensures RequestRefsOk(s', q)
  {
  }

  lemma RequestViews(s: Store, s': Store, request: Id, about: Option<Id>)
    requires Sound(s) && request !in s.requests && s.runs.Keys <= s'.runs.Keys
    requires request in s'.requests && s'.requests == s.requests[request := s'.requests[request]]
    requires s'.requests[request].status.Pending?
    requires about.Some? ==>
               && about.value in s.actions && s.actions[about.value].status.Ready?
               && !ApprovalOpen(s, s.actions[about.value])
               && s'.actions == s.actions[about.value := Asked(s.actions[about.value], request)]
    requires about.None? ==> s'.actions == s.actions
    ensures ActionsEvolve(s, s', None)
  {
    forall a | a in s.actions ensures StepsTo(a, ViewOf(s, a), ViewOf(s', a), None) {
      assert ActionRefsOk(s, a);
      if about == Some(a) {
        assert Enabled(ViewOf(s, a), AskApproval(request));
      } else {
        assert ViewOf(s', a) == ViewOf(s, a);
      }
    }
    forall a | a in s'.actions && !s'.actions[a].status.Settled()
      ensures a in s.actions && !s.actions[a].status.Settled()
    {
    }
  }

  lemma AskedRunEvolves(r: Run, clarifications: map<nat, Id>, about: Option<Id>)
    requires r.status.Running?
    ensures RunEvolves(r, r.(clarifications := clarifications).Become(RunStatus.WaitingInput)
                       .Append(InputRequested, about))
  {
    BecomeEvolves(r, RunStatus.WaitingInput, InputRequested, about);
  }

  /** Asking makes the Run wait. */
  lemma AskStep(s: Store, s': Store, run: Id, request: Id, about: Option<Id>)
    requires Sound(s) && run in s.runs && s.runs[run].status.Running? && request !in s.requests
    requires run in s'.runs && s'.runs == s.runs[run := s'.runs[run]]
    requires s'.runs[run] == s.runs[run].(clarifications := s'.runs[run].clarifications)
                                        .Become(RunStatus.WaitingInput).Append(InputRequested, about)
    requires s'.now == s.now && s'.jobs == s.jobs && s'.slots == s.slots
    requires request in s'.requests && s'.requests == s.requests[request := s'.requests[request]]
    requires s'.requests[request].run == run && s'.requests[request].action == about
    requires s'.requests[request].status.Pending?
    requires about.Some? ==>
               && about.value in s.actions && s.actions[about.value].slot.run == run
               && s.actions[about.value].status.Ready? && !ApprovalOpen(s, s.actions[about.value])
               && s'.actions == s.actions[about.value := Asked(s.actions[about.value], request)]
    requires about.None? ==> s'.actions == s.actions
    ensures Evolves(s, s', None) && Orderly(s, s')
  {
    hide RunsEvolve, ActionsEvolve, JobsEvolve, Sound, LogOk, LogExtends, BudgetEvolves;
    AskedRunEvolves(s.runs[run], s'.runs[run].clarifications, about);
    RunsOne(s, s', run);
    JobsKept(s, s');
    RequestViews(s, s', request, about);
    RequestArrives(s, s', request, run, about);
  }

  lemma RequestApprovalEvolves(s: Store, owner: Owner, action: Id, expiresAt: nat, request: Id)
    requires Sound(s)
    ensures var s' := RequestApproval(s, owner, action, expiresAt, request).store;
      Evolves(s, s', None) && Orderly(s, s')
  {
    hide Evolves, Orderly, Sound;
    var s' := RequestApproval(s, owner, action, expiresAt, request).store;
    if s' == s { UnchangedEvolves(s); } else { AskStep(s, s', s.actions[action].slot.run, request, Some(action)); }
  }

  lemma RequestClarificationEvolves(s: Store, owner: Owner, run: Id, hash: nat, expiresAt: nat, claim: Option<Claim>,
                                    request: Id)
    requires Sound(s)
    ensures var s' := RequestClarification(s, owner, run, hash, expiresAt, claim, request).store;
            Evolves(s, s', None) && Orderly(s, s')
  {
    hide Evolves, Orderly, Sound;
    var s' := RequestClarification(s, owner, run, hash, expiresAt, claim, request).store;
    if s' == s { UnchangedEvolves(s); } else { AskStep(s, s', run, request, None); }
  }

  /** A pending request is closed; only the Action it was about can notice. */
  lemma RequestCloses(s: Store, s': Store, request: Id, decision: Option<bool>)
    requires Sound(s) && request in s.requests && s.requests[request].status.Pending? && s'.runs.Keys == s.runs.Keys
    requires request in s'.requests && s'.requests == s.requests[request := s'.requests[request]]
    requires !s'.requests[request].status.Pending?
    requires var about := s.requests[request].action;
             s'.actions == if about.Some? && decision.Some? && about.value in s.actions
                           then s.actions[about.value := Decided(s.actions[about.value], decision.value)] else s.actions
    requires decision == Some(true) ==>
               s.requests[request].run in s'.runs && !s'.runs[s.requests[request].run].status.Cancelled?
    ensures ActionsEvolve(s, s', None)
  {
    var about := s.requests[request].action;
    assert RequestRefsOk(s, request);
    forall a | a in s.actions ensures StepsTo(a, ViewOf(s, a), ViewOf(s', a), None) {
      assert ActionRefsOk(s, a);
      if about == Some(a) {
        assert ViewOf(s, a).pending;
        assert Enabled(ViewOf(s, a), if decision.Some? then Decide(decision.value) else Lapse);
      } else {
        assert ViewOf(s', a) == ViewOf(s, a);
      }
    }
    forall a | a in s'.actions && !s'.actions[a].status.Settled()
      ensures (a in s.actions && !s.actions[a].status.Settled())
           || (s'.actions[a].slot.run in s'.runs && !s'.runs[s'.actions[a].slot.run].status.Cancelled?)
    {
      assert about == Some(a) ==> s.actions[a].slot.run == s.requests[request].run;
    }
  }

  /** The request and its Action keep pointing at each other. */
  lemma CloseSound(s: Store, s': Store, request: Id)
    requires Sound(s) && request in s.requests && s'.runs.Keys == s.runs.Keys && s'.slots == s.slots
    requires request in s'.requests && s'.requests == s.requests[request := s'.requests[request]]
    requires var q := s.requests[request];
      s'.requests[request] == q.(status := s'.requests[request].status, version := q.version + 1)
    requires !s'.requests[request].status.Pending?
    requires forall r :: r in s.runs ==>
               s'.runs[r].owner == s.runs[r].owner && s'.runs[r].parent == s.runs[r].parent
                 && s'.runs[r].depth == s.runs[r].depth
    requires s'.actions.Keys == s.actions.Keys && forall a :: a in s.actions ==>
               s'.actions[a] == s.actions[a].(status := s'.actions[a].status, version := s'.actions[a].version)
    requires forall j :: j in s'.jobs ==> s'.jobs[j].run in s'.runs
    ensures Sound(s')
  {
    SoundKept(s, s');
  }

  lemma ExpireStep(s: Store, s': Store, request: Id)
    requires Sound(s) && request in s.requests && s.requests[request].status.Pending?
    requires var q := s.requests[request];
      && q.run in s.runs
      && s' == s.WithRun(q.run, s.runs[q.run].Append(InputExpired, q.action))
                .(requests := s.requests[request := q.(status := RequestStatus.Expired, version := q.version + 1)])
    ensures Evolves(s, s', None) && Orderly(s, s')
  {
    hide RunsEvolve, ActionsEvolve, JobsEvolve, LogOk, LogExtends, BudgetEvolves, ApprovalOpen;
    var run := s.requests[request].run;
    AppendEvolves(s.runs[run], InputExpired, s.requests[request].action);
    RunsOne(s, s', run);
    JobsKept(s, s');
    RequestCloses(s, s', request, None);
    CloseSound(s, s', request);
  }

  /** An answer without its wake-up: the request closes, the Action is decided, the Run moves on or fails. */
  lemma AnswerEvolves(s: Store, s': Store, request: Id, run: Id, denied: bool, approved: bool)
    requires Sound(s) && request in s.requests && s.requests[request].status.Pending? && s.requests[request].run == run
    requires run in s.runs && s.runs[run].status.WaitingInput?
             && (denied ==> !s.HasNonterminalChildren(run) && !approved)
    requires run in s'.runs && s'.runs == s.runs[run := s'.runs[run]]
    requires s'.runs[run] == s.runs[run].Become(if denied then RunStatus.Failed else RunStatus.Queued)
                                        .Append(if denied then InputDenied
                                                else InputAnswered, s.requests[request].action)
    requires request in s'.requests && s'.requests == s.requests[request := s'.requests[request]]
    requires var q := s.requests[request];
             s'.requests[request] == q.(status := if denied then Denied else Answered, version := q.version + 1)
    requires var about := s.requests[request].action;
             s'.actions == if about.Some? && about.value in s.actions
                           then s.actions[about.value := Decided(s.actions[about.value], approved)] else s.actions
    requires s'.now == s.now && s'.jobs == s.jobs && s'.slots == s.slots
    ensures Evolves(s, s', None)
  {
    hide RunsEvolve, ActionsEvolve, JobsEvolve, LogOk, LogExtends, BudgetEvolves, ApprovalOpen, ParentOk;
    BecomeEvolves(s.runs[run], if denied then RunStatus.Failed else RunStatus.Queued,
                  if denied then InputDenied else InputAnswered, s.requests[request].action);
    RunsOne(s, s', run);
    JobsKept(s, s');
    RequestCloses(s, s', request, Some(approved));
    CloseSound(s, s', request);
  }

  lemma FailedOrderly(s: Store, s': Store, run: Id)
    requires run in s.runs && run in s'.runs && s'.runs == s.runs[run := s'.runs[run]] && s'.jobs == s.jobs
    requires s'.runs[run].status.Failed?
    ensures Orderly(s, s')
  {
  }

  lemma RespondEvolves(s: Store, owner: Owner, request: Id, expectedVersion: nat, decision: Decision, content: nat,
                       key: nat, job: Id)
    requires Sound(s)
    ensures var s' := Respond(s, owner, request, expectedVersion, decision, content, key, job).store;
            Evolves(s, s', None) && Orderly(s, s')
  {
    hide Evolves, Orderly, Sound, StepsTo;
    var s' := Respond(s, owner, request, expectedVersion, decision, content, key, job).store;
    if s' == s {
      UnchangedEvolves(s);
    } else {
      var run := s.requests[request].run;
      if s.requests[request].expiresAt <= s.now {
        ExpireStep(s, s', request);
      } else if decision.Deny? {
        AnswerEvolves(s, s', request, run, true, false);
        FailedOrderly(s, s', run);
      } else {
        var mid := s'.(jobs := s.jobs);
        AnswerEvolves(s, mid, request, run, false, decision.Approve?);
        WithWakeUp(s, mid, run, s.requests[request].action, job);
        WakeUpOrderly(s, s', run, job);
      }
    }
  }

  // ---- Budgets and model calls ----

  lemma BudgetStep(s: Store, run: Id, budget: Budget)
    requires Sound(s) && run in s.runs && BudgetEvolves(s.runs[run].budget, budget)
    ensures var s' := s.WithRun(run, s.runs[run].(budget := budget)); Evolves(s, s', None) && Orderly(s, s')
  {
    var s' := s.WithRun(run, s.runs[run].(budget := budget));
    RunStep(s, s', run, s'.runs[run], false);
  }

  lemma ReserveBudgetEvolves(s: Store, run: Id, key: ReservationKey, d: Dimension, amount: int, claim: Option<Claim>)
    requires Sound(s)
    ensures var s' := ReserveBudget(s, run, key, d, amount, claim).store; Evolves(s, s', None) && Orderly(s, s')
  {
    hide Evolves, Orderly, Sound;
    if ReserveBudget(s, run, key, d, amount, claim).store == s {
      UnchangedEvolves(s);
    } else {
      ReserveEvolves(s.runs[run].budget, key, d, amount);
      BudgetStep(s, run, s.runs[run].budget.Reserve(key, d, amount).0);
    }
  }

  lemma SettleBudgetEvolves(s: Store, run: Id, key: ReservationKey, actual: int, claim: Option<Claim>)
    requires Sound(s)
    ensures var s' := SettleBudget(s, run, key, actual, claim).store; Evolves(s, s', None) && Orderly(s, s')
  {
    hide Evolves, Orderly, Sound;
    if SettleBudget(s, run, key, actual, claim).store == s {
      UnchangedEvolves(s);
    } else {
      SettleEvolves(s.runs[run].budget, key, actual);
      BudgetStep(s, run, s.runs[run].budget.Settle(key, actual).0);
    }
  }

  lemma ReleaseBudgetEvolves(s: Store, run: Id, key: ReservationKey, claim: Option<Claim>)
    requires Sound(s)
    ensures var s' := ReleaseBudget(s, run, key, claim).store; Evolves(s, s', None) && Orderly(s, s')
  {
    hide Evolves, Orderly, Sound;
    if ReleaseBudget(s, run, key, claim).store == s {
      UnchangedEvolves(s);
    } else {
      ReleaseEvolves(s.runs[run].budget, key);
      BudgetStep(s, run, s.runs[run].budget.Release(key).0);
    }
  }

  /** A model call is stored and an event about it recorded. */
  lemma CallStep(s: Store, run: Id, calls: map<nat, ModelCall>, kind: EventKind)
    requires Sound(s) && run in s.runs
    ensures var s' := s.WithRun(run, s.runs[run].(calls := calls).Append(kind, None));
      Evolves(s, s', None) && Orderly(s, s')
  {
    var s' := s.WithRun(run, s.runs[run].(calls := calls).Append(kind, None));
    AppendEvolves(s.runs[run], kind, None);
    RunStep(s, s', run, s'.runs[run], false);
  }

  lemma BeginModelCallEvolves(s: Store, owner: Owner, run: Id, turn: nat, maxOutput: nat, claim: Option<Claim>)
    requires Sound(s)
    ensures var s' := BeginModelCall(s, owner, run, turn, maxOutput, claim).store;
      Evolves(s, s', None) && Orderly(s, s')
  {
    hide Evolves, Orderly, Sound;
    var s' := BeginModelCall(s, owner, run, turn, maxOutput, claim).store;
    if s' == s { UnchangedEvolves(s); } else { CallStep(s, run, s'.runs[run].calls, ModelCallStarted); }
  }

  lemma CompleteModelCallEvolves(s: Store, run: Id, turn: nat, tokens: nat, claim: Option<Claim>)
    requires Sound(s)
    ensures var s' := CompleteModelCall(s, run, turn, tokens, claim).store; Evolves(s, s', None) && Orderly(s, s')
  {
    hide Evolves, Orderly, Sound;
    var s' := CompleteModelCall(s, run, turn, tokens, claim).store;
    if s' == s { UnchangedEvolves(s); } else { CallStep(s, run, s'.runs[run].calls, ModelResponseCommitted); }
  }

  lemma MarkModelCallEvolves(s: Store, run: Id, turn: nat, valid: bool, claim: Option<Claim>)
    requires Sound(s)
    ensures var s' := MarkModelCall(s, run, turn, valid, claim).store; Evolves(s, s', None) && Orderly(s, s')
  {
    hide Evolves, Orderly, Sound;
    var s' := MarkModelCall(s, run, turn, valid, claim).store;
    if s' == s { UnchangedEvolves(s); } else { CallStep(s, run, s'.runs[run].calls, ModelCallClosed); }
  }
}
