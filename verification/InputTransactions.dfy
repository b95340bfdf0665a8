/** Approvals and clarifications: a Run waits, a person answers, the Run wakes up or ends. */
module InputTransactions {
  import opened States
  import opened Wrappers
  import opened Vaults
  import opened Records
  import opened ActionProtocol

  predicate ApprovalOpen(s: Store, a: Action) {
    && a.approval.Some? && a.approval.value in s.requests && s.requests[a.approval.value].status.Pending?
  }

  function RequestApproval(s: Store, owner: Owner, action: Id, expiresAt: nat, request: Id): Commit<Id> {
    if expiresAt <= s.now then Abort(s, InputRequestExpired)
    else if !s.OwnsAction(owner, action) then Abort(s, NotFound)
    else
      var a := s.actions[action];
      var run := a.slot.run;
      if run !in s.runs then Abort(s, NotFound)
      else if ApprovalOpen(s, a) then Commit(s, Ok(a.approval.value))
      else if !a.status.Ready? then Abort(s, VersionConflict)
      else if !s.runs[run].status.Running? then Abort(s, AlreadyTerminal)
      else if request in s.requests then Abort(s, DuplicateKey)
      else
        Commit(s.WithAction(action, Asked(a, request))
                .WithRun(run, s.runs[run].Become(RunStatus.WaitingInput).Append(InputRequested, Some(action)))
                .(requests := s.requests[request :=
                    InputRequest(owner, run, Some(action), Pending, 0, a.request.hash, Some(a.request.revision),
                                 expiresAt)]),
               Ok(request))
  }

  function RequestClarification(s: Store, owner: Owner, run: Id, hash: nat, expiresAt: nat, claim: Option<Claim>,
                                request: Id): Commit<Id>
  {
    if expiresAt <= s.now then Abort(s, InputRequestExpired)
    else if !s.Fence(claim, AdvanceRun, run) then Abort(s, LeaseLost)
    else if !s.Owns(owner, run) then Abort(s, NotFound)
    else
      var r := s.runs[run];
      if hash in r.clarifications then Commit(s, Ok(r.clarifications[hash]))
      else if !r.status.Running? then Abort(s, AlreadyTerminal)
      else if request in s.requests then Abort(s, DuplicateKey)
      else
        var r' := r.(clarifications := r.clarifications[hash := request]);
        Commit(s.WithRun(run, r'.Become(RunStatus.WaitingInput).Append(InputRequested, None))
                .(requests := s.requests[request := InputRequest(owner, run, None, Pending, 0, hash, None, expiresAt)]),
               Ok(request))
  }

  /**
   Answer a pending request. The Action's status is written without looking at it; the Run must be
   waiting, and wakes up with a new job unless the answer is a denial. An expired request is closed
   and committed although the caller gets an error.
   */
  function Respond(s: Store, owner: Owner, request: Id, expectedVersion: nat, decision: Decision, content: nat,
                   key: nat, job: Id): Commit<RequestStatus>
  {
    var at := ResponseKey(owner, key);
    var response := Response(request, expectedVersion, decision, content);
    if at in s.responses then
      if s.responses[at] != response then Abort(s, IdempotencyConflict)
      else if request !in s.requests then Abort(s, NotFound)
      else Commit(s, Ok(s.requests[request].status))
    else if request !in s.requests || s.requests[request].owner != owner then Abort(s, NotFound)
    else
      var q := s.requests[request];
      var run := q.run;
      if q.version != expectedVersion || !q.status.Pending? then Abort(s, VersionConflict)
      else if run !in s.runs then Abort(s, NotFound)
      else
        var r := s.runs[run];
        if q.expiresAt <= s.now then
          Commit(s.WithRun(run, r.Append(InputExpired, q.action))
                  .(requests := s.requests[request := q.(status := RequestStatus.Expired, version := q.version + 1)]),
                 Err(InputRequestExpired))
        else if q.action.Some? && decision.Submit? then Abort(s, VersionConflict)
        else if q.action.None? && !decision.Submit? then Abort(s, VersionConflict)
        else if q.action.Some? && q.action.value !in s.actions then Abort(s, NotFound)
        else if q.action.Some? && !q.Fits(s.actions[q.action.value].request)
        then Abort(s, ApprovalRequired)
        else if !r.status.WaitingInput? then Abort(s, VersionConflict)
        else if decision.Deny? && s.HasNonterminalChildren(run) then Abort(s, VersionConflict)
        else if !decision.Deny? && job in s.jobs then Abort(s, DuplicateKey)
        else
          var status := if decision.Deny? then Denied else Answered;
          var next := if decision.Deny? then RunStatus.Failed else RunStatus.Queued;
          Commit(s.WithRun(run, r.Become(next).Append(if decision.Deny? then InputDenied else InputAnswered, q.action))
                  .(requests := s.requests[request := q.(status := status, version := q.version + 1)],
                    responses := s.responses[at := response],
                    actions := if q.action.Some?
                               then s.actions[q.action.value := Decided(s.actions[q.action.value], decision.Approve?)]
                               else s.actions,
                    jobs := if decision.Deny? then s.jobs
                            else s.jobs[job := NewJob(AdvanceRun, run, q.action, s.now)]),
                 Ok(status))
  }
}
