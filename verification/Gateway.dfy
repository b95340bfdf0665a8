/** The gateway's leased path for ledger-backed writes, as the sequence of transactions it is. */
module Gateway {
  import opened States
  import opened Wrappers
  import opened Vaults
  import opened Records
  import ActionProtocol
  import opened Kernel
  import opened Ledgers
  import opened LocalEffects
  import opened Evolution
  import opened RunControllers
  import opened ResourceStores
  import Acts = ActionTransactions
  import Runs = RunTransactions

  /** What the caller of an execution gets: a stored result, new or replayed, or word that the outcome is unknown. */
  datatype Execution = Settled(action: Id, succeeded: bool, result: Option<ActionResult>, replayed: bool) |
    Unknown(action: Id)

  function RequestFor(hash: nat, revision: nat, write: LocalWrite): Request {
    Request(hash, if write.CreateArtifact? then ArtifactCreate
            else WorkspaceFileWrite, revision, LocalTransactional, Some(write))
  }

  /** The request is one for this ledger-backed write. */
  predicate AsksFor(request: Request, write: LocalWrite) {
    request == RequestFor(request.hash, request.revision, write)
  }

  /** What a settled Action is answered with; any other is being executed by somebody else. */
  function StoredAnswer(action: Id, a: Action): Result<Execution> {
    if a.status.Succeeded? || a.status.Failed? then Ok(Settled(action, a.status.Succeeded?, a.result, true))
      else Err(InvalidOperation)
  }

  /**
   What sending the write of an admitted Action comes to: the reply of the store, once the attempt could be
   opened.
   */
  function SentAnswer(s: Store, v: Vault, owner: Owner, write: LocalWrite, action: Id, claim: Claim,
                      id: Id): Result<Execution>
    requires action in s.actions
  {
    match Acts.BeginDispatch(s, action, Some(claim), Some(ActionKey(action))).result
    case Err(e) => Err(e)
    case Ok(false) => StoredAnswer(action, s.actions[action])
    case Ok(true) =>
      match WriteOp(v, OpOf(owner, write, ActionKey(action), Some(action), id)).1
      case Err(e) => Err(e)
      case Ok(reply) => Ok(Settled(action, true, Some(Envelope(reply)), false))
  }

  /** What an execution answers. */
  function Answer(s: Store, v: Vault, owner: Owner, slot: Slot, request: Request, write: LocalWrite, claim: Claim,
                  action: Id, id: Id)
    : Result<Execution>
  {
    var admitted := Acts.AdmitAction(s, owner, slot, request, Some(claim), action);
    if admitted.result.Err? then Err(admitted.result.error)
    else if admitted.result.value.action !in admitted.store.actions then Err(NotFound)
    else
      var a := admitted.result.value.action;
      match admitted.store.actions[a].status
      case Succeeded => StoredAnswer(a, admitted.store.actions[a])
      case Failed => StoredAnswer(a, admitted.store.actions[a])
      case OutcomeUnknown => Ok(Unknown(a))
      case _ =>
        var running := Runs.EnsureRunning(admitted.store, slot.run, None);
        if running.result.Err? then Err(running.result.error)
        else if a !in running.store.actions then Err(NotFound)
        else SentAnswer(running.store, v, owner, write, a, claim, id)
  }

  /** What opening an attempt under a claim leaves. */
  lemma OpenedRuns(s: Store, action: Id, claim: Claim)
    requires Acts.BeginDispatch(s, action, Some(claim), Some(ActionKey(action))).result == Ok(true)
    ensures var sent := Acts.BeginDispatch(s, action, Some(claim), Some(ActionKey(action))).store;
      && sent.Holds(claim) && Acts.ClaimCovers(sent, claim, action) && action in sent.actions
      && var a := sent.actions[action];
      && a.slot.run in sent.runs && a.status.Running? && a.leaseEpoch == claim.epoch
      && ActionProtocol.LatestIs(a.attempts, AttemptStatus.Started)
  {
    hide LeaseMatches;
  }

  /** An attempt just opened under a claim can be completed under it. */
  lemma OpenedCompletes(s: Store, action: Id, claim: Claim, ok: bool, result: ActionResult)
    requires Acts.BeginDispatch(s, action, Some(claim), Some(ActionKey(action))).result == Ok(true)
    ensures var sent := Acts.BeginDispatch(s, action, Some(claim), Some(ActionKey(action))).store;
      var c := Acts.CompleteAction(sent, action, ok, result, Some(claim));
      && c.result.Ok? && action in c.store.actions && c.store.actions[action].result == Some(result)
      && c.store.actions[action].status == if ok then ActionStatus.Succeeded else ActionStatus.Failed
  {
    OpenedRuns(s, action, claim);
    hide Acts.BeginDispatch, LeaseMatches, Acts.ClaimCovers;
  }

  // ---- Steps of the system ----

  /** The second state is reached some steps after the first ones. */
  ghost predicate Extends(steps: seq<Step>, sys: System) {
    exists more :: Reached(steps + more) == Some(sys)
  }

  /** Wherever the first state is reached, the second is reached from it. */
  ghost predicate Leads(sys: System, sys': System) {
    forall steps :: Reached(steps) == Some(sys) ==> Extends(steps, sys')
  }

  lemma LeadsNowhere(sys: System)
    ensures Leads(sys, sys)
  {
    hide Next;
    forall steps | Reached(steps) == Some(sys) ensures Extends(steps, sys) {
      assert steps + [] == steps;
    }
  }

  lemma LeadsOn(sys: System, sys': System, step: Step)
    requires Leads(sys, sys') && Allowed(sys', step)
    ensures Leads(sys, Next(sys', step))
  {
    hide Next, Allowed;
    forall steps | Reached(steps) == Some(sys) ensures Extends(steps, Next(sys', step)) {
      assert Extends(steps, sys');
      var more :| Reached(steps + more) == Some(sys');
      var all := steps + (more + [step]);
      assert all[..|all| - 1] == steps + more && all[|all| - 1] == step;
    }
  }

  lemma AdmitStep(sys: System, sys': System, owner: Owner, slot: Slot, request: Request, claim: Claim, action: Id)
    requires Leads(sys, sys')
    ensures Leads(sys, sys'.(store := Acts.AdmitAction(sys'.store, owner, slot, request, Some(claim), action).store))
  {
    var tx := Tx.AdmitAction(owner, slot, request, Some(claim), action);
    LeadsOn(sys, sys', Transact(tx));
    hide Leads, Acts.AdmitAction;
    assert Apply(sys'.store, tx) == Acts.AdmitAction(sys'.store, owner, slot, request, Some(claim), action).store;
  }

  lemma EnsureStep(sys: System, sys': System, run: Id)
    requires Leads(sys, sys')
    ensures Leads(sys, sys'.(store := Runs.EnsureRunning(sys'.store, run, None).store))
  {
    var tx := Tx.EnsureRunning(run, None);
    LeadsOn(sys, sys', Transact(tx));
    hide Leads, Runs.EnsureRunning;
    assert Apply(sys'.store, tx) == Runs.EnsureRunning(sys'.store, run, None).store;
  }

  lemma BeginStep(sys: System, sys': System, action: Id, claim: Claim)
    requires Leads(sys, sys') && action in sys'.store.actions && sys'.store.actions[action].LocalReplayable()
    ensures var c := Acts.BeginDispatch(sys'.store, action, Some(claim), Some(ActionKey(action)));
      Leads(sys, System(c.store, sys'.vault, if c.result == Ok(true) then sys'.calls + [Call(action, claim, Opened)]
                        else sys'.calls))
  {
    LeadsOn(sys, sys', Begin(action, claim));
    hide Leads, Acts.BeginDispatch;
  }

  lemma WriteStep(sys: System, sys': System, i: nat, id: Id)
    requires Leads(sys, sys') && i < |sys'.calls| && sys'.calls[i].phase == Opened
    requires Replayable(sys'.store, sys'.calls[i].action)
    ensures var (vault, reply) := WriteOp(sys'.vault, OpFor(sys'.store, sys'.calls[i].action, id));
      Leads(sys, sys'.(vault := vault).Enter(i, if reply.Ok? then Returned(reply.value) else Refused))
  {
    LeadsOn(sys, sys', Write(i, id));
    hide Leads, WriteOp, Replayable;
  }

  lemma CompleteStep(sys: System, sys': System, i: nat)
    requires Leads(sys, sys') && i < |sys'.calls| && (sys'.calls[i].phase.Returned? || sys'.calls[i].phase.Refused?)
    ensures var call := sys'.calls[i]; var answer := call.phase.Answer();
      Leads(sys, sys'.(store := Acts.CompleteAction(sys'.store, call.action, answer.Some?,
        if answer.Some? then Envelope(answer.value) else Opaque(0), Some(call.claim)).store).Enter(i, Finished(answer)))
  {
    LeadsOn(sys, sys', Complete(i));
    hide Leads, Acts.CompleteAction;
  }

  /** The Action in a slot belongs to the owner of the slot's Run. */
  lemma ActionInSlot(s: Store, slot: Slot, owner: Owner)
    requires Sound(s)
    ensures s.Owns(owner, slot.run) && slot in s.slots ==>
              s.slots[slot] in s.actions && s.actions[s.slots[slot]].owner == owner
  {
    if slot in s.slots {
      assert ActionRefsOk(s, s.slots[slot]);
    }
  }

  class ActionGateway {
    const controller: RunController
    const store: ResourceStore
    var dispatchCount: nat

    constructor (controller: RunController, store: ResourceStore)
      ensures this.controller == controller && this.store == store && dispatchCount == 0
    {
      this.controller, this.store, dispatchCount := controller, store, 0;
    }

    function World(calls: seq<Call>): System
      reads this, controller, store
    {
      System(controller.State(), store.State(), calls)
    }

    method Stored(action: Id) returns (r: Result<Execution>)
      requires action in controller.actions
      ensures r == StoredAnswer(action, controller.actions[action])
    {
      var a := controller.actions[action];
      if a.status.Succeeded? || a.status.Failed? { return Ok(Settled(action, a.status.Succeeded?, a.result, true)); }
      r := Err(InvalidOperation);
    }

    /** Carry out a bound write under the key of its Action. */
    method Write(owner: Owner, write: LocalWrite, action: Id, id: Id) returns (r: Result<Reply>)
      modifies store
      ensures (store.State(), r) == WriteOp(old(store.State()), OpOf(owner, write, ActionKey(action), Some(action), id))
    {
      match write {
        case CreateArtifact(content, mediaType) =>
          r := store.CreateArtifact(owner, content, mediaType, ActionKey(action), Some(action), id);
        case WriteFile(workspace, path, content, ifMatch, ifNoneMatch) =>
          r := store.WriteFile(owner, workspace, path, content, ActionKey(action), ifMatch, ifNoneMatch, Some(action),
                               id);
      }
    }

    /** Open the attempt under the Action's key, carry the write out and record its reply. */
    method Send(owner: Owner, write: LocalWrite, action: Id, claim: Claim, id: Id, ghost start: System,
                ghost others: seq<Call>)
      returns (r: Result<Execution>, ghost calls: seq<Call>)
      requires Leads(start, World(others))
      requires action in controller.actions && controller.actions[action].owner == owner
      requires AsksFor(controller.actions[action].request, write)
      modifies this, controller, store
      ensures Leads(start, World(calls))
      ensures dispatchCount - old(dispatchCount) == |calls| - |others|
      ensures calls == others ==> store.State() == old(store.State())
      ensures r == SentAnswer(old(controller.State()), old(store.State()), owner, write, action, claim, id)
      ensures r.Ok? && r.value.Settled? ==>
                Tells(r.value) && (!r.value.replayed ==> r.value.succeeded && |calls| == |others| + 1)
    {
      hide Leads, Apply, Reached, Next, Allowed, Extends;
      calls := others;
      ghost var before := World(others);
      var begun := controller.BeginDispatch(action, Some(claim), Some(ActionKey(action)));
      BeginStep(start, before, action, claim);
      if begun.Err? { return Err(begun.error), calls; }
      if !begun.value {
        r := Stored(action);
        return r, calls;
      }
      dispatchCount := dispatchCount + 1;
      r, calls := Carry(owner, write, action, claim, id, before.store, start, others);
    }

    /** Carry out the write of an opened attempt and record what came of it. */
    method Carry(owner: Owner, write: LocalWrite, action: Id, claim: Claim, id: Id, ghost before: Store,
                 ghost start: System, ghost others: seq<Call>) returns (r: Result<Execution>, ghost calls: seq<Call>)
      requires Acts.BeginDispatch(before, action, Some(claim), Some(ActionKey(action))) ==
                 Commit(controller.State(), Ok(true))
      requires Leads(start, World(others + [Call(action, claim, Opened)]))
      requires action in controller.actions && controller.actions[action].owner == owner
      requires AsksFor(controller.actions[action].request, write)
      modifies controller, store
      ensures Leads(start, World(calls)) && |calls| == |others| + 1
      ensures r == match WriteOp(old(store.State()), OpOf(owner, write, ActionKey(action), Some(action), id)).1
                   case Err(e) => Err(e)
                   case Ok(reply) => Ok(Settled(action, true, Some(Envelope(reply)), false))
      ensures r.Ok? ==> r.value.Settled? && Tells(r.value) && r.value.succeeded && !r.value.replayed
    {
      hide Leads, Apply, Reached, Next, Allowed, Extends, Acts.BeginDispatch, Acts.CompleteAction;
      calls := others + [Call(action, claim, Opened)];
      ghost var sent := World(calls);
      var reply := Write(owner, write, action, id);
      WriteStep(start, sent, |others|, id);
      hide WriteOp, OpFor, OpOf;
      calls := calls[|others| := Call(action, claim, if reply.Ok? then Returned(reply.value) else Refused)];
      ghost var written := World(calls);
      CompleteStep(start, written, |others|);
      calls := calls[|others| := Call(action, claim, Finished(if reply.Ok? then Some(reply.value) else None))];
      OpenedCompletes(before, action, claim, reply.Ok?, if reply.Ok? then Envelope(reply.value) else Opaque(0));
      if reply.Err? {
        var failed := controller.CompleteAction(action, false, Opaque(0), Some(claim));
        return Err(reply.error), calls;
      }
      var done := controller.CompleteAction(action, true, Envelope(reply.value), Some(claim));
      assert done.Ok?;
      r := Ok(Settled(action, true, controller.actions[action].result, false));
    }

    /** The answer is what the Action's row says. */
    predicate Tells(e: Execution)
      reads controller
    {
      e.Settled? ==>
        && e.action in controller.actions
        && var a := controller.actions[e.action];
           a.result == e.result && a.status == (if e.succeeded then ActionStatus.Succeeded else ActionStatus.Failed)
    }

    /** Equal fingerprints in one slot come from equal requests. */
    predicate Fingerprinted(slot: Slot, request: Request)
      reads controller
    {
      slot in controller.slots && controller.slots[slot] in controller.actions ==>
        var known := controller.actions[controller.slots[slot]].request;
        known.hash == request.hash && known.capability == request.capability && known.revision == request.revision ==>
          known == request
    }

    /** Find the Action of the slot, or record it. */
    method Admit(owner: Owner, slot: Slot, request: Request, claim: Claim, action: Id,
                 ghost calls: seq<Call>) returns (r: Result<Id>)
      requires Sound(controller.State()) && Fingerprinted(slot, request)
      modifies controller
      ensures Leads(old(World(calls)), World(calls))
      ensures r.Ok? ==>
                r.value in controller.actions && controller.actions[r.value].owner == owner
                && controller.actions[r.value].request == request
      ensures var c := Acts.AdmitAction(old(controller.State()), owner, slot, request, Some(claim), action);
        controller.State() == c.store && r == if c.result.Err? then Err(c.result.error) else Ok(c.result.value.action)
    {
      hide Leads, Apply, Reached, Next, Allowed, Extends, Store.Fence, Sound;
      LeadsNowhere(World(calls));
      AdmitStep(World(calls), World(calls), owner, slot, request, claim, action);
      ActionInSlot(controller.State(), slot, owner);
      var admission := controller.AdmitAction(owner, slot, request, Some(claim), action);
      if admission.Err? { return Err(admission.error); }
      r := Ok(admission.value.action);
    }

    /** Start the Run if it is still queued. */
    method Ensure(run: Id, ghost start: System, ghost calls: seq<Call>) returns (r: Result<RunStatus>)
      requires Leads(start, World(calls))
      modifies controller
      ensures Leads(start, World(calls)) && controller.actions == old(controller.actions)
      ensures Commit(controller.State(), r) == Runs.EnsureRunning(old(controller.State()), run, None)
    {
      hide Leads, Apply, Reached, Next, Allowed, Extends, Store.Fence;
      EnsureStep(start, World(calls), run);
      r := controller.EnsureRunning(run, None);
    }

    /**
     Execute a ledger-backed write under a lease. A settled Action is answered from its row and nothing is
     sent; otherwise the attempt is opened, the write carried out under the Action's key and its reply
     recorded. Each execution is a sequence of steps of the system of workers, `calls` telling what it opened.
     */
    method Execute(owner: Owner, slot: Slot, hash: nat, revision: nat, write: LocalWrite, claim: Claim, action: Id,
                   id: Id,
                   ghost others: seq<Call>) returns (r: Result<Execution>, ghost calls: seq<Call>)
      requires Sound(controller.State()) && Fingerprinted(slot, RequestFor(hash, revision, write))
      modifies this, controller, store
      ensures Leads(old(World(others)), World(calls))
      ensures dispatchCount - old(dispatchCount) == |calls| - |others|
      ensures calls == others ==> store.State() == old(store.State())
      ensures r == Answer(old(controller.State()), old(store.State()), owner, slot, RequestFor(hash, revision, write),
                          write, claim, action, id)
      ensures r.Ok? ==> Tells(r.value)
      ensures r.Ok? && r.value.Settled? && !r.value.replayed ==> r.value.succeeded && |calls| == |others| + 1
    {
      hide Leads, Apply, Reached, Next, Allowed, Extends, Sound, Store.Fence, Acts.AdmitAction, Runs.EnsureRunning,
           SentAnswer;
      calls := others;
      ghost var start := World(others);
      var admitted := Admit(owner, slot, RequestFor(hash, revision, write), claim, action, others);
      if admitted.Err? { return Err(admitted.error), calls; }
      match controller.actions[admitted.value].status {
        case Succeeded => r := Stored(admitted.value); return r, calls;
        case Failed => r := Stored(admitted.value); return r, calls;
        case OutcomeUnknown => return Ok(Unknown(admitted.value)), calls;
        case _ =>
          var running := Ensure(slot.run, start, others);
          if running.Err? { return Err(running.error), calls; }
          r, calls := Send(owner, write, admitted.value, claim, id, start, others);
      }
    }
  }
}
