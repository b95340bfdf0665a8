/**
 Ledger-backed effects at most once. Workers dispatch bound local writes under leases; leases expire,
 others take over, responses are lost and late writes of overtaken workers still arrive. The stable key
 of the Action makes all of them one effect, and a cancellation can read from the ledger whether it happened.
 */
module LocalEffects {
  import opened Wrappers
  import opened Vaults
  import opened Records
  import opened ActionProtocol
  import opened Evolution
  import opened Kernel
  import opened KernelEvolution
  import opened Ledgers
  import FileHistory
  import Acts = ActionTransactions

  // ---- The system ----

  /** Where a gateway call stands: dispatched, answered by the store, refused by it, or reported back. */
  datatype Phase = Opened | Returned(reply: Reply) | Refused | Finished(answer: Option<Reply>)
  {
    /** What the store answered, also long after it was reported. */
    function Answer(): Option<Reply> {
      match this
      case Returned(reply) => Some(reply)
      case Finished(answer) => answer
      case _ => None
    }
  }

  datatype Call = Call(action: Id, claim: Claim, phase: Phase)

  datatype System = System(store: Store, vault: Vault, calls: seq<Call>)
  {
    function Enter(i: nat, phase: Phase): System
      requires i < |calls|
    {
      this.(calls := calls[i := calls[i].(phase := phase)])
    }
  }

  datatype Step =
    | Transact(tx: Tx)                                    // any transaction of the kernel
    | Client(op: Op)                                      // a direct write under a client's key
    | Begin(action: Id, claim: Claim)                     // a leased dispatch
    | Write(i: nat, id: Id)                               // its write reaches the store, perhaps very late
    | Complete(i: nat)                                    // its outcome is reported
    | ReadReceipt(owner: Owner, action: Id, claim: Claim) // a cancellation reads the receipt

  predicate Allowed(sys: System, step: Step) {
    match step
    case Transact(tx) =>
      // Leased dispatches, and the outcomes of Actions dispatched under a lease, come from the steps below.
      && !tx.ReconcileLocal?
      && (tx.BeginDispatch? ==> tx.key != Some(ActionKey(tx.action)))
      && (tx.CompleteAction? && tx.action in sys.store.actions ==>
          sys.store.actions[tx.action].key != Some(ActionKey(tx.action)))
    case Client(op) => !op.key.ActionKey?
    case _ => true
  }

  /** The Action is one a leased gateway may carry out. */
  predicate Replayable(s: Store, a: Id) {
    a in s.actions && s.actions[a].LocalReplayable() && Acts.BoundFor(s.actions[a].request)
  }

  function KeyOf(s: Store, a: Id): LedgerKey
    requires Replayable(s, a)
  {
    LedgerKey(s.actions[a].owner, s.actions[a].request.bound.value.Where(), ActionKey(a))
  }

  function OpFor(s: Store, a: Id, id: Id): Op
    requires Replayable(s, a)
  {
    OpOf(s.actions[a].owner, s.actions[a].request.bound.value, ActionKey(a), Some(a), id)
  }

  ghost function Next(sys: System, step: Step): System {
    match step
    case Transact(tx) => sys.(store := Apply(sys.store, tx))
    case Client(op) => sys.(vault := WriteOp(sys.vault, op).0)
    case Begin(action, claim) =>
      if action !in sys.store.actions || !sys.store.actions[action].LocalReplayable() then sys
      else
        var c := Acts.BeginDispatch(sys.store, action, Some(claim), Some(ActionKey(action)));
        System(c.store, sys.vault, if c.result == Ok(true) then sys.calls + [Call(action, claim, Opened)]
               else sys.calls)
    case Write(i, id) =>
      if i >= |sys.calls| || sys.calls[i].phase != Opened then sys
      else if !Replayable(sys.store, sys.calls[i].action) then sys.Enter(i, Refused)
      else
        var (vault, reply) := WriteOp(sys.vault, OpFor(sys.store, sys.calls[i].action, id));
        sys.(vault := vault).Enter(i, if reply.Ok? then Returned(reply.value) else Refused)
    case Complete(i) =>
      if i >= |sys.calls| then sys
      else
        var call := sys.calls[i];
        var answer := call.phase.Answer();
        if !call.phase.Returned? && !call.phase.Refused? then sys
        else
          var result := if answer.Some? then Envelope(answer.value) else Opaque(0);
          sys.(store := Acts.CompleteAction(sys.store, call.action, answer.Some?, result, Some(call.claim)).store)
             .Enter(i, Finished(answer))
    case ReadReceipt(owner, action, claim) =>
      sys.(store := Acts.ReconcileLocal(sys.store, sys.vault, owner, action, claim).store)
  }

  // ---- Invariants ----

  /** A row under an Action's key is the receipt of that Action's bound write. */
  ghost predicate RowIsActions(s: Store, v: Vault, at: LedgerKey)
    requires at in v.ledger
  {
    at.key.ActionKey? ==>
      var a := at.key.action;
      && Replayable(s, a) && at == KeyOf(s, a)
      && WellFormed(OpFor(s, a, 0)) && v.ledger[at].hash == s.actions[a].request.bound.value.Hash()
      && v.ledger[at].resource in v.artifacts && v.artifacts[v.ledger[at].resource].source == Some(a)
  }

  /** The reply is the one the ledger holds for this Action. */
  predicate Recorded(s: Store, v: Vault, a: Id, reply: Reply) {
    && Replayable(s, a) && KeyOf(s, a) in v.ledger
    && reply == Reply(v.ledger[KeyOf(s, a)].status, v.ledger[KeyOf(s, a)].body)
  }

  ghost predicate CallOk(s: Store, v: Vault, call: Call) {
    && call.action in s.actions && s.actions[call.action].LocalReplayable()
    && (call.phase.Answer().Some? ==> Recorded(s, v, call.action, call.phase.Answer().value))
  }

  /** The Action was dispatched under a lease, and has the store's reply as its result. */
  predicate Answered(a: Id, action: Action) {
    action.key == Some(ActionKey(a)) && action.status.Succeeded? && action.result.Some? && action.result.value.Envelope?
  }

  ghost predicate ResultOk(s: Store, v: Vault, a: Id)
    requires a in s.actions
  {
    Answered(a, s.actions[a]) ==> Recorded(s, v, a, s.actions[a].result.value.reply)
  }

  ghost predicate SystemOk(sys: System) {
    && Sound(sys.store) && VaultOk(sys.vault)
    && (forall at {:trigger RowIsActions(sys.store, sys.vault, at)} :: at in sys.vault.ledger ==>
        RowIsActions(sys.store, sys.vault, at))
    && (forall i :: 0 <= i < |sys.calls| ==> CallOk(sys.store, sys.vault, sys.calls[i]))
    && (forall a {:trigger ResultOk(sys.store, sys.vault, a)} :: a in sys.store.actions ==>
        ResultOk(sys.store, sys.vault, a))
  }

  // ---- Steps of the kernel ----

  /** What a transaction may do to an Action, as far as this protocol cares. */
  ghost predicate ActionKept(a: Id, action: Action, action': Action, cause: Option<Cause>) {
    && action'.owner == action.owner && action'.request == action.request
    && (Answered(a, action') ==>
          || (Answered(a, action) && action'.result == action.result)
          || (action.key == Some(ActionKey(a)) && action'.result.Some? && action'.result.value.Envelope?
              && cause == Some(Cause(a, Close(true, action'.result.value)))))
  }

  lemma MoveKeepsAction(a: Id, v: View, v': View, cause: Option<Cause>)
    requires StepsTo(a, v, v', cause)
    ensures ActionKept(a, v.action, v'.action, cause)
  {
  }

  lemma FreshNotAnswered(a: Id, v: View)
    requires Fresh(v)
    ensures !Answered(a, v.action)
  {
  }

  /** A kernel step, when every reply it stores as a result is the recorded one. */
  lemma StoreStep(sys: System, s': Store, cause: Option<Cause>)
    requires SystemOk(sys) && Sound(s') && ActionsEvolve(sys.store, s', cause)
    requires cause.Some? && cause.value.move.Close? && cause.value.move.ok && cause.value.move.result.Envelope?
             && cause.value.action in sys.store.actions
             && sys.store.actions[cause.value.action].key == Some(ActionKey(cause.value.action))
             ==> Recorded(sys.store, sys.vault, cause.value.action, cause.value.move.result.reply)
    ensures SystemOk(sys.(store := s'))
  {
    hide Sound, VaultOk, StepsTo, Fresh, Answered;
    var s, v := sys.store, sys.vault;
    forall a | a in s.actions ensures ActionKept(a, s.actions[a], s'.actions[a], cause) {
      MoveKeepsAction(a, ViewOf(s, a), ViewOf(s', a), cause);
    }
    forall at | at in v.ledger ensures RowIsActions(s', v, at) { assert RowIsActions(s, v, at); }
    forall i | 0 <= i < |sys.calls| ensures CallOk(s', v, sys.calls[i]) { assert CallOk(s, v, sys.calls[i]); }
    forall a | a in s'.actions ensures ResultOk(s', v, a) {
      if a in s.actions {
        assert ResultOk(s, v, a) && ActionKept(a, s.actions[a], s'.actions[a], cause);
      } else {
        FreshNotAnswered(a, ViewOf(s', a));
      }
    }
  }

  /** The environment's transactions close no Action that was dispatched under a lease. */
  lemma TransactKeeps(sys: System, tx: Tx)
    requires SystemOk(sys) && Allowed(sys, Transact(tx))
    ensures SystemOk(Next(sys, Transact(tx)))
  {
    hide Apply, SystemOk, Recorded;
    assert Sound(sys.store) by { SystemSound(sys); }
    StepParts(sys.store, tx);
    StoreStep(sys, Apply(sys.store, tx), CauseOf(sys.store, tx));
  }

  lemma SystemSound(sys: System)
    requires SystemOk(sys)
    ensures Sound(sys.store) && VaultOk(sys.vault)
  {
    hide Sound, VaultOk;
  }

  // ---- Steps of the store ----

  /** A write that grows the tables and records no other Action's receipt. */
  lemma VaultStep(sys: System, v': Vault)
    requires SystemOk(sys) && VaultOk(v') && Grows(sys.vault, v')
    requires forall at :: at in v'.ledger && at !in sys.vault.ledger ==> RowIsActions(sys.store, v', at)
    ensures SystemOk(sys.(vault := v'))
  {
    hide Sound, VaultOk, Answered;
    var s, v := sys.store, sys.vault;
    forall at | at in v'.ledger ensures RowIsActions(s, v', at) {
      if at in v.ledger { assert RowIsActions(s, v, at); }
    }
    forall i | 0 <= i < |sys.calls| ensures CallOk(s, v', sys.calls[i]) { assert CallOk(s, v, sys.calls[i]); }
    forall a | a in s.actions ensures ResultOk(s, v', a) { assert ResultOk(s, v, a); }
  }

  lemma ClientKeeps(sys: System, op: Op)
    requires SystemOk(sys) && !op.key.ActionKey?
    ensures SystemOk(sys.(vault := WriteOp(sys.vault, op).0))
  {
    hide WriteOp, SystemOk, VaultOk;
    SystemSound(sys);
    WriteKeepsOk(sys.vault, op);
    WriteGrows(sys.vault, op);
    CommitsOrUnchanged(sys.vault, op);
    VaultStep(sys, WriteOp(sys.vault, op).0);
  }

  lemma OpForIs(s: Store, a: Id, id: Id)
    requires Replayable(s, a)
    ensures OpFor(s, a, id).At() == KeyOf(s, a) && OpFor(s, a, id).Hash() == s.actions[a].request.bound.value.Hash()
    ensures OpFor(s, a, id).key == ActionKey(a) && OpFor(s, a, id).source == Some(a)
    ensures WellFormed(OpFor(s, a, id)) <==> WellFormed(OpFor(s, a, 0))
  {
  }

  /** A successful write of an Action leaves its receipt, old or new, and answers with it. */
  lemma WriteRecords(sys: System, a: Id, id: Id)
    requires SystemOk(sys) && Replayable(sys.store, a)
    ensures var (v', reply) := WriteOp(sys.vault, OpFor(sys.store, a, id));
      SystemOk(sys.(vault := v')) && (reply.Ok? ==> Recorded(sys.store, v', a, reply.value))
  {
    hide WriteOp, SystemOk, VaultOk, OpFor;
    var op := OpFor(sys.store, a, id);
    var v' := WriteOp(sys.vault, op).0;
    OpForIs(sys.store, a, id);
    SystemSound(sys);
    WriteKeepsOk(sys.vault, op);
    WriteGrows(sys.vault, op);
    CommitsOrUnchanged(sys.vault, op);
    if Commits(sys.vault, op) { CommittedIsWellFormed(sys.vault, op); }
    VaultStep(sys, v');
    if WriteOp(sys.vault, op).1.Ok? && op.At() in sys.vault.ledger {
      RowHash(sys, a);
      ReplayAnswersFromLedger(sys.vault, op);
    }
  }

  lemma RowHash(sys: System, a: Id)
    requires SystemOk(sys) && Replayable(sys.store, a) && KeyOf(sys.store, a) in sys.vault.ledger
    ensures sys.vault.ledger[KeyOf(sys.store, a)].hash == sys.store.actions[a].request.bound.value.Hash()
    ensures RowIsActions(sys.store, sys.vault, KeyOf(sys.store, a)) && RowOk(sys.vault, KeyOf(sys.store, a))
  {
    hide Sound;
    assert RowIsActions(sys.store, sys.vault, KeyOf(sys.store, a)) && RowOk(sys.vault, KeyOf(sys.store, a));
  }

  lemma EnterKeeps(sys: System, i: nat, phase: Phase)
    requires SystemOk(sys) && i < |sys.calls|
    requires phase.Answer().Some? ==> Recorded(sys.store, sys.vault, sys.calls[i].action, phase.Answer().value)
    ensures SystemOk(sys.Enter(i, phase))
  {
    hide Sound, VaultOk, Recorded, ResultOk, RowIsActions;
  }

  lemma WriteKeeps(sys: System, i: nat, id: Id)
    requires SystemOk(sys)
    ensures SystemOk(Next(sys, Write(i, id)))
  {
    hide SystemOk, WriteOp, OpFor, Recorded;
    if i < |sys.calls| && sys.calls[i].phase == Opened {
      var a := sys.calls[i].action;
      if Replayable(sys.store, a) {
        WriteRecords(sys, a, id);
        var (v', reply) := WriteOp(sys.vault, OpFor(sys.store, a, id));
        EnterKeeps(sys.(vault := v'), i, if reply.Ok? then Returned(reply.value) else Refused);
      } else {
        EnterKeeps(sys, i, Refused);
      }
    }
  }

  // ---- Leased dispatch, completion, receipt ----

  lemma StoreTxKeeps(sys: System, tx: Tx, s': Store)
    requires SystemOk(sys) && s' == Apply(sys.store, tx)
    requires var cause := CauseOf(sys.store, tx);
             cause.Some? && cause.value.move.Close? && cause.value.move.ok && cause.value.move.result.Envelope?
             && cause.value.action in sys.store.actions
             && sys.store.actions[cause.value.action].key == Some(ActionKey(cause.value.action))
             ==> Recorded(sys.store, sys.vault, cause.value.action, cause.value.move.result.reply)
    ensures SystemOk(sys.(store := s'))
  {
    hide Apply, SystemOk, Recorded;
    SystemSound(sys);
    StepParts(sys.store, tx);
    StoreStep(sys, s', CauseOf(sys.store, tx));
  }

  lemma BeginKeeps(sys: System, action: Id, claim: Claim)
    requires SystemOk(sys)
    ensures SystemOk(Next(sys, Begin(action, claim)))
  {
    hide Recorded, Sound, VaultOk, RowIsActions, ResultOk, Acts.BeginDispatch;
    if action in sys.store.actions && sys.store.actions[action].LocalReplayable() {
      var tx := BeginDispatch(action, Some(claim), Some(ActionKey(action)));
      var c := Acts.BeginDispatch(sys.store, action, Some(claim), Some(ActionKey(action)));
      assert c.store == Apply(sys.store, tx);
      StoreTxKeeps(sys, tx, c.store);
      StepKeepsRequest(sys.store, tx, action);
      hide Apply;
    }
  }

  lemma StepKeepsRequest(s: Store, tx: Tx, a: Id)
    requires Sound(s) && a in s.actions
    ensures a in Apply(s, tx).actions && Apply(s, tx).actions[a].request == s.actions[a].request
  {
    hide Apply, Sound, RunsEvolve, JobsEvolve, StepsTo, Fresh, Answered;
    StepParts(s, tx);
    MoveKeepsAction(a, ViewOf(s, a), ViewOf(Apply(s, tx), a), CauseOf(s, tx));
  }

  lemma CallIsOk(sys: System, i: nat)
    requires SystemOk(sys) && i < |sys.calls|
    ensures CallOk(sys.store, sys.vault, sys.calls[i])
  {
    hide Sound, VaultOk, RowIsActions, ResultOk;
  }

  lemma CompleteKeeps(sys: System, i: nat)
    requires SystemOk(sys)
    ensures SystemOk(Next(sys, Complete(i)))
  {
    hide Sound, VaultOk, RowIsActions, ResultOk, Acts.CompleteAction, Recorded;
    if i < |sys.calls| && (sys.calls[i].phase.Returned? || sys.calls[i].phase.Refused?) {
      var call := sys.calls[i];
      assert CallOk(sys.store, sys.vault, call);
      var ok := call.phase.Returned?;
      var result := if ok then Envelope(call.phase.reply) else Opaque(0);
      var tx := CompleteAction(call.action, ok, result, Some(call.claim));
      var c := Acts.CompleteAction(sys.store, call.action, ok, result, Some(call.claim));
      assert c.store == Apply(sys.store, tx);
      hide Apply, SystemOk;
      StoreTxKeeps(sys, tx, c.store);
      CallIsOk(sys.(store := c.store), i);
      EnterKeeps(sys.(store := c.store), i, Finished(call.phase.Answer()));
    }
  }

  /** The receipt of an Action, if there is one, is recorded. */
  lemma ReadReceiptKeeps(sys: System, owner: Owner, action: Id, claim: Claim)
    requires SystemOk(sys)
    ensures SystemOk(Next(sys, ReadReceipt(owner, action, claim)))
  {
    hide SystemOk;
    var tx := ReconcileLocal(sys.vault, owner, action, claim);
    var c := Acts.ReconcileLocal(sys.store, sys.vault, owner, action, claim);
    assert c.store == Apply(sys.store, tx);
    hide Apply;
    if c.store != sys.store {
      StoreTxKeeps(sys, tx, c.store);
    }
  }

  lemma NextKeeps(sys: System, step: Step)
    requires SystemOk(sys) && Allowed(sys, step)
    ensures SystemOk(Next(sys, step))
  {
    hide SystemOk, Next, Allowed;
    match step
    case Transact(tx) => TransactKeeps(sys, tx);
    case Client(op) => ClientStep(sys, op);
    case Begin(action, claim) => BeginKeeps(sys, action, claim);
    case Write(i, id) => WriteKeeps(sys, i, id);
    case Complete(i) => CompleteKeeps(sys, i);
    case ReadReceipt(owner, action, claim) => ReadReceiptKeeps(sys, owner, action, claim);
  }

  lemma ClientStep(sys: System, op: Op)
    requires SystemOk(sys) && Allowed(sys, Client(op))
    ensures SystemOk(Next(sys, Client(op)))
  {
    hide SystemOk, WriteOp;
    ClientKeeps(sys, op);
  }

  ghost function Reached(steps: seq<Step>): Option<System> {
    if steps == [] then Some(System(EMPTY_STORE, EMPTY_VAULT, []))
    else
      var before, step := Reached(steps[..|steps| - 1]), steps[|steps| - 1];
      if before.Some? && Allowed(before.value, step) then Some(Next(before.value, step)) else None
  }

  lemma {:induction false} ReachedOk(steps: seq<Step>, sys: System)
    requires Reached(steps) == Some(sys)
    ensures SystemOk(sys)
  {
    if steps == [] {
      EmptySound();
    } else {
      hide SystemOk, Next, Allowed;
      var before := Reached(steps[..|steps| - 1]).value;
      ReachedOk(steps[..|steps| - 1], before);
      NextKeeps(before, steps[|steps| - 1]);
    }
  }

  // ---- The promises ----

  /**
   However leases expire, workers are overtaken, responses are lost and late writes arrive: an Action has
   at most one row in the ledger, with one artifact behind it; every attempt that was answered got the
   same status and snapshot, the row's; and so did the Action, if it succeeded with an answer.
   */
  lemma LeasedEffectsHappenOnce(steps: seq<Step>, sys: System, a: Id, at: LedgerKey, other: LedgerKey)
    requires Reached(steps) == Some(sys)
    requires at in sys.vault.ledger && other in sys.vault.ledger && at.key == ActionKey(a) == other.key
    ensures at == other
    ensures var row := sys.vault.ledger[at];
      && a in sys.store.actions && sys.store.actions[a].request.bound.Some?
      && row.hash == sys.store.actions[a].request.bound.value.Hash() && at.owner == sys.store.actions[a].owner
      && row.resource in sys.vault.artifacts && sys.vault.artifacts[row.resource].source == Some(a)
      && (forall i :: 0 <= i < |sys.calls| && sys.calls[i].action == a && sys.calls[i].phase.Answer().Some?
            ==> sys.calls[i].phase.Answer().value == Reply(row.status, row.body))
      && (Answered(a, sys.store.actions[a]) ==>
          sys.store.actions[a].result == Some(Envelope(Reply(row.status, row.body))))
  {
    ReachedOk(steps, sys);
    hide Sound, VaultOk;
    assert RowIsActions(sys.store, sys.vault, at) && RowIsActions(sys.store, sys.vault, other);
    assert ResultOk(sys.store, sys.vault, a);
    forall i | 0 <= i < |sys.calls| ensures CallOk(sys.store, sys.vault, sys.calls[i]) { }
  }

  /** No direct client names this Action as the source of what it writes. */
  predicate NoClientNames(steps: seq<Step>, a: Id) {
    forall i :: 0 <= i < |steps| && steps[i].Client? ==> steps[i].op.source != Some(a)
  }

  /** Every artifact that names the Action as its source is the resource of a row under the Action's key. */
  ghost predicate ArtifactsBacked(v: Vault, a: Id) {
    forall x :: x in v.artifacts && v.artifacts[x].source == Some(a) ==>
      exists at :: at in v.ledger && at.key == ActionKey(a) && v.ledger[at].resource == x
  }

  lemma WriteKeepsBacked(v: Vault, op: Op, a: Id)
    requires ArtifactsBacked(v, a) && (op.source == Some(a) ==> op.key == ActionKey(a))
    ensures ArtifactsBacked(WriteOp(v, op).0, a)
  {
    CommitsOrUnchanged(v, op);
    hide WriteOp;
    var v' := WriteOp(v, op).0;
    forall x | x in v'.artifacts && v'.artifacts[x].source == Some(a)
      ensures exists at :: at in v'.ledger && at.key == ActionKey(a) && v'.ledger[at].resource == x
    {
      if x in v.artifacts && v'.artifacts[x] == v.artifacts[x] {
        var at :| at in v.ledger && at.key == ActionKey(a) && v.ledger[at].resource == x;
        assert at in v'.ledger && v'.ledger[at].resource == x;
      } else {
        assert op.At() in v'.ledger && v'.ledger[op.At()].resource == x;
      }
    }
  }

  lemma {:induction false} ReachedBacked(steps: seq<Step>, sys: System, a: Id)
    requires Reached(steps) == Some(sys) && NoClientNames(steps, a)
    ensures ArtifactsBacked(sys.vault, a)
  {
    if steps != [] {
      hide Allowed, WriteOp, OpFor, ArtifactsBacked;
      var before, step := Reached(steps[..|steps| - 1]).value, steps[|steps| - 1];
      ReachedBacked(steps[..|steps| - 1], before, a);
      if sys.vault != before.vault {
        if step.Write? { OpForIs(before.store, before.calls[step.i].action, step.id); }
        var op := if step.Client? then step.op else OpFor(before.store, before.calls[step.i].action, step.id);
        assert sys.vault == WriteOp(before.vault, op).0;
        WriteKeepsBacked(before.vault, op, a);
      }
    }
  }

  /**
   One artifact. Of an Action that no direct client names as the source of its own writes there is at most
   one artifact in the store: the resource of its one row.
   */
  lemma LeasedArtifactIsUnique(steps: seq<Step>, sys: System, a: Id, x: Id, y: Id)
    requires Reached(steps) == Some(sys) && NoClientNames(steps, a)
    requires x in sys.vault.artifacts && sys.vault.artifacts[x].source == Some(a)
    requires y in sys.vault.artifacts && sys.vault.artifacts[y].source == Some(a)
    ensures x == y
    ensures exists at :: at in sys.vault.ledger && at.key == ActionKey(a)
                         && sys.vault.ledger[at].resource == x
  {
    ReachedBacked(steps, sys, a);
    var at :| at in sys.vault.ledger && at.key == ActionKey(a) && sys.vault.ledger[at].resource == x;
    var other :| other in sys.vault.ledger && other.key == ActionKey(a) && sys.vault.ledger[other].resource == y;
    LeasedEffectsHappenOnce(steps, sys, a, at, other);
  }

  /** No attempt is ever answered, and no Action succeeds with an answer, without the effect. */
  lemma AnswersHaveEffects(steps: seq<Step>, sys: System, a: Id)
    requires Reached(steps) == Some(sys) && a in sys.store.actions
    requires Answered(a, sys.store.actions[a])
             || exists i :: 0 <= i < |sys.calls| && sys.calls[i].action == a && sys.calls[i].phase.Answer().Some?
    ensures exists at :: at in sys.vault.ledger && at.key == ActionKey(a)
  {
    ReachedOk(steps, sys);
    hide Sound, VaultOk, Answered;
    assert ResultOk(sys.store, sys.vault, a);
    forall i | 0 <= i < |sys.calls| ensures CallOk(sys.store, sys.vault, sys.calls[i]) { }
    assert Replayable(sys.store, a) && KeyOf(sys.store, a) in sys.vault.ledger;
    assert KeyOf(sys.store, a).key == ActionKey(a);
  }

  /** The writes a run made. */
  lemma {:induction false} VaultIsWritten(steps: seq<Step>, sys: System) returns (ops: seq<Op>)
    requires Reached(steps) == Some(sys)
    ensures sys.vault == FileHistory.Written(ops).vault
  {
    if steps == [] {
      ops := [];
    } else {
      hide Allowed, WriteOp, OpFor, FileHistory.Next;
      var before, step := Reached(steps[..|steps| - 1]).value, steps[|steps| - 1];
      ops := VaultIsWritten(steps[..|steps| - 1], before);
      if sys.vault != before.vault {
        var op := if step.Client? then step.op else OpFor(before.store, before.calls[step.i].action, step.id);
        assert sys.vault == WriteOp(before.vault, op).0;
        OneMore(ops, op);
        ops := ops + [op];
      }
    }
  }

  lemma OneMore(ops: seq<Op>, op: Op)
    ensures FileHistory.Written(ops + [op]).vault == WriteOp(FileHistory.Written(ops).vault, op).0
  {
    assert (ops + [op])[..|ops|] == ops;
  }

  /** A leased file write is exactly one revision of its file. */
  lemma LeasedWriteIsOneRevision(steps: seq<Step>, sys: System, at: LedgerKey) returns (ops: seq<Op>)
    requires Reached(steps) == Some(sys)
    requires at in sys.vault.ledger && at.key.ActionKey? && at.route.FileRoute?
    ensures sys.vault == FileHistory.Written(ops).vault
    ensures var h := FileHistory.Written(ops).History(FileHistory.FileOf(at));
      && (exists i :: 0 <= i < |h| && h[i].at == at)
      && (forall i, j :: 0 <= i < |h| && 0 <= j < |h| && h[i].at.key == at.key && h[j].at.key == at.key ==> i == j)
  {
    ops := VaultIsWritten(steps, sys);
    hide FileHistory.Written;
    var h := FileHistory.Written(ops).History(FileHistory.FileOf(at));
    FileHistory.RowsAreRevisions(ops, FileHistory.FileOf(at));
    forall i, j | 0 <= i < j < |h| ensures h[i].at.key != at.key || h[j].at.key != at.key {
      if h[i].at.key == at.key && h[j].at.key == at.key {
        LeasedEffectsHappenOnce(steps, sys, at.key.action, h[i].at, h[j].at);
      }
    }
  }

  // ---- Receipts ----

  /** A running Action of a cancelling Run, dispatched under a lease, under a live cancellation claim. */
  predicate AwaitsReceipt(s: Store, owner: Owner, a: Id, claim: Claim) {
    && s.Fence(Some(claim), CancelRun, claim.run)
    && s.OwnsAction(owner, a)
    && var action := s.actions[a];
    && action.slot.run == claim.run && claim.run in s.runs && s.runs[claim.run].status.Cancelling?
    && action.status.Running? && action.LocalReplayable() && action.key == Some(ActionKey(a))
    && LatestIs(action.attempts, AttemptStatus.Started)
    && action.attempts[Latest(action.attempts).value].key == action.key
  }

  /** The ledger row of an Action passes every check of the receipt. */
  lemma RowProves(s: Store, v: Vault, a: Id)
    requires Replayable(s, a) && KeyOf(s, a) in v.ledger
    requires RowOk(v, KeyOf(s, a)) && RowIsActions(s, v, KeyOf(s, a))
    ensures Acts.ReceiptProves(v, s.actions[a].owner, a, s.actions[a].request.bound.value)
  {
  }

  /** What sending the bound write of an Action once more would return. */
  function Retry(sys: System, a: Id, id: Id): Result<Reply>
    requires Replayable(sys.store, a)
  {
    WriteOp(sys.vault, OpFor(sys.store, a, id)).1
  }

  /**
   Receipts are sound and complete. For an Action that awaits one, the confirmation succeeds exactly when
   the store had committed its effect; it then records the very reply that the write itself gave to every
   attempt it answered, and would give again; otherwise it changes nothing.
   */
  lemma ReceiptsAreSoundAndComplete(steps: seq<Step>, sys: System, owner: Owner, a: Id, claim: Claim, id: Id)
    requires Reached(steps) == Some(sys) && AwaitsReceipt(sys.store, owner, a, claim)
    ensures var c := Acts.ReconcileLocal(sys.store, sys.vault, owner, a, claim);
      && (c.result == Ok(true) <==> exists at :: at in sys.vault.ledger && at.key == ActionKey(a))
      && (c.result == Ok(true) ==>
            && Replayable(sys.store, a) && a in c.store.actions && Answered(a, c.store.actions[a])
            && var reply := c.store.actions[a].result.value.reply;
            && (forall i :: 0 <= i < |sys.calls| && sys.calls[i].action == a && sys.calls[i].phase.Answer().Some?
                  ==> sys.calls[i].phase.Answer().value == reply)
            && Retry(sys, a, id) == Ok(reply))
      && (c.result != Ok(true) ==> c == Commit(sys.store, Ok(false)))
  {
    ReachedOk(steps, sys);
    if at :| at in sys.vault.ledger && at.key == ActionKey(a) {
      RowFound(sys, a, at, id);
      hide SystemOk, RowIsActions, RowOk, WriteOp, OpFor, Acts.ReceiptProves, Sound;
    } else if Replayable(sys.store, a) {
      assert KeyOf(sys.store, a).key == ActionKey(a);
    }
  }

  /** Where the ledger has a row of the Action, every check passes and everything that was answered agrees with it. */
  lemma RowFound(sys: System, a: Id, at: LedgerKey, id: Id)
    requires SystemOk(sys) && at in sys.vault.ledger && at.key == ActionKey(a)
    ensures Replayable(sys.store, a) && at == KeyOf(sys.store, a)
    ensures Acts.ReceiptProves(sys.vault, sys.store.actions[a].owner, a, sys.store.actions[a].request.bound.value)
    ensures var reply := Reply(sys.vault.ledger[at].status, sys.vault.ledger[at].body);
      && Retry(sys, a, id) == Ok(reply)
      && forall i :: 0 <= i < |sys.calls| && sys.calls[i].action == a && sys.calls[i].phase.Answer().Some?
           ==> sys.calls[i].phase.Answer().value == reply
  {
    SystemSound(sys);
    hide Sound, VaultOk, WriteOp, OpFor, RowOk, WellFormed;
    assert RowIsActions(sys.store, sys.vault, at);
    RowHash(sys, a);
    RowProves(sys.store, sys.vault, a);
    forall i | 0 <= i < |sys.calls| ensures CallOk(sys.store, sys.vault, sys.calls[i]) { }
    OpForIs(sys.store, a, id);
    ReplaySucceeds(sys.vault, OpFor(sys.store, a, id));
    ReplayAnswersFromLedger(sys.vault, OpFor(sys.store, a, id));
  }
}
