/**
 The outside world. Requests of opened attempts reach it at any time, in any order, or never: a response
 may be lost, a crashed worker's request may still arrive. A downstream that offers idempotency applies
 each key once; any other applies whatever arrives.
 */
module Downstream {
  import opened Wrappers
  import opened Vaults
  import opened Records
  import opened ActionProtocol
  import opened Evolution
  import opened Kernel
  import opened KernelEvolution

  datatype Effect = Effect(action: Id, attempt: nat, key: Option<EffectKey>)

  /** `condemned[a]`: attempts of `a` up to this number were confirmed never to be applied. */
  datatype System = System(store: Store, condemned: map<Id, nat>, sent: set<(Id, nat)>, effects: seq<Effect>)
  {
    function Condemned(a: Id): nat {
      if a in condemned then condemned[a] else 0
    }
  }

  datatype Step = Transact(tx: Tx) | Deliver(action: Id, attempt: nat)

  const START := System(EMPTY_STORE, map[], {}, [])

  /** A verdict that nothing was applied covers every attempt opened so far. */
  predicate Condemns(a: Action, a': Action) {
    |a.verdicts| < |a'.verdicts| && a'.verdicts[|a'.verdicts| - 1].resolution.ConfirmedNotApplied?
  }

  function CondemnedAfter(a: Action, a': Action, condemned: nat): nat {
    if Condemns(a, a') then |a'.attempts| else condemned
  }

  ghost predicate Allowed(sys: System, step: Step) {
    match step
    case Transact(tx) =>
      && !tx.RecordCancelReceipt?
      // Effects that may be retried are dispatched through the recovery coordinator, which derives the key
      // from the Action.
      && ((tx.BeginDispatch? && tx.action in sys.store.actions
           && sys.store.actions[tx.action].request.effect.RemoteIdempotent?)
            ==> tx.key == Some(RecoveryKey(tx.action)))
      // Verdicts are truthful: nothing has been applied when one says so.
      && (forall e :: e in sys.effects && e.action in sys.store.actions && e.action in Apply(sys.store, tx).actions
            ==> !Condemns(sys.store.actions[e.action], Apply(sys.store, tx).actions[e.action]))
    case Deliver(a, n) =>
      // An attempt sends one request, and what was truthfully confirmed as never applied is not applied later.
      && a in sys.store.actions && 1 <= n <= |sys.store.actions[a].attempts|
      && (a, n) !in sys.sent && sys.Condemned(a) < n
  }

  predicate KeySeen(effects: seq<Effect>, key: Option<EffectKey>) {
    exists i :: 0 <= i < |effects| && effects[i].key == key
  }

  ghost function Next(sys: System, step: Step): System
    requires Allowed(sys, step)
  {
    match step
    case Transact(tx) =>
      var s' := Apply(sys.store, tx);
      sys.(store := s',
           condemned := map a | a in s'.actions ::
             if a in sys.store.actions then CondemnedAfter(sys.store.actions[a], s'.actions[a], sys.Condemned(a))
               else 0)
    case Deliver(a, n) =>
      var action := sys.store.actions[a];
      var effect := Effect(a, n, action.attempts[n - 1].key);
      var ignored := action.request.effect.RemoteIdempotent? && effect.key.Some? && KeySeen(sys.effects, effect.key);
      sys.(sent := sys.sent + {(a, n)}, effects := if ignored then sys.effects else sys.effects + [effect])
  }

  /** Where a run leads, if every step is allowed where it is taken. */
  ghost function Reached(steps: seq<Step>): Option<System> {
    if steps == [] then Some(START)
    else
      var before, step := Reached(steps[..|steps| - 1]), steps[|steps| - 1];
      if before.Some? && Allowed(before.value, step) then Some(Next(before.value, step)) else None
  }

  // ---- One Action ----

  ghost predicate KeysOf(a: Id, action: Action) {
    action.request.effect.RemoteIdempotent? ==>
      && (forall i :: 0 <= i < |action.attempts| ==> action.attempts[i].key == Some(RecoveryKey(a)))
      && (action.key == if action.attempts == [] then None else Some(RecoveryKey(a)))
  }

  ghost predicate Rationed(v: View, condemned: nat) {
    && condemned <= |v.action.attempts|
    && (v.action.Blind() ==>
          |v.action.attempts| + (if v.action.status.Ready? || v.pending then 1 else 0) <= 1 + condemned)
  }

  /** Opened attempts stay, with the keys they were opened with. */
  ghost predicate AttemptsKept(a: Action, a': Action) {
    && a'.request == a.request && |a.attempts| <= |a'.attempts|
    && forall i :: 0 <= i < |a.attempts| ==> a'.attempts[i].key == a.attempts[i].key
  }

  /** The coordinator's rule for dispatches, as a rule about causes. */
  predicate KeyedCause(a: Id, action: Action, cause: Option<Cause>) {
    (cause.Some? && cause.value.action == a && cause.value.move.Open? && action.request.effect.RemoteIdempotent?)
      ==> cause.value.move.key == Some(RecoveryKey(a))
  }

  lemma MoveKeepsAttempts(v: View, m: ActionMove)
    requires Enabled(v, m)
    ensures AttemptsKept(v.action, Perform(v, m).action)
  {
  }

  lemma MoveKeepsKeys(a: Id, v: View, m: ActionMove)
    requires Enabled(v, m) && !m.Acknowledge? && KeysOf(a, v.action)
    requires m.Open? && v.action.request.effect.RemoteIdempotent? ==> m.key == Some(RecoveryKey(a))
    ensures KeysOf(a, Perform(v, m).action)
  {
  }

  lemma MoveRationed(v: View, m: ActionMove, condemned: nat)
    requires Enabled(v, m) && !m.Acknowledge? && LedgerAgrees(v) && Rationed(v, condemned)
    ensures Rationed(Perform(v, m), CondemnedAfter(v.action, Perform(v, m).action, condemned))
  {
  }

  ghost predicate ViewOk(a: Id, v: View, condemned: nat) {
    LedgerAgrees(v) && KeysOf(a, v.action) && Rationed(v, condemned)
  }

  lemma ViewStep(a: Id, v: View, v': View, cause: Option<Cause>, condemned: nat)
    requires StepsTo(a, v, v', cause) && (cause.Some? ==> !cause.value.move.Acknowledge?)
    requires KeyedCause(a, v.action, cause)
    requires ViewOk(a, v, condemned)
    ensures ViewOk(a, v', CondemnedAfter(v.action, v'.action, condemned))
    ensures AttemptsKept(v.action, v'.action)
  {
    if v' != v {
      var m :| Enabled(v, m) && v' == Perform(v, m) && (Unprompted(m) || cause == Some(Cause(a, m)));
      hide LedgerAgrees, Perform, Enabled, KeysOf, Rationed, AttemptsKept;
      LedgerStep(v, m);
      MoveKeepsAttempts(v, m);
      MoveKeepsKeys(a, v, m);
      MoveRationed(v, m, condemned);
    }
  }

  // ---- The whole system ----

  ghost predicate ViewsOk(sys: System) {
    forall a :: a in sys.store.actions ==> ViewOk(a, ViewOf(sys.store, a), sys.Condemned(a))
  }

  /** Every effect is that of an attempt that was sent and not condemned, and no attempt has two. */
  ghost predicate EffectsOk(sys: System) {
    && (forall i {:trigger sys.effects[i]} :: 0 <= i < |sys.effects| ==>
          var e := sys.effects[i];
          && e.action in sys.store.actions && (e.action, e.attempt) in sys.sent
          && sys.Condemned(e.action) < e.attempt <= |sys.store.actions[e.action].attempts|
          && e.key == sys.store.actions[e.action].attempts[e.attempt - 1].key)
    && (forall i, j :: 0 <= i < j < |sys.effects| && sys.effects[i].action == sys.effects[j].action ==>
          && sys.effects[i].attempt != sys.effects[j].attempt
          && ((sys.store.actions[sys.effects[j].action].request.effect.RemoteIdempotent? && sys.effects[j].key.Some?)
                ==> sys.effects[i].key != sys.effects[j].key))
  }

  lemma TransactKeepsViews(sys: System, tx: Tx)
    requires Sound(sys.store) && ViewsOk(sys) && Allowed(sys, Transact(tx))
    ensures Sound(Apply(sys.store, tx)) && ViewsOk(Next(sys, Transact(tx)))
    ensures forall a :: a in sys.store.actions ==>
              a in Apply(sys.store, tx).actions && AttemptsKept(sys.store.actions[a], Apply(sys.store, tx).actions[a])
  {
    var s, s' := sys.store, Apply(sys.store, tx);
    hide Apply, Sound, RunsEvolve, JobsEvolve, StepsTo, LedgerAgrees, KeysOf, Rationed, AttemptsKept;
    StepParts(s, tx);
    forall a | a in s.actions
      ensures a in s'.actions && AttemptsKept(s.actions[a], s'.actions[a])
      ensures ViewOk(a, ViewOf(s', a), CondemnedAfter(s.actions[a], s'.actions[a], sys.Condemned(a)))
    {
      CauseKeyed(sys, tx, a);
      ViewStep(a, ViewOf(s, a), ViewOf(s', a), CauseOf(s, tx), sys.Condemned(a));
    }
    forall a | a in s'.actions && a !in s.actions ensures ViewOk(a, ViewOf(s', a), 0) {
      FreshOk(a, ViewOf(s', a));
    }
  }

  lemma CauseKeyed(sys: System, tx: Tx, a: Id)
    requires Allowed(sys, Transact(tx)) && a in sys.store.actions
    ensures KeyedCause(a, sys.store.actions[a], CauseOf(sys.store, tx))
    ensures CauseOf(sys.store, tx).Some? ==> !CauseOf(sys.store, tx).value.move.Acknowledge?
  {
    hide Apply;
  }

  lemma FreshOk(a: Id, v: View)
    requires Fresh(v)
    ensures ViewOk(a, v, 0)
  {
  }

  lemma TransactKeepsEffects(sys: System, tx: Tx)
    requires Allowed(sys, Transact(tx)) && EffectsOk(sys)
    requires forall a :: a in sys.store.actions ==>
               a in Apply(sys.store, tx).actions && AttemptsKept(sys.store.actions[a], Apply(sys.store, tx).actions[a])
    ensures EffectsOk(Next(sys, Transact(tx)))
  {
    hide Apply;
    forall i | 0 <= i < |sys.effects|
      ensures Next(sys, Transact(tx)).Condemned(sys.effects[i].action) == sys.Condemned(sys.effects[i].action)
    {
      assert sys.effects[i] in sys.effects;
    }
  }

  lemma DeliverKeepsViews(sys: System, a: Id, n: nat)
    requires Allowed(sys, Deliver(a, n)) && ViewsOk(sys)
    ensures ViewsOk(Next(sys, Deliver(a, n)))
  {
    hide Apply, ViewOk;
  }

  lemma DeliverKeepsEffects(sys: System, a: Id, n: nat)
    requires Allowed(sys, Deliver(a, n)) && EffectsOk(sys)
    ensures EffectsOk(Next(sys, Deliver(a, n)))
  {
    hide Apply, ViewOk, ViewsOk;
    var next := Next(sys, Deliver(a, n));
    if next.effects != sys.effects {
      var last := |sys.effects|;
      assert next.effects[..last] == sys.effects;
      forall i | 0 <= i < last && sys.effects[i].action == a ensures sys.effects[i].attempt != n {
        assert (a, sys.effects[i].attempt) in sys.sent;
      }
    }
  }

  lemma {:induction false} SystemInvariant(steps: seq<Step>, sys: System)
    requires Reached(steps) == Some(sys)
    ensures Sound(sys.store) && ViewsOk(sys) && EffectsOk(sys)
  {
    if steps == [] {
      EmptySound();
    } else {
      var step := steps[|steps| - 1];
      var before := Reached(steps[..|steps| - 1]).value;
      hide Apply, Sound, ViewsOk, EffectsOk, AttemptsKept;
      SystemInvariant(steps[..|steps| - 1], before);
      match step
      case Transact(tx) => TransactKeepsViews(before, tx); TransactKeepsEffects(before, tx);
      case Deliver(a, n) => DeliverKeepsViews(before, a, n); DeliverKeepsEffects(before, a, n);
    }
  }

  /**
   However often an idempotent effect cycles through retries, unknown outcomes and approvals, its attempts
   share one key.
   */
  lemma RetriesShareOneKey(steps: seq<Step>, sys: System, a: Id, n: nat)
    requires Reached(steps) == Some(sys)
    requires a in sys.store.actions && sys.store.actions[a].request.effect.RemoteIdempotent?
    requires n < |sys.store.actions[a].attempts|
    ensures sys.store.actions[a].attempts[n].key == Some(RecoveryKey(a)) == sys.store.actions[a].key
  {
    SystemInvariant(steps, sys);
    hide Apply, Sound, LedgerAgrees;
    assert ViewOk(a, ViewOf(sys.store, a), sys.Condemned(a));
  }

  /**
   At most one effect. Whatever is lost, delayed, retried, approved, reconciled or taken over, in every
   reachable state the outside world has applied at most one effect of an Action that is either
   idempotent downstream or neither idempotent nor backed by the ledger.
   */
  lemma AppliedAtMostOnce(steps: seq<Step>, sys: System, i: nat, j: nat)
    requires Reached(steps) == Some(sys)
    requires i < |sys.effects| && j < |sys.effects| && sys.effects[i].action == sys.effects[j].action
    requires sys.effects[i].action in sys.store.actions && !sys.store.actions[sys.effects[i].action].LocalReplayable()
    ensures i == j
  {
    SystemInvariant(steps, sys);
    hide Apply, Sound, LedgerAgrees;
    var a := sys.effects[i].action;
    assert ViewOk(a, ViewOf(sys.store, a), sys.Condemned(a));
    if i != j {
      assert false;
    }
  }
}
