/** Retry rules by effect class: what a dispatch through the recovery coordinator may end in. */
module Recoveries {
  import opened States
  import opened Wrappers
  import opened Vaults
  import opened Records
  import opened RunControllers

  /** The driver's answer: none that can be trusted, or a status with or without word whether it was applied. */
  datatype Response = Ambiguous(receipt: nat) | Answer(status: nat, applied: Option<bool>, receipt: nat)

  datatype Decision = Completed | ConfirmedFailed | RetrySameKey | ReconcileOnly

  /** An answer settles the effect only if it is a success or a definite "not applied". */
  function DecisionFor(effect: EffectClass, response: Response): Decision {
    if response.Answer? && 200 <= response.status < 300 then Completed
    else if response.Answer? && response.applied == Some(false) then ConfirmedFailed
    else if effect.RemoteIdempotent? then RetrySameKey
    else ReconcileOnly
  }

  function StatusAfter(decision: Decision): ActionStatus {
    match decision
    case Completed => ActionStatus.Succeeded
    case ConfirmedFailed => ActionStatus.Failed
    case RetrySameKey => ActionStatus.RetryWait
    case ReconcileOnly => ActionStatus.OutcomeUnknown
  }

  function DownstreamKey(action: Id, effect: EffectClass): Option<EffectKey> {
    if effect.RemoteIdempotent? then Some(RecoveryKey(action)) else None
  }

  class RecoveryCoordinator {
    const controller: RunController

    constructor (controller: RunController)
      ensures this.controller == controller
    {
      this.controller := controller;
    }

    /** Open the attempt: a first one of a ready Action, or the next one of an Action waiting to be retried. */
    method Begin(action: Id, key: Option<EffectKey>) returns (r: Result<()>)
      requires action in controller.actions
      modifies controller
      ensures r.Ok? ==>
        && action in controller.actions
        && var a, a' := old(controller.actions)[action], controller.actions[action];
        && (a.status.Ready? || (a.status.RetryWait? && key.Some? && a.key == key))
        && a'.status.Running? && a'.request == a.request && |a'.attempts| == |a.attempts| + 1
        && a'.attempts[|a.attempts|].key == key && (key.Some? ==> a'.key == key)
      ensures r.Err? ==> controller.State() == old(controller.State())
    {
      var a := controller.actions[action];
      if a.status.Ready? {
        var begun := controller.BeginDispatch(action, None, key);
        if begun.Err? { return Err(begun.error); }
        if !begun.value { return Err(VersionConflict); }
      } else if a.status.RetryWait? && key.Some? {
        var begun := controller.BeginRetry(action, key.value);
        if begun.Err? { return Err(begun.error); }
      } else {
        return Err(VersionConflict);
      }
      r := Ok(());
    }

    /** Report what the driver's answer amounts to. */
    method Report(action: Id, outcome: Decision, receipt: nat) returns (r: Result<()>)
      requires action in controller.actions && controller.actions[action].status.Running?
      modifies controller
      ensures r.Ok? ==>
        && action in controller.actions
        && var a, a' := old(controller.actions)[action], controller.actions[action];
        && a'.status == StatusAfter(outcome) && a'.request == a.request
        && |a'.attempts| == |a.attempts|
        && (forall i :: 0 <= i < |a.attempts| ==> a'.attempts[i].key == a.attempts[i].key)
        && (outcome.RetrySameKey? ==> a.request.effect.RemoteIdempotent? && a'.key == Some(RecoveryKey(action)))
      ensures r.Err? ==> controller.State() == old(controller.State())
    {
      var result := Opaque(receipt);
      match outcome {
        case Completed =>
          var done := controller.CompleteAction(action, true, result, None);
          if done.Err? { return Err(done.error); }
        case ConfirmedFailed =>
          var done := controller.CompleteAction(action, false, result, None);
          if done.Err? { return Err(done.error); }
        case RetrySameKey =>
          var waiting := controller.MarkRetryWait(action, result, RecoveryKey(action));
          if waiting.Err? { return Err(waiting.error); }
        case ReconcileOnly =>
          var unknown := controller.MarkOutcomeUnknown(action, result);
          if unknown.Err? { return Err(unknown.error); }
      }
      r := Ok(());
    }

    /**
     Dispatch a ready Action, or retry one that waits for it under the same key. Afterwards the Action's
     status is the one the decision names; only an idempotent effect is ever left to be sent again, and
     no other is: it waits for evidence. An error leaves everything as it was, or the attempt open.
     */
    method Dispatch(action: Id, response: Response) returns (r: Result<Decision>)
      modifies controller
      ensures r.Ok? ==>
        && action in old(controller.actions) && action in controller.actions
        && var a, a' := old(controller.actions)[action], controller.actions[action];
        && r.value == DecisionFor(a.request.effect, response)
        && (a.status.Ready? || (a.status.RetryWait? && a.request.effect.RemoteIdempotent?))
        && a'.status == StatusAfter(r.value)
        && |a'.attempts| == |a.attempts| + 1
        && a'.attempts[|a.attempts|].key == DownstreamKey(action, a.request.effect)
        && (a'.status.RetryWait? ==> a.request.effect.RemoteIdempotent? && a'.key == Some(RecoveryKey(action)))
      ensures r.Err? && controller.State() != old(controller.State()) ==>
        && action in old(controller.actions) && action in controller.actions
        && var a, a' := old(controller.actions)[action], controller.actions[action];
        && a'.status.Running? && |a'.attempts| == |a.attempts| + 1
        && a'.attempts[|a.attempts|].key == DownstreamKey(action, a.request.effect)
    {
      if action !in controller.actions { return Err(NotFound); }
      var effect := controller.actions[action].request.effect;
      var begun := Begin(action, DownstreamKey(action, effect));
      if begun.Err? { return Err(begun.error); }
      var outcome := DecisionFor(effect, response);
      var reported := Report(action, outcome, response.receipt);
      if reported.Err? { return Err(reported.error); }
      r := Ok(outcome);
    }
  }
}
