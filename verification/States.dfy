/** Run and Action life cycles: the enumerations and the transition table every Run write goes through. */
module States {

  datatype RunStatus =
    | Queued | Running | WaitingInput | Blocked | Cancelling
    | Succeeded | Failed | Cancelled | Expired
  {
    /** The statuses a Run may move to next. */
    function Successors(): set<RunStatus> {
      match this
      case Queued => {RunStatus.Running, RunStatus.Cancelling, RunStatus.Failed, RunStatus.Expired}
      case Running => {RunStatus.WaitingInput, RunStatus.Blocked, RunStatus.Cancelling, RunStatus.Succeeded,
                       RunStatus.Failed, RunStatus.Expired}
      case WaitingInput =>
        {RunStatus.Queued, RunStatus.Blocked, RunStatus.Cancelling, RunStatus.Failed, RunStatus.Expired}
      case Blocked => {RunStatus.Queued, RunStatus.Cancelling, RunStatus.Failed, RunStatus.Expired}
      case Cancelling => {RunStatus.Cancelled, RunStatus.Blocked, RunStatus.Failed}
      case _ => {}
    }

    predicate CanBecome(next: RunStatus) {
      next in Successors()
    }

    predicate Terminal() {
      this in {RunStatus.Succeeded, RunStatus.Failed, RunStatus.Cancelled, RunStatus.Expired}
    }
  }

  datatype ActionStatus =
    | Proposed | WaitingInput | Ready | Running | WaitingExternal
    | RetryWait | OutcomeUnknown | Succeeded | Failed | Cancelled
  {
    /** The outcome is recorded: nothing more is expected of the effect. */
    predicate Settled() {
      this in {ActionStatus.Succeeded, ActionStatus.Failed, ActionStatus.Cancelled}
    }

    /** No effect has been sent for the current admission, so it may simply be dropped. */
    predicate Undispatched() {
      this in {ActionStatus.Proposed, ActionStatus.WaitingInput, ActionStatus.Ready}
    }

    /** An effect may exist that nobody has confirmed. */
    predicate Uncertain() {
      this in {ActionStatus.Running, ActionStatus.WaitingExternal, ActionStatus.RetryWait, ActionStatus.OutcomeUnknown}
    }
  }

  /** A status ends a Run exactly when the table offers no way out of it. */
  lemma TerminalIffNoSuccessor(status: RunStatus)
    ensures status.Terminal() <==> forall next: RunStatus :: !status.CanBecome(next)
  {
    if !status.Terminal() {
      assert exists next: RunStatus :: status.CanBecome(next) by {
        assert status.CanBecome(RunStatus.Failed);
      }
    }
  }

  /** Sweeping the undispatched Actions of a Run leaves only settled and uncertain ones. */
  lemma ActionStatusPartition(status: ActionStatus)
    ensures status.Settled() || status.Undispatched() || status.Uncertain()
    ensures !(status.Settled() && status.Undispatched())
    ensures !(status.Settled() && status.Uncertain())
    ensures !(status.Undispatched() && status.Uncertain())
  {
  }
}
