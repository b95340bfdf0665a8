/** Budget and model-call transactions of one Run. */
module AccountTransactions {
  import opened Wrappers
  import opened Budgets
  import opened Vaults
  import opened Records

  function Charge(s: Store, run: Id, claim: Option<Claim>, move: (Budget, Result<Reservation>)): Commit<Reservation>
    requires run in s.runs
  {
    if !s.Fence(claim, AdvanceRun, run) then Abort(s, LeaseLost)
    else Commit(s.WithRun(run, s.runs[run].(budget := move.0)), move.1)
  }

  function ReserveBudget(s: Store, run: Id, key: ReservationKey, d: Dimension, amount: int, claim: Option<Claim>)
    : Commit<Reservation>
  {
    if amount <= 0 then Abort(s, InvalidArgument)
    else if !s.Fence(claim, AdvanceRun, run) then Abort(s, LeaseLost)
    else if run !in s.runs then Abort(s, NotFound)
    else Charge(s, run, claim, s.runs[run].budget.Reserve(key, d, amount))
  }

  function SettleBudget(s: Store, run: Id, key: ReservationKey, actual: int,
                        claim: Option<Claim>): Commit<Reservation> {
    if actual < 0 then Abort(s, InvalidArgument)
    else if run !in s.runs || Find(s.runs[run].budget.rows, key).None? then Abort(s, NotFound)
    else Charge(s, run, claim, s.runs[run].budget.Settle(key, actual))
  }

  function ReleaseBudget(s: Store, run: Id, key: ReservationKey, claim: Option<Claim>): Commit<Reservation> {
    if run !in s.runs || Find(s.runs[run].budget.rows, key).None? then Abort(s, NotFound)
    else Charge(s, run, claim, s.runs[run].budget.Release(key))
  }

  /** A turn has one model call; a closed one is answered as a replay, an open one is tried again. */
  function BeginModelCall(s: Store, owner: Owner, run: Id, turn: nat, maxOutput: nat, claim: Option<Claim>)
    : Commit<ModelCall>
  {
    if !s.Fence(claim, AdvanceRun, run) then Abort(s, LeaseLost)
    else if !s.Owns(owner, run) then Abort(s, NotFound)
    else
      var r := s.runs[run];
      if !r.status.Running? then Abort(s, AlreadyTerminal)
      else if turn in r.calls && !r.calls[turn].status.Started? then Commit(s, Ok(r.calls[turn]))
      else
        var call := if turn in r.calls then r.calls[turn] else ModelCall(CallStatus.Started, maxOutput, 0);
        Commit(s.WithRun(run, r.(calls := r.calls[turn := call]).Append(ModelCallStarted, None)), Ok(call))
  }

  function CompleteModelCall(s: Store, run: Id, turn: nat, outputTokens: nat, claim: Option<Claim>): Commit<ModelCall> {
    if run !in s.runs || turn !in s.runs[run].calls then Abort(s, NotFound)
    else if !s.Fence(claim, AdvanceRun, run) then Abort(s, LeaseLost)
    else
      var r := s.runs[run];
      if !r.calls[turn].status.Started? then Commit(s, Ok(r.calls[turn]))
      else
        var call := r.calls[turn].(status := CallStatus.Committed, outputTokens := outputTokens);
        Commit(s.WithRun(run, r.(calls := r.calls[turn := call]).Append(ModelResponseCommitted, None)), Ok(call))
  }

  function MarkModelCall(s: Store, run: Id, turn: nat, valid: bool, claim: Option<Claim>): Commit<ModelCall> {
    var status := if valid then CallStatus.Processed else CallStatus.Invalid;
    if run !in s.runs || turn !in s.runs[run].calls then Abort(s, NotFound)
    else if !s.Fence(claim, AdvanceRun, run) then Abort(s, LeaseLost)
    else
      var r := s.runs[run];
      if r.calls[turn].status == status then Commit(s, Ok(r.calls[turn]))
      else if !r.calls[turn].status.Committed? then Abort(s, VersionConflict)
      else
        var call := r.calls[turn].(status := status);
        Commit(s.WithRun(run, r.(calls := r.calls[turn := call]).Append(ModelCallClosed, None)), Ok(call))
  }
}
