/** Optional values, and results that carry the error a caller would have caught. */
module Wrappers {

  type Id = nat

  datatype Option<+T> = None | Some(value: T)

  datatype Error =
    | NotFound
    | DuplicateKey            // a primary key or unique constraint refused the insert
    | InvalidArgument
    | InvalidOperation
    | InvalidTransition
    | AlreadyTerminal
    | VersionConflict
    | IdempotencyConflict
    | LeaseLost
    | BudgetExhausted
    | ApprovalRequired
    | InputRequestExpired
    | MigrationRequired
    | EventCursorExpired(earliest: int)
    | FutureEventCursor(latest: int)
    | PayloadTooLarge
    | PreconditionRequired
    | PreconditionFailed
    | SchemaInvalid
    | PermissionDenied
    | ModelOutputInvalid

  datatype Result<+T> = Ok(value: T) | Err(error: Error)

  /** There is a number above any finite set of them. */
  lemma {:induction false} Bound(numbers: set<nat>) returns (n: nat)
    ensures forall x :: x in numbers ==> x < n
  {
    if numbers == {} {
      n := 0;
    } else {
      var one :| one in numbers;
      var rest := Bound(numbers - {one});
      n := if rest <= one then one + 1 else rest;
      forall x | x in numbers ensures x < n { assert x == one || x in numbers - {one}; }
    }
  }
}
