/**
 Keyed budget reservations of one Run: reserve, settle and release move an amount between
 "held back" and "spent" without ever promising more than the limit.
 */
module Budgets {
  import opened Wrappers

  datatype Dimension = ModelTurns | ToolCalls | OutputTokens | CostMicrounits

  /** Reservation keys, structured instead of printed: `model:{turn}:turn`, `child:{run}:{dimension}`, ... */
  datatype ReservationKey =
    | TurnKey(turn: nat)
    | OutputKey(turn: nat)
    | ToolKey(turn: nat, index: nat)
    | ChildKey(child: Id, dimension: Dimension)
    | OtherKey(text: string)

  datatype ReservationStatus = Reserved | Settled | Released

  datatype Reservation = Reservation(
    key: ReservationKey, dimension: Dimension, amount: nat, status: ReservationStatus, actual: nat)
  {
    function Freed(): Reservation {
      if status.Reserved? then this.(status := Released, actual := 0) else this
    }
  }

  datatype Limits = Limits(turns: Option<nat>, tools: Option<nat>, tokens: Option<nat>, cost: Option<nat>)
  {
    function At(d: Dimension): Option<nat> {
      match d
      case ModelTurns => turns
      case ToolCalls => tools
      case OutputTokens => tokens
      case CostMicrounits => cost
    }
  }

  datatype Usage = Usage(turns: nat, tools: nat, tokens: nat, cost: nat)
  {
    function At(d: Dimension): nat {
      match d
      case ModelTurns => turns
      case ToolCalls => tools
      case OutputTokens => tokens
      case CostMicrounits => cost
    }

    function Plus(d: Dimension, amount: nat): Usage {
      match d
      case ModelTurns => this.(turns := turns + amount)
      case ToolCalls => this.(tools := tools + amount)
      case OutputTokens => this.(tokens := tokens + amount)
      case CostMicrounits => this.(cost := cost + amount)
    }
  }

  const NOTHING_USED := Usage(0, 0, 0, 0)

  function Held(row: Reservation, d: Dimension): nat {
    if row.dimension == d && row.status.Reserved? then row.amount else 0
  }

  function Spent(row: Reservation, d: Dimension): nat {
    if row.dimension == d && row.status.Settled? then row.actual else 0
  }

  function SumHeld(rows: seq<Reservation>, d: Dimension): nat {
    if rows == [] then 0 else SumHeld(rows[..|rows| - 1], d) + Held(rows[|rows| - 1], d)
  }

  function SumSpent(rows: seq<Reservation>, d: Dimension): nat {
    if rows == [] then 0 else SumSpent(rows[..|rows| - 1], d) + Spent(rows[|rows| - 1], d)
  }

  /** The row stored under a key; the unique constraint on (run, key) makes it the only one. */
  function Find(rows: seq<Reservation>, key: ReservationKey): (at: Option<nat>)
    ensures at.Some? ==> at.value < |rows| && rows[at.value].key == key
    ensures at.None? ==> forall i :: 0 <= i < |rows| ==> rows[i].key != key
  {
    if rows == [] then None
    else if rows[|rows| - 1].key == key then Some(|rows| - 1)
    else Find(rows[..|rows| - 1], key)
  }

  ghost predicate UniqueKeys(rows: seq<Reservation>) {
    forall i, j :: 0 <= i < j < |rows| ==> rows[i].key != rows[j].key
  }

  datatype Budget = Budget(limits: Limits, wallSeconds: Option<nat>, used: Usage, rows: seq<Reservation>)
  {
    /** What is used is exactly what was settled, and used plus held back never passes a limit. */
    ghost predicate Sound() {
      && UniqueKeys(rows)
      && (forall d: Dimension :: used.At(d) == SumSpent(rows, d))
      && (forall d: Dimension :: limits.At(d).Some? ==> used.At(d) + SumHeld(rows, d) <= limits.At(d).value)
    }

    predicate Fits(d: Dimension, reserved: nat, amount: nat) {
      limits.At(d).Some? ==> used.At(d) + reserved + amount <= limits.At(d).value
    }

    function Reserve(key: ReservationKey, d: Dimension, amount: int): (Budget, Result<Reservation>) {
      if amount <= 0 then (this, Err(InvalidArgument))
      else
        match Find(rows, key)
        case Some(at) =>
          if rows[at].dimension != d || rows[at].amount != amount
          then (this, Err(IdempotencyConflict))
          else (this, Ok(rows[at]))
        case None =>
          if !Fits(d, SumHeld(rows, d), amount) then (this, Err(BudgetExhausted))
          else
            var row := Reservation(key, d, amount, Reserved, 0);
            (this.(rows := rows + [row]), Ok(row))
    }

    function Settle(key: ReservationKey, actual: int): (Budget, Result<Reservation>) {
      if actual < 0 then (this, Err(InvalidArgument))
      else
        match Find(rows, key)
        case None => (this, Err(NotFound))
        case Some(at) =>
          var row := rows[at];
          if row.status.Settled? then (this, Ok(row))
          else if row.status.Released? then (this, Err(VersionConflict))
          else if !Fits(row.dimension, SumHeld(rows[at := row.Freed()], row.dimension), actual)
          then (this, Err(BudgetExhausted))
          else
            var settled := row.(status := Settled, actual := actual);
            (this.(used := used.Plus(row.dimension, actual), rows := rows[at := settled]), Ok(settled))
    }

    function Release(key: ReservationKey): (Budget, Result<Reservation>) {
      match Find(rows, key)
      case None => (this, Err(NotFound))
      case Some(at) =>
        (this.(rows := rows[at := rows[at].Freed()]), Ok(rows[at].Freed()))
    }

    /** What ending a Run does to its reservations, the ones held for child Runs included. */
    function ReleaseAll(): Budget {
      this.(rows := seq(|rows|, i requires 0 <= i < |rows| => rows[i].Freed()))
    }
  }

  /** Rows keep their place, key, dimension and amount; only a held row may change, and limits never do. */
  ghost predicate BudgetEvolves(b: Budget, b': Budget) {
    && b'.limits == b.limits && b'.wallSeconds == b.wallSeconds
    && |b.rows| <= |b'.rows|
    && (forall i :: 0 <= i < |b.rows| ==> RowEvolves(b.rows[i], b'.rows[i]))
    && (b.Sound() ==> b'.Sound())
  }

  ghost predicate RowEvolves(row: Reservation, row': Reservation) {
    && row'.key == row.key && row'.dimension == row.dimension && row'.amount == row.amount
    && (row' == row || (row.status.Reserved? && (row'.status.Settled? || row' == row.Freed())))
  }

  lemma {:induction false} SumsAfterUpdate(rows: seq<Reservation>, at: nat, row: Reservation, d: Dimension)
    requires at < |rows|
    ensures SumHeld(rows[at := row], d) == SumHeld(rows, d) - Held(rows[at], d) + Held(row, d)
    ensures SumSpent(rows[at := row], d) == SumSpent(rows, d) - Spent(rows[at], d) + Spent(row, d)
  {
    var last := |rows| - 1;
    if at == last {
      assert rows[at := row][..last] == rows[..last];
    } else {
      SumsAfterUpdate(rows[..last], at, row, d);
      assert rows[at := row][..last] == rows[..last][at := row];
    }
  }

  lemma {:induction false} SumsAfterRelease(rows: seq<Reservation>, freed: seq<Reservation>, d: Dimension)
    requires |freed| == |rows| && forall i :: 0 <= i < |rows| ==> freed[i] == rows[i].Freed()
    ensures SumHeld(freed, d) == 0
    ensures SumSpent(freed, d) == SumSpent(rows, d)
  {
    if rows != [] {
      SumsAfterRelease(rows[..|rows| - 1], freed[..|rows| - 1], d);
    }
  }

  lemma ReserveEvolves(b: Budget, key: ReservationKey, d: Dimension, amount: int)
    ensures BudgetEvolves(b, b.Reserve(key, d, amount).0)
  {
    var b' := b.Reserve(key, d, amount).0;
    if b' != b {
      assert b'.rows[..|b.rows|] == b.rows;
    }
  }

  lemma SettleEvolves(b: Budget, key: ReservationKey, actual: int)
    ensures BudgetEvolves(b, b.Settle(key, actual).0)
  {
    var b' := b.Settle(key, actual).0;
    if b' != b {
      var at := Find(b.rows, key).value;
      forall d: Dimension
        ensures SumSpent(b'.rows, d) == SumSpent(b.rows, d) + (if d == b.rows[at].dimension then actual else 0)
        ensures SumHeld(b'.rows, d) == SumHeld(b.rows[at := b.rows[at].Freed()], d) <= SumHeld(b.rows, d)
      {
        SumsAfterUpdate(b.rows, at, b'.rows[at], d);
        SumsAfterUpdate(b.rows, at, b.rows[at].Freed(), d);
      }
    }
  }

  lemma ReleaseEvolves(b: Budget, key: ReservationKey)
    ensures BudgetEvolves(b, b.Release(key).0)
  {
    var at := Find(b.rows, key);
    if at.Some? {
      forall d: Dimension
        ensures SumSpent(b.Release(key).0.rows, d) == SumSpent(b.rows, d)
        ensures SumHeld(b.Release(key).0.rows, d) <= SumHeld(b.rows, d)
      {
        SumsAfterUpdate(b.rows, at.value, b.rows[at.value].Freed(), d);
      }
    }
  }

  lemma ReleaseAllEvolves(b: Budget)
    ensures BudgetEvolves(b, b.ReleaseAll())
    ensures forall d: Dimension :: SumHeld(b.ReleaseAll().rows, d) == 0
  {
    forall d: Dimension
      ensures SumHeld(b.ReleaseAll().rows, d) == 0
      ensures SumSpent(b.ReleaseAll().rows, d) == SumSpent(b.rows, d)
    {
      SumsAfterRelease(b.rows, b.ReleaseAll().rows, d);
    }
  }
}
