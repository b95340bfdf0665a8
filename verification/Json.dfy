/** JSON values, and the depth check a bound request goes through. */
module Json {
  import opened Wrappers

  datatype Value = Null | Bool(b: bool) | Number(n: int) | Str(s: string) | Arr(items: seq<Value>) |
    Obj(fields: seq<Field>)

  datatype Field = Field(name: string, value: Value)

  /** The values directly inside. */
  function Inside(v: Value): (parts: seq<Value>)
    ensures forall i :: 0 <= i < |parts| ==> parts[i] < v
  {
    match v
    case Arr(items) => items
    case Obj(fields) => seq(|fields|, i requires 0 <= i < |fields| => fields[i].value)
    case _ => []
  }

  /** Nesting depth: one for the value itself, and the deepest of what is inside. */
  function Depth(v: Value): nat
    decreases v, 1
  {
    1 + Deepest(v, |Inside(v)|)
  }

  function Deepest(v: Value, k: nat): nat
    requires k <= |Inside(v)|
    decreases v, 0, k
  {
    if k == 0 then 0
    else
      var last, rest := Depth(Inside(v)[k - 1]), Deepest(v, k - 1);
      if rest < last then last else rest
  }

  lemma {:induction false} DeepestBounds(v: Value, k: nat, bound: int)
    requires k <= |Inside(v)| && 0 <= bound
    ensures Deepest(v, k) <= bound <==> forall i :: 0 <= i < k ==> Depth(Inside(v)[i]) <= bound
  {
    hide Inside;
    if k > 0 { DeepestBounds(v, k - 1, bound); }
  }

  /** How many values there are, counting nested ones. */
  function Size(v: Value): nat
    decreases v, 1
  {
    1 + SizeInside(v, |Inside(v)|)
  }

  function SizeInside(v: Value, k: nat): nat
    requires k <= |Inside(v)|
    decreases v, 0, k
  {
    if k == 0 then 0 else SizeInside(v, k - 1) + Size(Inside(v)[k - 1])
  }

  datatype Pending = Pending(value: Value, depth: nat)

  function Work(pending: seq<Pending>): nat {
    if pending == [] then 0 else Work(pending[..|pending| - 1]) + Size(pending[|pending| - 1].value)
  }

  function Queued(v: Value, depth: nat, k: nat): seq<Pending>
    requires k <= |Inside(v)|
  {
    seq(k, i requires 0 <= i < k => Pending(Inside(v)[i], depth))
  }

  lemma {:induction false} WorkOfQueued(rest: seq<Pending>, v: Value, depth: nat, k: nat)
    requires k <= |Inside(v)|
    ensures Work(rest + Queued(v, depth, k)) == Work(rest) + SizeInside(v, k)
  {
    hide Inside, Size;
    if k == 0 {
      assert rest + Queued(v, depth, 0) == rest;
    } else {
      WorkOfQueued(rest, v, depth, k - 1);
      var all := rest + Queued(v, depth, k);
      assert all[..|all| - 1] == rest + Queued(v, depth, k - 1);
    }
  }

  predicate Fits(p: Pending, maximum: nat) {
    p.depth + Depth(p.value) <= maximum + 1
  }

  predicate AllFit(pending: seq<Pending>, maximum: nat) {
    forall i :: 0 <= i < |pending| ==> Fits(pending[i], maximum)
  }

  /** A value fits at a depth exactly if everything inside fits one deeper. */
  lemma FitsIffInsideFits(v: Value, depth: nat, maximum: nat)
    requires depth <= maximum
    ensures Fits(Pending(v, depth), maximum) <==> AllFit(Queued(v, depth + 1, |Inside(v)|), maximum)
  {
    DeepestBounds(v, |Inside(v)|, maximum - depth);
    var q := Queued(v, depth + 1, |Inside(v)|);
    forall i | 0 <= i < |q| ensures Fits(q[i], maximum) <==> Depth(Inside(v)[i]) <= maximum - depth { }
    if AllFit(q, maximum) {
      forall i | 0 <= i < |Inside(v)| ensures Depth(Inside(v)[i]) <= maximum - depth { assert Fits(q[i], maximum); }
    }
  }

  /** Walk a value with a stack of what is still to be seen; refuse it exactly when it is nested too deep. */
  method RequireDepth(value: Value, maximum: nat) returns (r: Result<()>)
    ensures r == if Depth(value) <= maximum then Ok(()) else Err(SchemaInvalid)
  {
    hide Depth, Size, Queued, Inside;
    var pending := [Pending(value, 1)];
    while pending != []
      invariant AllFit(pending, maximum) <==> Depth(value) <= maximum
      decreases Work(pending)
    {
      var last := |pending| - 1;
      var current, depth := pending[last].value, pending[last].depth;
      var rest := pending[..last];
      if depth > maximum {
        TooDeep(pending, maximum);
        return Err(SchemaInvalid);
      }
      var inside := Queued(current, depth + 1, |Inside(current)|);
      FitsIffInsideFits(current, depth, maximum);
      WorkOfQueued(rest, current, depth + 1, |Inside(current)|);
      SizeOf(current);
      assert AllFit(pending, maximum) <==> AllFit(rest + inside, maximum) by {
        AllFitParts(rest, [pending[last]], maximum);
        AllFitParts(rest, inside, maximum);
        assert rest + [pending[last]] == pending;
      }
      pending := rest + inside;
    }
    r := Ok(());
  }

  lemma SizeOf(v: Value)
    ensures Size(v) == 1 + SizeInside(v, |Inside(v)|)
  {
  }

  lemma AllFitParts(a: seq<Pending>, b: seq<Pending>, maximum: nat)
    ensures AllFit(a + b, maximum) <==> AllFit(a, maximum) && AllFit(b, maximum)
  {
    hide Fits;
    if AllFit(a + b, maximum) {
      forall i | 0 <= i < |a| ensures Fits(a[i], maximum) { assert a[i] == (a + b)[i]; }
      forall i | 0 <= i < |b| ensures Fits(b[i], maximum) { assert b[i] == (a + b)[|a| + i]; }
    }
  }

  lemma TooDeep(pending: seq<Pending>, maximum: nat)
    requires pending != [] && pending[|pending| - 1].depth > maximum
    ensures !AllFit(pending, maximum)
  {
    assert !Fits(pending[|pending| - 1], maximum);
  }
}
