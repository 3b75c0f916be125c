/** The part of gnark's constraint-building API that the vaccination circuit
    uses, evaluated on a concrete witness. A gadget returns the value it
    computes; the assertions it adds to the constraint system are returned
    as `Constraint` values, and the witness satisfies the system when every
    one of them holds. */
module Frontend {
  import opened Field

  /** One assertion recorded in the constraint system. */
  datatype Constraint =
    | LessOrEqual(v: Felt, bound: Felt)  // AssertIsLessOrEqual
    | Boolean(v: Felt)                   // AssertIsBoolean
    | Equal(a: Felt, b: Felt)            // AssertIsEqual

  /** Whether one assertion holds; order is on canonical representatives. */
  predicate Holds(c: Constraint) {
    match c
    case LessOrEqual(v, bound) => v <= bound
    case Boolean(v) => IsBool(v)
    case Equal(a, b) => a == b
  }

  predicate AllHold(cs: seq<Constraint>) {
    forall k :: 0 <= k < |cs| ==> Holds(cs[k])
  }

  lemma AllHoldAppend(a: seq<Constraint>, b: seq<Constraint>)
    ensures AllHold(a + b) <==> AllHold(a) && AllHold(b)
  {
    if AllHold(a) && AllHold(b) {
      forall k | 0 <= k < |a + b| ensures Holds((a + b)[k]) {
        if k < |a| { assert (a + b)[k] == a[k]; } else { assert (a + b)[k] == b[k - |a|]; }
      }
    }
    if AllHold(a + b) {
      forall k | 0 <= k < |a| ensures Holds(a[k]) { assert (a + b)[k] == a[k]; }
      forall k | 0 <= k < |b| ensures Holds(b[k]) { assert (a + b)[|a| + k] == b[k]; }
    }
  }

  /** A value together with the assertions its gadget added. */
  datatype Gate = Gate(out: Felt, asserted: seq<Constraint>)

  /** api.Cmp: three-way comparison of the canonical representatives,
      giving 1, 0 or -1 (the field element P - 1). */
  function Cmp(a: Felt, b: Felt): (r: Felt)
    ensures r == 0 <==> a == b
    ensures r == 1 <==> a > b
    ensures r == MinusOne <==> a < b
  {
    if a < b then MinusOne else if a == b then 0 else 1
  }

  lemma CmpRange(a: Felt, b: Felt)
    ensures Cmp(a, b) in {MinusOne, 0, 1}
  {
  }

  /** api.IsZero: the boolean "x is the zero element". */
  function IsZero(x: Felt): (r: Felt)
    ensures IsBool(r)
    ensures r == 1 <==> x == 0
  {
    if x == 0 then 1 else 0
  }

  /** The equality idiom IsZero(Cmp(a, b)): 1 exactly when a == b. */
  lemma EqualityIdiom(a: Felt, b: Felt)
    ensures IsZero(Cmp(a, b)) == if a == b then 1 else 0
  {
  }

  /** api.Or: asserts that both operands are boolean and returns
      a + b - a*b in the field. */
  function Or(a: Felt, b: Felt): (g: Gate)
    ensures AllHold(g.asserted) <==> IsBool(a) && IsBool(b)
    ensures IsBool(a) && IsBool(b) ==> IsBool(g.out) && (g.out == 1 <==> a == 1 || b == 1)
  {
    var cs := [Boolean(a), Boolean(b)];
    assert AllHold(cs) <==> Holds(cs[0]) && Holds(cs[1]);
    Gate(Sub(Add(a, b), Mul(a, b)), cs)
  }

  /** api.AssertIsLessOrEqual. */
  function AssertIsLessOrEqual(v: Felt, bound: Felt): (c: Constraint)
    ensures Holds(c) <==> v <= bound
  {
    LessOrEqual(v, bound)
  }

  /** api.AssertIsEqual. */
  function AssertIsEqual(a: Felt, b: Felt): (c: Constraint)
    ensures Holds(c) <==> a == b
  {
    Equal(a, b)
  }
}
