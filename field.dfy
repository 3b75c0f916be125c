/** The scalar field of the BN254 curve, the field the vaccination circuit is
    compiled over. A field element is held as its canonical representative
    in [0, P). */
module Field {

  /** The order of the BN254 scalar field (the prime r of the curve). */
  const P: int := 21888242871839275222246405745257275088548364400416034343698204186575808495617

  /** A field element, as its canonical representative. */
  type Felt = x: int | 0 <= x < P

  /** The field element -1, whose canonical representative is P - 1. */
  const MinusOne: Felt := P - 1

  function Add(a: Felt, b: Felt): Felt { (a + b) % P }

  function Sub(a: Felt, b: Felt): Felt { (a - b) % P }

  function Mul(a: Felt, b: Felt): Felt { (a * b) % P }

  /** A field element used as a boolean: exactly 0 or 1. */
  predicate IsBool(x: Felt) { x == 0 || x == 1 }
}
