/** Monotonicity of multiplication by a natural number, shared by the floor and division proofs. */
module Arith {
  lemma MulMono(a: nat, b: nat, c: nat)
    ensures a <= b ==> a * c <= b * c
  {}

  lemma MulStrict(a: nat, b: nat, c: nat)
    ensures a < b && c > 0 ==> a * c < b * c
  {}
}
