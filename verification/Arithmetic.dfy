/** Multiplication is monotone. */
module Arithmetic {
  lemma MulLe(a: nat, b: nat, d: nat)
    requires a <= b
    ensures a * d <= b * d
  {
  }
}
