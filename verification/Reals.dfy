/** Facts of real arithmetic that several parts use by name. */
module Reals {
  lemma NonNegative(x: real, y: real)
    requires x >= 0.0 && y >= 0.0
    ensures x * y >= 0.0
  {}

  lemma Fractions(x: real, y: real, c: real)
    requires c != 0.0
    ensures x / c + y / c == (x + y) / c
  {}

  lemma Whole(c: real)
    requires c != 0.0
    ensures c / c == 1.0
  {}
}
