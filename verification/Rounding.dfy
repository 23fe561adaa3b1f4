/** Python's round(): nearest integer, halves to even, and the 1e-6 quantisation built on it. */
module Rounding {

  const EPSILON: real := 0.000001

  function RoundHalfEven(x: real): (r: int)
    ensures r as real - 0.5 <= x <= r as real + 0.5
    ensures x == r as real - 0.5 || x == r as real + 0.5 ==> r % 2 == 0
  {
    var below := x.Floor;
    var fraction := x - below as real;
    if fraction < 0.5 then below
    else if fraction > 0.5 then below + 1
    else if below % 2 == 0 then below else below + 1
  }

  lemma RoundMonotone(x: real, y: real)
    requires x <= y
    ensures RoundHalfEven(x) <= RoundHalfEven(y)
  {
  }

  /** Index of the 1e-6 bucket a figure falls in; the source compares index * 1e-6, which orders alike. */
  function Quantise(x: real): int {
    RoundHalfEven(x / EPSILON)
  }

  /** Quantising keeps the order and blurs it by at most one epsilon. */
  lemma QuantiseOrder(x: real, y: real)
    ensures x <= y ==> Quantise(x) <= Quantise(y)
    ensures Quantise(x) <= Quantise(y) ==> x <= y + EPSILON && x <= y + 0.000001
    ensures Quantise(0.0) == 0 && Quantise(x + 0.000001) <= Quantise(x) + 2
  {
  }
}
