/** Rounding of exact decimals, which are `real`. */
module Decimals {
  /** Rounds to the nearest integer, halves away from zero. */
  function Round(x: real): int {
    if x >= 0.0 then (x + 0.5).Floor else -((-x + 0.5).Floor)
  }

  /** Cuts off the fraction, as the conversion to an integer does. */
  function Trunc(x: real): int {
    if x >= 0.0 then x.Floor else -((-x).Floor)
  }

  function Ceil(x: real): int {
    -((-x).Floor)
  }

  predicate Whole(x: real) {
    x == x.Floor as real
  }

  lemma RoundInt(n: int)
    ensures Round(n as real) == n && Trunc(n as real) == n
  {
    assert n >= 0 ==> (n as real + 0.5).Floor == n;
    assert n < 0 ==> (-(n as real) + 0.5).Floor == -n;
    assert n < 0 ==> (-(n as real)).Floor == -n;
  }

  lemma TruncWhole(x: real)
    requires Whole(x)
    ensures Trunc(x) as real == x
  {
    RoundInt(x.Floor);
  }

  lemma RoundClose(x: real)
    ensures -0.5 <= Round(x) as real - x <= 0.5
    ensures x >= 0.0 ==> Trunc(x) <= Round(x) && Trunc(x) as real <= x
  {
  }

  lemma TruncGrows(x: real, y: real)
    requires 0.0 <= x <= y
    ensures Trunc(x) <= Trunc(y)
  {
  }

  /** The three roundings: to the nearest integer and of two the one further from zero, towards zero, and
      up. */
  lemma RoundingsAre(x: real, n: int)
    ensures Round(x) == n <==> if x >= 0.0 then n as real - 0.5 <= x < n as real + 0.5
                               else n as real - 0.5 < x <= n as real + 0.5
    ensures Trunc(x) == n <==> if x >= 0.0 then n as real <= x < n as real + 1.0
                               else n as real - 1.0 < x <= n as real
    ensures Ceil(x) == n <==> n as real - 1.0 < x <= n as real
  {
    assert x < 0.0 ==> (Round(x) == n <==> n as real - 0.5 < x <= n as real + 0.5);
  }
}
