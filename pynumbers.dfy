/**
 * The two Python number conversions the application relies on, over exact
 * rationals: `int(round(x, 0))` (round half to even) and `int(x)` on a float
 * (truncation toward zero).
 */
module PyNumbers {

  /** Python 3 `int(round(x, 0))`: the nearest integer, ties going to the even one. */
  function RoundHalfEven(x: real): (r: int)
    ensures x - 0.5 <= r as real <= x + 0.5
    ensures (r as real - x == 0.5 || x - r as real == 0.5) ==> r % 2 == 0
  {
    var f := x.Floor;
    var d := x - f as real;
    if d < 0.5 then f
    else if d > 0.5 then f + 1
    else if f % 2 == 0 then f else f + 1
  }

  /** The two ensures of RoundHalfEven pin its result down: no other integer satisfies them. */
  lemma RoundHalfEvenUnique(x: real, n: int)
    requires x - 0.5 <= n as real <= x + 0.5
    requires (n as real - x == 0.5 || x - n as real == 0.5) ==> n % 2 == 0
    ensures RoundHalfEven(x) == n
  {
  }

  /** Rounding never carries a value above an integer bound it lies under. */
  lemma RoundHalfEvenBelow(x: real, n: int)
    requires x <= n as real
    ensures RoundHalfEven(x) <= n
  {
  }

  /** Python `int(x)` on a float: truncation toward zero. */
  function Trunc(x: real): (r: int)
    ensures 0.0 <= x ==> 0 <= r && r as real <= x < r as real + 1.0
    ensures x < 0.0 ==> r <= 0 && r as real - 1.0 < x <= r as real
  {
    if x >= 0.0 then x.Floor else -((-x).Floor)
  }
}
