/** Python's `round` and numpy's `np.round` on a single number: round to the
    nearest integer, ties to the even neighbour. Modelled on exact reals. */
module Rounding {

  /** The integer nearest to `r`; a tie goes to the even neighbour. */
  function RoundHalfEven(r: real): (n: int)
    ensures r - 0.5 <= n as real <= r + 0.5
    ensures (n as real == r - 0.5 || n as real == r + 0.5) ==> n % 2 == 0
  {
    var f := r.Floor;
    var d := r - f as real;
    if d < 0.5 then f
    else if d > 0.5 then f + 1
    else if f % 2 == 0 then f
    else f + 1
  }

  /** Nearest with ties to even is a specification: at most one integer meets it. */
  lemma RoundHalfEvenUnique(r: real, m: int)
    requires r - 0.5 <= m as real <= r + 0.5
    requires (m as real == r - 0.5 || m as real == r + 0.5) ==> m % 2 == 0
    ensures m == RoundHalfEven(r)
  {
  }

  /** Ties to even treats positive and negative numbers alike. */
  lemma RoundHalfEvenNegate(r: real)
    ensures RoundHalfEven(-r) == -RoundHalfEven(r)
  {
  }

  /** Integers are left as they are. */
  lemma RoundHalfEvenOfInt(k: int)
    ensures RoundHalfEven(k as real) == k
  {
  }
}
