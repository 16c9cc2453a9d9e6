/** Python's built-in `round` with no digits argument: the nearest integer,
    and on an exact tie the even one ("banker's rounding"). */
module PyRound {

  /** `r` is a nearest integer to `x`, the even one when `x` lies exactly
      half way between two integers. */
  ghost predicate NearestEven(x: real, r: int)
  {
    var d := x - r as real;
    (-0.5 < d < 0.5) || ((d == 0.5 || d == -0.5) && r % 2 == 0)
  }

  function Round(x: real): (r: int)
    ensures NearestEven(x, r)
  {
    var f := x.Floor;
    var frac := x - f as real;
    if frac < 0.5 then f
    else if frac > 0.5 then f + 1
    else if f % 2 == 0 then f
    else f + 1
  }

  /** NearestEven pins the integer down: Round is the only function that
      meets its own contract. */
  lemma RoundUnique(x: real, r: int)
    requires NearestEven(x, r)
    ensures r == Round(x)
  {
  }

  /** Ties go to the even neighbour, not up: round(0.5) == 0,
      round(1.5) == 2, round(2.5) == 2, round(-2.5) == -2. */
  lemma RoundHalfToEvenExamples()
    ensures Round(0.5) == 0 && Round(1.5) == 2 && Round(2.5) == 2
    ensures Round(3.5) == 4 && Round(-2.5) == -2 && Round(2.4) == 2 && Round(2.6) == 3
  {
    RoundUnique(0.5, 0);
    RoundUnique(1.5, 2);
    RoundUnique(2.5, 2);
    RoundUnique(3.5, 4);
    RoundUnique(-2.5, -2);
    RoundUnique(2.4, 2);
    RoundUnique(2.6, 3);
  }

  /** Integers round to themselves. */
  lemma RoundOfInteger(n: int)
    ensures Round(n as real) == n
  {
    RoundUnique(n as real, n);
  }

  lemma RoundNonNegative(x: real)
    requires x >= 0.0
    ensures Round(x) >= 0
  {
  }
}
