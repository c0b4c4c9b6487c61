/** Python's round, to an integer and to four decimals. */
module Rounding {

  /** Python's round: nearest integer, ties to the even one. */
  function RoundHalfEven(x: real): (k: int)
    ensures -0.5 <= x - k as real <= 0.5
    ensures (x - k as real == 0.5 || x - k as real == -0.5) ==> k % 2 == 0
  {
    var f := x.Floor;
    if x - f as real < 0.5 then f
    else if x - f as real > 0.5 then f + 1
    else if f % 2 == 0 then f
    else f + 1
  }

  lemma RoundMonotone(x: real, y: real)
    requires x <= y
    ensures RoundHalfEven(x) <= RoundHalfEven(y)
  {
  }

  function Round4(x: real): real {
    RoundHalfEven(x * 10000.0) as real / 10000.0
  }

  /** x has at most four decimals. */
  predicate FourDecimal(x: real) {
    (x * 10000.0).Floor as real == x * 10000.0
  }

  lemma Round4FourDecimal(x: real)
    ensures FourDecimal(Round4(x))
  {
    hide RoundHalfEven;
    assert Round4(x) * 10000.0 == RoundHalfEven(x * 10000.0) as real;
  }

  lemma Round4Fixes(x: real)
    requires FourDecimal(x)
    ensures Round4(x) == x
  {
    var k := (x * 10000.0).Floor;
    assert RoundHalfEven(k as real) == k;
  }

  lemma Round4Monotone(x: real, y: real)
    requires x <= y
    ensures Round4(x) <= Round4(y)
  {
    RoundMonotone(x * 10000.0, y * 10000.0);
    hide RoundHalfEven;
  }

  lemma Round4Close(x: real)
    ensures -0.00005 <= x - Round4(x) <= 0.00005
  {
    var k := RoundHalfEven(x * 10000.0);
    hide RoundHalfEven;
  }

  /** Rounding never leaves an interval whose ends have four decimals. */
  lemma Round4Stays(low: real, x: real, high: real)
    requires FourDecimal(low) && FourDecimal(high) && low <= x <= high
    ensures low <= Round4(x) <= high
  {
    hide FourDecimal, Round4;
    Round4Fixes(low);
    Round4Fixes(high);
    Round4Monotone(low, x);
    Round4Monotone(x, high);
  }
}
