/** Python's round(x, 3) over the reals: to the nearest thousandth, ties to the even one. */
module Rounding {

  function HalfEven(x: real): int {
    var f := x.Floor;
    var part := x - f as real;
    if part < 0.5 then f
    else if part > 0.5 then f + 1
    else if f % 2 == 0 then f else f + 1
  }

  function Round3(x: real): real {
    HalfEven(x * 1000.0) as real / 1000.0
  }

  /** Rounding moves a number by at most half a thousandth and leaves thousandths alone. */
  lemma RoundIsClose(x: real)
    ensures -0.0005 <= Round3(x) - x <= 0.0005
    ensures Round3(Round3(x)) == Round3(x)
    ensures x >= 0.0 ==> Round3(x) >= 0.0
  {
    var y := x * 1000.0;
    var n := HalfEven(y);
    assert -0.5 <= n as real - y <= 0.5;
    assert Round3(x) * 1000.0 == n as real;
    assert (n as real).Floor == n;
    if x >= 0.0 {
      assert y.Floor >= 0;
    }
  }

  /** The result is the nearest number of thousandths, and of two equally near the even one. */
  lemma RoundIsNearest(x: real) returns (n: int)
    ensures Round3(x) == n as real / 1000.0
    ensures -0.5 <= n as real - 1000.0 * x <= 0.5
    ensures n as real - 1000.0 * x == 0.5 || n as real - 1000.0 * x == -0.5 ==> n % 2 == 0
  {
    n := HalfEven(x * 1000.0);
  }
}
