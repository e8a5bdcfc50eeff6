/** Python's `round` on exact numbers: to the nearest grid point, ties to the even one. */
module Rounding {

  function RoundInt(x: real): (n: int)
    ensures -0.5 <= n as real - x <= 0.5
    ensures n as real - x == 0.5 || n as real - x == -0.5 ==> n % 2 == 0
  {
    var f := x.Floor;
    var rest := x - f as real;
    if rest < 0.5 || (rest == 0.5 && f % 2 == 0) then f else f + 1
  }

  /** `round(x, 2)` */
  function Round2(x: real): real {
    RoundInt(x * 100.0) as real / 100.0
  }

  /** `round(x, 6)` */
  function Round6(x: real): real {
    RoundInt(x * 1000000.0) as real / 1000000.0
  }

  lemma {:induction false} RoundIntOfInt(n: int)
    ensures RoundInt(n as real) == n
  {
    assert (n as real).Floor == n;
  }

  lemma {:induction false} RoundIntMonotone(x: real, y: real)
    requires x <= y
    ensures RoundInt(x) <= RoundInt(y)
  {
    assert x.Floor <= y.Floor;
  }

  /** Rounding a rounded number changes nothing. */
  lemma {:induction false} Round6Idempotent(x: real)
    ensures Round6(Round6(x)) == Round6(x)
  {
    RoundIntOfInt(RoundInt(x * 1000000.0));
    assert Round6(x) * 1000000.0 == RoundInt(x * 1000000.0) as real;
  }

  lemma {:induction false} Round2OfInt(n: int)
    ensures Round2(n as real) == n as real
  {
    RoundIntOfInt(100 * n);
    assert n as real * 100.0 == (100 * n) as real;
  }

  /** Rounding never leaves an interval whose ends are whole numbers. */
  lemma {:induction false} Round2Within(x: real, low: int, high: int)
    requires low as real <= x <= high as real
    ensures low as real <= Round2(x) <= high as real
  {
    RoundIntMonotone(low as real * 100.0, x * 100.0);
    RoundIntMonotone(x * 100.0, high as real * 100.0);
    Round2OfInt(low);
    Round2OfInt(high);
  }

  /** A number rounds to zero at two digits exactly within half a hundredth. */
  lemma {:induction false} Round2Zero(x: real)
    ensures Round2(x) == 0.0 <==> -0.005 <= x <= 0.005
  {
    var y := x * 100.0;
    if Round2(x) == 0.0 {
      assert RoundInt(y) == 0;
    }
    if -0.5 <= y <= 0.5 {
      assert y.Floor == 0 || y.Floor == -1;
    }
  }
}
