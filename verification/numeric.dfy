/**
 * Real-number helpers shared by the scoring code: `min`/`max` clamps,
 * absolute value, and Python's `round(x, ndigits)` taken as exact
 * round-half-to-even on real numbers.
 */
module Numeric {

  function Min(a: real, b: real): (r: real)
    ensures r <= a && r <= b && (r == a || r == b)
  {
    if a <= b then a else b
  }

  function Max(a: real, b: real): (r: real)
    ensures r >= a && r >= b && (r == a || r == b)
  {
    if a >= b then a else b
  }

  function Abs(x: real): (r: real)
    ensures r >= 0.0 && (r == x || r == -x)
  {
    if x >= 0.0 then x else -x
  }

  /** `min(hi, max(lo, x))`, as the scoring functions write their clamps. */
  function Clamp(x: real, lo: real, hi: real): (r: real)
    requires lo <= hi
    ensures lo <= r <= hi
    ensures lo <= x <= hi ==> r == x
  {
    Min(hi, Max(lo, x))
  }

  function Pow10(n: nat): (r: nat)
    ensures r >= 1
  {
    if n == 0 then 1 else 10 * Pow10(n - 1)
  }

  /** Nearest integer to `y`; a tie goes to the even neighbour (Python 3 rounding). */
  function RoundHalfEven(y: real): (n: int)
    ensures -0.5 <= n as real - y <= 0.5
    ensures y - y.Floor as real != 0.5 ==> -0.5 < n as real - y < 0.5
    ensures y - y.Floor as real == 0.5 ==> n % 2 == 0
  {
    var f := y.Floor;
    var frac := y - f as real;
    if frac < 0.5 then f
    else if frac > 0.5 then f + 1
    else if f % 2 == 0 then f
    else f + 1
  }

  /** `x` shifted `places` decimal digits to the left. */
  function Scale(x: real, places: nat): real {
    x * Pow10(places) as real
  }

  /** `y` shifted `places` decimal digits to the right. */
  function Unscale(y: real, places: nat): real {
    y / Pow10(places) as real
  }

  /**
   * Python's `round(x, places)` on exact reals: the result is never more than
   * half a unit in the last place away from `x`.
   */
  function Round(x: real, places: nat): (r: real)
    ensures Abs(r - x) <= 0.5 / Pow10(places) as real
  {
    ShiftedRoundError(x, places);
    Unscale(RoundHalfEven(Scale(x, places)) as real, places)
  }

  lemma RoundHalfEvenMonotone(y: real, z: real)
    requires y <= z
    ensures RoundHalfEven(y) <= RoundHalfEven(z)
  {
    var fy, fz := y.Floor, z.Floor;
    if fy < fz {
      assert RoundHalfEven(y) <= fy + 1 <= fz <= RoundHalfEven(z);
    } else {
      assert fy == fz;
    }
  }

  lemma RoundHalfEvenOfInt(k: int)
    ensures RoundHalfEven(k as real) == k
  {
    assert (k as real).Floor == k;
  }

  lemma ScaleMonotone(x: real, z: real, places: nat)
    requires x <= z
    ensures Scale(x, places) <= Scale(z, places)
  {
    var s := Pow10(places) as real;
    assert z * s - x * s == (z - x) * s;
  }

  lemma UnscaleMonotone(y: real, w: real, places: nat)
    requires y <= w
    ensures Unscale(y, places) <= Unscale(w, places)
  {
    var s := Pow10(places) as real;
    assert w / s - y / s == (w - y) / s;
  }

  lemma UnscaleScale(x: real, places: nat)
    ensures Unscale(Scale(x, places), places) == x
  {
    var s := Pow10(places) as real;
    assert (x * s) / s == x;
  }

  /** Shifting a whole number gives a whole number. */
  lemma ScaleOfInt(k: int, places: nat)
    ensures Scale(k as real, places) == (k * Pow10(places)) as real
  {
  }

  lemma UnscaleLinear(a: real, b: real, places: nat)
    ensures Unscale(a, places) - Unscale(b, places) == Unscale(a - b, places)
    ensures Unscale(-a, places) == -Unscale(a, places)
  {
    var s := Pow10(places) as real;
    assert a / s - b / s == (a - b) / s;
    assert (-a) / s == -(a / s);
  }

  /** Rounding the shifted value moves `x` by at most half a unit in the last place. */
  lemma ShiftedRoundError(x: real, places: nat)
    ensures Abs(Unscale(RoundHalfEven(Scale(x, places)) as real, places) - x) <= 0.5 / Pow10(places) as real
  {
    var y := Scale(x, places);
    var n := RoundHalfEven(y) as real;
    UnscaleScale(x, places);
    UnscaleLinear(n, y, places);
    UnscaleLinear(0.5, 0.0, places);
    UnscaleMonotone(n - y, 0.5, places);
    UnscaleMonotone(-0.5, n - y, places);
  }

  /** Rounding preserves order. */
  lemma RoundMonotone(x: real, z: real, places: nat)
    requires x <= z
    ensures Round(x, places) <= Round(z, places)
  {
    ScaleMonotone(x, z, places);
    RoundHalfEvenMonotone(Scale(x, places), Scale(z, places));
    UnscaleMonotone(RoundHalfEven(Scale(x, places)) as real, RoundHalfEven(Scale(z, places)) as real, places);
  }

  /** Whole numbers are left unchanged by rounding. */
  lemma RoundOfInt(k: int, places: nat)
    ensures Round(k as real, places) == k as real
  {
    ScaleOfInt(k, places);
    RoundHalfEvenOfInt(k * Pow10(places));
    UnscaleScale(k as real, places);
  }

  /** A value already exact to `places` decimals is left unchanged by rounding. */
  lemma RoundOfExact(x: real, k: int, places: nat)
    requires Scale(x, places) == k as real
    ensures Round(x, places) == x
  {
    RoundHalfEvenOfInt(k);
    UnscaleScale(x, places);
  }

  /** Rounding maps the closed interval [lo, hi] with whole-number ends into itself. */
  lemma {:induction false} RoundWithin(x: real, lo: int, hi: int, places: nat)
    requires lo as real <= x <= hi as real
    ensures lo as real <= Round(x, places) <= hi as real
  {
    RoundMonotone(lo as real, x, places);
    RoundMonotone(x, hi as real, places);
    RoundOfInt(lo, places);
    RoundOfInt(hi, places);
  }
}
