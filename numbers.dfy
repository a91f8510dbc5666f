/**
 * Python's numeric built-ins used by the simulator (`max`, `min`, `abs`,
 * `int(...)` on a float, `round(x, n)`), stated over exact reals.
 */
module Numbers {

  function Max(a: real, b: real): (r: real)
    ensures a <= r && b <= r
    ensures r == a || r == b
  {
    if a >= b then a else b
  }

  function Min(a: real, b: real): (r: real)
    ensures r <= a && r <= b
    ensures r == a || r == b
  {
    if a <= b then a else b
  }

  function Abs(x: real): (r: real)
    ensures 0.0 <= r
    ensures r == x || r == -x
  {
    if x < 0.0 then -x else x
  }

  /** `max(lo, min(hi, x))`: `x` forced into [lo, hi]. */
  function Clamp(x: real, lo: real, hi: real): (r: real)
    requires lo <= hi
    ensures lo <= r <= hi
    ensures lo <= x <= hi ==> r == x
    ensures x < lo ==> r == lo
    ensures hi < x ==> r == hi
  {
    Max(lo, Min(hi, x))
  }

  /** `int(x)` for a float: truncation toward zero. */
  function Trunc(x: real): (n: int)
    ensures 0.0 <= x ==> n as real <= x < n as real + 1.0
    ensures x < 0.0 ==> n as real - 1.0 < x <= n as real
    ensures Abs(n as real) <= Abs(x)
  {
    if x >= 0.0 then x.Floor else -((-x).Floor)
  }

  /** The decimal places the simulator rounds to: `round(x, 2)` and `round(x, 4)`. */
  datatype Places = Two | Four

  /** 10 to the power of the number of places. */
  function Unit(places: Places): real
  {
    match places
    case Two => 100.0
    case Four => 10000.0
  }

  /**
   * `round(x, places)`: the multiple of 10^-places nearest to `x`, a tie
   * going to the even multiple.
   */
  function Round(x: real, places: Places): (r: real)
    ensures -0.5 <= (r - x) * Unit(places) <= 0.5
  {
    match places
    case Two => RoundHalfEven(x * 100.0) as real / 100.0
    case Four => RoundHalfEven(x * 10000.0) as real / 10000.0
  }

  /** The integer nearest to `y`, a tie going to the even one. */
  function RoundHalfEven(y: real): (k: int)
    ensures -0.5 <= k as real - y <= 0.5
    ensures k as real - y == 0.5 || y - k as real == 0.5 ==> k % 2 == 0
  {
    var f := y.Floor;
    var frac := y - f as real;
    if frac < 0.5 then f
    else if frac > 0.5 then f + 1
    else if f % 2 == 0 then f
    else f + 1
  }

  lemma RoundHalfEvenMonotone(y: real, z: real)
    requires y <= z
    ensures RoundHalfEven(y) <= RoundHalfEven(z)
  {
  }

  lemma RoundHalfEvenWhole(k: int)
    ensures RoundHalfEven(k as real) == k
  {
    assert (k as real).Floor == k;
  }

  /**
   * The rounded value is a whole number of units of the last place: the
   * integer nearest to `x` scaled by 10^places, a tie going to the even one.
   */
  lemma RoundScaled(x: real, places: Places)
    ensures Round(x, places) * Unit(places) == RoundHalfEven(x * Unit(places)) as real
  {
    var u := Unit(places);
    var k := RoundHalfEven(x * u);
    assert Round(x, places) == k as real / u;
    assert (k as real / u) * u == k as real;
  }

  /** Rounding never reverses the order of two values. */
  lemma RoundMonotone(x: real, y: real, places: Places)
    requires x <= y
    ensures Round(x, places) <= Round(y, places)
  {
    match places
    case Two => RoundHalfEvenMonotone(x * 100.0, y * 100.0);
    case Four => RoundHalfEvenMonotone(x * 10000.0, y * 10000.0);
  }

  /** A whole number is left unchanged by rounding. */
  lemma RoundWhole(n: int, places: Places)
    ensures Round(n as real, places) == n as real
  {
    match places
    case Two => RoundHalfEvenWhole(n * 100);
    case Four => RoundHalfEvenWhole(n * 10000);
  }

  /** Rounding keeps a value inside any range whose ends are whole numbers. */
  lemma RoundWithin(x: real, places: Places, lo: int, hi: int)
    requires lo as real <= x <= hi as real
    ensures lo as real <= Round(x, places) <= hi as real
  {
    RoundMonotone(lo as real, x, places);
    RoundMonotone(x, hi as real, places);
    RoundWhole(lo, places);
    RoundWhole(hi, places);
  }

  /** A value of at least zero rounds to a value of at least zero. */
  lemma RoundNonNegative(x: real, places: Places)
    requires 0.0 <= x
    ensures 0.0 <= Round(x, places)
  {
    RoundMonotone(0.0, x, places);
    RoundWhole(0, places);
  }
}
