/**
  The Kotlin numeric primitives the app relies on, over mathematical reals:
  truncation toward zero (`toInt`), the two remainders by 360 (`%`
  truncates, `.mod` floors) and `kotlin.math.round` (ties to even).
  Floating-point rounding and NaN are not modelled.
*/
module Numerics {

  /** Bounds of Kotlin's 32-bit `Int`. */
  const IntMax: int := 0x7fff_ffff
  const IntMin: int := -0x8000_0000

  /** `x` is a whole number of full turns: x == 360 * k for some integer k. */
  predicate WholeTurns(x: real) {
    (x / 360.0).Floor as real == x / 360.0
  }

  /** Every integer multiple of 360 is a whole number of turns. */
  lemma WholeTurnsMultiple(k: int)
    ensures WholeTurns(360.0 * k as real)
  {
    assert (360.0 * k as real) / 360.0 == k as real;
  }

  /** Whole turns are closed under negation and addition. */
  lemma WholeTurnsSum(x: real, y: real)
    requires WholeTurns(x) && WholeTurns(y)
    ensures WholeTurns(-x) && WholeTurns(x + y) && WholeTurns(x - y)
  {
    var i, j := (x / 360.0).Floor, (y / 360.0).Floor;
    assert x == 360.0 * i as real;
    assert y == 360.0 * j as real;
    WholeTurnsMultiple(-i);
    WholeTurnsMultiple(i + j);
    WholeTurnsMultiple(i - j);
  }

  /** Angles a whole number of turns apart have the same floored remainder. */
  lemma Mod360WholeTurns(a: real, b: real)
    requires WholeTurns(a - b)
    ensures Mod360(a) == Mod360(b)
  {
    var k := ((a - b) / 360.0).Floor;
    assert a / 360.0 == b / 360.0 + k as real;
    assert (a / 360.0).Floor == (b / 360.0).Floor + k;
  }

  /** Rounding toward zero. */
  function Trunc(r: real): (n: int)
    ensures 0.0 <= r ==> 0 <= n && n as real <= r < n as real + 1.0
    ensures r < 0.0 ==> n <= 0 && n as real - 1.0 < r <= n as real
  {
    if r >= 0.0 then r.Floor else -((-r).Floor)
  }

  /** Kotlin's `Float.toInt()`: rounds toward zero and saturates at the `Int` bounds. */
  function ToInt(r: real): (n: int)
    ensures IntMin <= n <= IntMax
    ensures IntMin as real <= r <= IntMax as real ==> n == Trunc(r)
    ensures IntMax as real <= r ==> n == IntMax
    ensures r <= IntMin as real ==> n == IntMin
  {
    if r >= IntMax as real then IntMax
    else if r <= IntMin as real then IntMin
    else Trunc(r)
  }

  /** Kotlin's `a.mod(360f)`: the remainder takes the divisor's sign. */
  function Mod360(a: real): (r: real)
    ensures 0.0 <= r < 360.0
    ensures WholeTurns(a - r)
  {
    var k := (a / 360.0).Floor;
    assert (360.0 * k as real) / 360.0 == k as real;
    a - 360.0 * k as real
  }

  /** Kotlin's `a % 360.0` on `Double`: the remainder takes the dividend's sign. */
  function Rem360(a: real): (r: real)
    ensures 0.0 <= a ==> 0.0 <= r < 360.0
    ensures a < 0.0 ==> -360.0 < r <= 0.0
    ensures WholeTurns(a - r)
  {
    if a >= 0.0 then Mod360(a)
    else
      var m := Mod360(-a);
      var k := ((-a - m) / 360.0).Floor;
      assert -a - m == 360.0 * k as real;
      WholeTurnsMultiple(-k);
      -m
  }

  /** `kotlin.math.round`: the nearest integer, a tie going to the even neighbour. */
  function RoundHalfEven(r: real): (n: int)
    ensures n as real - 0.5 <= r <= n as real + 0.5
    ensures r - r.Floor as real == 0.5 ==> n % 2 == 0
  {
    var f := r.Floor;
    var frac := r - f as real;
    if frac < 0.5 then f
    else if frac > 0.5 then f + 1
    else if f % 2 == 0 then f
    else f + 1
  }
}
