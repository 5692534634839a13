/**
 * The JVM arithmetic conventions that the simulator's Java code relies on,
 * stated over Dafny's exact reals and unbounded integers: NaN, the truncating
 * remainders of `%` on int and double, and the angle normalisation loops that
 * the camera, robot camera and radar sensors share.
 */
module Numerics {

  /** A Java double as far as the model needs one: NaN, or an ordinary value. */
  datatype Dbl = NaN | Num(v: real)

  /** d + x in double arithmetic: NaN absorbs the addition. */
  function DblAdd(d: Dbl, x: real): (r: Dbl)
    ensures r.NaN? <==> d.NaN?
    ensures d.Num? ==> r.v - x == d.v
  {
    match d
    case NaN => NaN
    case Num(v) => Num(v + x)
  }

  /** Math.PI. */
  const PI: real := 3.141592653589793
  const TWO_PI: real := 2.0 * PI

  /** Math.abs on doubles. */
  function Abs(x: real): (r: real)
    ensures r >= 0.0 && (r == x || r == -x)
  {
    if x < 0.0 then -x else x
  }

  /** Truncation toward zero, the rounding of a Java narrowing cast. */
  function Trunc(x: real): (n: int)
    ensures x >= 0.0 ==> 0 <= n && n as real <= x < n as real + 1.0
    ensures x < 0.0 ==> n <= 0 && n as real - 1.0 < x <= n as real
  {
    if x >= 0.0 then x.Floor else -((-x).Floor)
  }

  /**
   * Java's `%` on doubles: a - b * trunc(a / b), so the remainder carries the
   * sign of the dividend and is smaller than the divisor in magnitude.
   */
  function FMod(a: real, b: real): (r: real)
    requires b != 0.0
    ensures Abs(r) < Abs(b)
    ensures a >= 0.0 ==> r >= 0.0
    ensures a <= 0.0 ==> r <= 0.0
    ensures exists k: int :: a == Shifted(r, b, k)
  {
    var q := Trunc(a / b);
    var r := a - b * (q as real);
    assert a == Shifted(r, b, q);
    TruncRemainder(a, b, q);
    r
  }

  /** r moved by k whole multiples of b. */
  function Shifted(r: real, b: real, k: int): real
  {
    r + b * (k as real)
  }

  lemma TruncRemainder(a: real, b: real, q: int)
    requires b != 0.0 && q == Trunc(a / b)
    ensures Abs(a - b * (q as real)) < Abs(b)
    ensures a >= 0.0 ==> a - b * (q as real) >= 0.0
    ensures a <= 0.0 ==> a - b * (q as real) <= 0.0
  {
    var t := a / b;
    assert a == b * t;
    var f := t - q as real;
    assert a - b * (q as real) == b * f;
    assert Abs(f) < 1.0;
    assert t >= 0.0 ==> f >= 0.0;
    assert t <= 0.0 ==> f <= 0.0;
    ScaledBelow(b, f);
  }

  /** |b * f| < |b| when |f| < 1, and b * f has the sign of b times that of f. */
  lemma ScaledBelow(b: real, f: real)
    requires b != 0.0 && Abs(f) < 1.0
    ensures Abs(b * f) < Abs(b)
    ensures (b > 0.0 && f >= 0.0) || (b < 0.0 && f <= 0.0) ==> b * f >= 0.0
    ensures (b > 0.0 && f <= 0.0) || (b < 0.0 && f >= 0.0) ==> b * f <= 0.0
  {
    assert Abs(b * f) == Abs(b) * Abs(f);
    assert Abs(b) * Abs(f) < Abs(b) * 1.0;
  }

  /** Java's `%` on int: truncating division, so the remainder has the dividend's sign. */
  function IntRem(a: int, b: int): (r: int)
    requires b != 0
    ensures a >= 0 ==> r == a % IntAbs(b)
    ensures a < 0 ==> r == -((-a) % IntAbs(b))
    ensures -(IntAbs(b) as int) < r < IntAbs(b)
    ensures a >= 0 ==> r >= 0
    ensures a <= 0 ==> r <= 0
  {
    if a >= 0 then a % IntAbs(b) else -((-a) % IntAbs(b))
  }

  function IntAbs(n: int): (r: nat)
    ensures r == n || r == -n
  {
    if n < 0 then -n else n
  }

  /** The angle a moved by k whole turns. */
  function Turns(a: real, k: int): real
  {
    a + (k as real) * TWO_PI
  }

  /**
   * The loop pair `while (a < -PI) a += 2 * PI; while (a > PI) a -= 2 * PI;`
   * that brings a bearing into [-PI, PI] by whole turns.
   */
  method NormalizeAngle(a: real) returns (r: real, ghost k: int)
    ensures -PI <= r <= PI
    ensures r == Turns(a, k)
    ensures -PI <= a <= PI ==> r == a
  {
    r := a;
    k := 0;
    ghost var bound := ((-PI - a) / TWO_PI).Floor + 1;
    while r < -PI
      invariant r == Turns(a, k) && 0 <= k
      invariant k > 0 ==> r < PI
      invariant r < -PI ==> k + 1 <= bound
      invariant -PI <= a <= PI ==> k == 0
      decreases bound - k
    {
      r := r + TWO_PI;
      k := k + 1;
    }
    ghost var k1 := k;
    ghost var bound2 := ((r - PI) / TWO_PI).Floor + 1;
    while r > PI
      invariant r == Turns(a, k) && k <= k1
      invariant r >= -PI
      invariant r > PI ==> k1 - k + 1 <= bound2
      invariant -PI <= a <= PI ==> k == 0
      decreases bound2 - (k1 - k)
    {
      r := r - TWO_PI;
      k := k - 1;
    }
  }
}
