/** Option and Result, the usual failure-carrying wrappers. */
module Wrappers {
  datatype Option<+T> = None | Some(value: T)

  datatype Result<+T, +E> = Success(value: T) | Failure(error: E)

  /** `o ?? default`: the value when present, the default otherwise. */
  function GetOr<T>(o: Option<T>, default: T): T
  {
    if o.Some? then o.value else default
  }
}

/**
 * The bits of JavaScript arithmetic and of the `Math` object that the
 * simulation relies on: `Math.PI`, the remainder operator, non-finite
 * results of a division by zero, linear interpolation, and the
 * trigonometric functions, which stay uninterpreted (they are passed in).
 */
module JsMath {

  /** `Math.PI`, written as the shortest decimal that rounds to that double. */
  const Pi: real := 3.141592653589793

  /** `2 * Math.PI`, the angle of one full turn. */
  const TwoPi: real := 2.0 * Pi

  /** The quotient of `a` by `m` rounded toward zero, as JavaScript's `%` pairs with. */
  function TruncQuot(a: int, m: int): int
    requires m > 0
  {
    if a >= 0 then a / m else -((-a) / m)
  }

  /**
   * JavaScript `a % m` on integers: it truncates toward zero, so the result
   * takes the sign of the dividend (Dafny's `%` never goes negative).
   */
  function JsRem(a: int, m: int): (r: int)
    requires m > 0
    ensures a == TruncQuot(a, m) * m + r
    ensures a >= 0 ==> 0 <= r < m
    ensures a < 0 ==> -m < r <= 0
  {
    if a >= 0 then a % m
    else
      assert -a == ((-a) / m) * m + (-a) % m;
      -((-a) % m)
  }

  /**
   * A JavaScript number as far as the model needs to tell them apart:
   * a finite value, or one of Infinity, -Infinity and NaN, which every
   * further addition or multiplication keeps non-finite.
   */
  datatype Number = Finite(value: real) | NonFinite

  /** `a + b` on numbers. */
  function Add(a: Number, b: Number): (r: Number)
    ensures r.Finite? <==> a.Finite? && b.Finite?
    ensures r.Finite? ==> r.value - a.value == b.value
  {
    if a.Finite? && b.Finite? then Finite(a.value + b.value) else NonFinite
  }

  /** The uninterpreted `Math.sin`, `Math.cos` and `Math.acos`. */
  datatype Trig = Trig(sin: real -> real, cos: real -> real, acos: real -> real)

  /** A point or vector with finite coordinates. */
  datatype Vec3 = Vec3(x: real, y: real, z: real)

  /** `THREE.MathUtils.lerp(x, y, t)`, written as the library writes it. */
  function Lerp(x: real, y: real, t: real): real
  {
    (1.0 - t) * x + t * y
  }

  lemma ProductPositive(a: real, b: real)
    requires a > 0.0 && b > 0.0
    ensures a * b > 0.0
  {
  }

  lemma ProductNonNegative(a: real, b: real)
    requires a >= 0.0 && b >= 0.0
    ensures a * b >= 0.0
  {
  }

  /** A positive number over a positive one is positive, over a negative one negative. */
  lemma QuotientSign(a: real, b: real)
    requires a > 0.0 && b != 0.0
    ensures b > 0.0 ==> a / b > 0.0
    ensures b < 0.0 ==> a / b < 0.0
  {
    var q := a / b;
    assert q * b == a;
    if b > 0.0 && q <= 0.0 {
      ProductNonNegative(-q, b);
    } else if b < 0.0 && q >= 0.0 {
      ProductNonNegative(q, -b);
    }
  }

  lemma LerpAboveLow(x: real, y: real, t: real)
    requires x <= y && 0.0 <= t
    ensures x <= Lerp(x, y, t)
  {
    assert Lerp(x, y, t) == x + t * (y - x);
    ProductNonNegative(t, y - x);
  }

  lemma LerpBelowHigh(x: real, y: real, t: real)
    requires x < y && t < 1.0
    ensures Lerp(x, y, t) < y
  {
    assert Lerp(x, y, t) == y - (1.0 - t) * (y - x);
    ProductPositive(1.0 - t, y - x);
  }

  lemma LerpOfEqualEnds(x: real, t: real)
    ensures Lerp(x, x, t) == x
  {
    assert Lerp(x, x, t) == x + t * (x - x);
  }

  /** Interpolating with t in [0, 1) stays in [x, y) when x < y, and is x when x == y. */
  lemma LerpBounds(x: real, y: real, t: real)
    requires x <= y && 0.0 <= t < 1.0
    ensures x <= Lerp(x, y, t)
    ensures x < y ==> Lerp(x, y, t) < y
    ensures x == y ==> Lerp(x, y, t) == x
  {
    LerpAboveLow(x, y, t);
    if x < y {
      LerpBelowHigh(x, y, t);
    } else {
      LerpOfEqualEnds(x, t);
    }
  }
}
