/**
  Exact real-number counterparts of the few numeric primitives the synthesizer uses:
  absolute value, Swift's `Int(_:)` conversion (truncation toward zero) and C's `fmod`.
  Floating-point rounding is not modelled: every value is an exact `real`.
 */
module RealArith {

  function Abs(r: real): (a: real)
    ensures a >= 0.0
    ensures a == r || a == -r
  {
    if r < 0.0 then -r else r
  }

  /** Truncation toward zero, as Swift's `Int(x)` converts a floating-point value. */
  function Trunc(r: real): (n: int)
    ensures r >= 0.0 ==> 0 <= n && n as real <= r < n as real + 1.0
    ensures r < 0.0 ==> n <= 0 && n as real - 1.0 < r <= n as real
  {
    if r >= 0.0 then r.Floor else -((-r).Floor)
  }

  /** On non-negative values truncation and flooring agree. */
  lemma TruncOfNonNegative(r: real)
    requires r >= 0.0
    ensures Trunc(r) == r.Floor
  {
  }

  /** Truncation is monotone, so a clamped input gives a clamped integer. */
  lemma TruncMonotone(r: real, s: real)
    requires r <= s
    ensures Trunc(r) <= Trunc(s)
  {
    if r >= 0.0 {
      assert r.Floor <= s.Floor;
    } else if s < 0.0 {
      assert (-s).Floor <= (-r).Floor;
    }
  }

  /** The fractional part `x - floor(x)`. */
  function Frac(x: real): (r: real)
    ensures 0.0 <= r < 1.0
  {
    x - (x.Floor as real)
  }

  /** The fractional part ignores whole units. */
  lemma FracShift(x: real)
    ensures Frac(x + 1.0) == Frac(x)
  {
    assert (x + 1.0).Floor == x.Floor + 1;
  }

  /** A whole number plus a fraction below one has that fraction as its fractional part. */
  lemma FracOfWholePlus(n: int, q: real)
    requires 0.0 <= q < 1.0
    ensures Frac(n as real + q) == q
  {
    assert (n as real + q).Floor == n;
  }

  /**
    C's `fmod(x, y)`: `x - n * y` where `n` is `x / y` truncated toward zero. The result
    carries the sign of `x` and is smaller in magnitude than `y`.
   */
  function Fmod(x: real, y: real): (r: real)
    requires y != 0.0
    ensures x >= 0.0 ==> 0.0 <= r < Abs(y)
    ensures x <= 0.0 ==> -Abs(y) < r <= 0.0
    ensures exists n: int :: r == x - Multiple(n, y)
  {
    RemainderBounds(x, y);
    x - Multiple(Trunc(x / y), y)
  }

  /**
    The contract of `Fmod` pins its value: any `r` that differs from `x` by an integer multiple
    of `y`, has the sign of `x` and is smaller in magnitude than `y` is `Fmod(x, y)`.
   */
  lemma FmodUnique(x: real, y: real, n: int, r: real)
    requires y != 0.0
    requires r == x - Multiple(n, y)
    requires x >= 0.0 ==> 0.0 <= r < Abs(y)
    requires x <= 0.0 ==> -Abs(y) < r <= 0.0
    ensures r == Fmod(x, y)
  {
    var k := Trunc(x / y);
    var f := Fmod(x, y);
    assert f == x - Multiple(k, y);
    assert f - r == Multiple(n - k, y) by {
      MultipleDifference(n, k, y);
    }
    SmallMultipleIsZero(n - k, y);
  }

  lemma MultipleDifference(n: int, k: int, y: real)
    ensures Multiple(n, y) - Multiple(k, y) == Multiple(n - k, y)
  {
  }

  /** The only integer multiple of `y` smaller in magnitude than `y` is zero. */
  lemma SmallMultipleIsZero(k: int, y: real)
    requires y != 0.0
    requires -Abs(y) < Multiple(k, y) < Abs(y)
    ensures k == 0
  {
    if k != 0 {
      NonzeroMultipleIsLarge(k, y);
    }
  }

  /** A non-zero integer multiple of `y` is at least as large in magnitude as `y`. */
  lemma NonzeroMultipleIsLarge(k: int, y: real)
    requires k != 0
    ensures Abs(Multiple(k, y)) >= Abs(y)
  {
    AbsOfMultiple(k, y);
    ScaleAtLeast(Abs(k as real), Abs(y), Abs(Multiple(k, y)));
  }

  lemma AbsOfMultiple(k: int, y: real)
    ensures Abs(Multiple(k, y)) == Abs(k as real) * Abs(y)
  {
    var c := Abs(k as real);
    var z := Abs(y);
    if k < 0 {
      if y < 0.0 {
        assert Multiple(k, y) == c * z;
      } else {
        assert Multiple(k, y) == -(c * z);
      }
    } else {
      if y < 0.0 {
        assert Multiple(k, y) == -(c * z);
      } else {
        assert Multiple(k, y) == c * z;
      }
    }
  }

  lemma ScaleAtLeast(c: real, z: real, p: real)
    requires c >= 1.0 && z >= 0.0
    requires p == c * z
    ensures p >= z
  {
    assert p - z == (c - 1.0) * z;
  }

  /** `n` times `y`, for an integer `n`. */
  function Multiple(n: int, y: real): real
  {
    (n as real) * y
  }

  /** The remainder left by a truncated quotient has the dividend's sign and a smaller magnitude. */
  lemma RemainderBounds(x: real, y: real)
    requires y != 0.0
    ensures var r := x - y * (Trunc(x / y) as real);
      && (x >= 0.0 ==> 0.0 <= r < Abs(y))
      && (x <= 0.0 ==> -Abs(y) < r <= 0.0)
  {
    var q := x / y;
    var k := Trunc(q);
    RemainderAsProduct(x, y, k);
    if x != 0.0 {
      QuotientSign(x, y);
    }
    SignedRemainder(x, y, q - k as real, x - y * (k as real));
  }

  /** The case analysis of RemainderBounds, stated over the fraction `d` the truncation leaves. */
  lemma SignedRemainder(x: real, y: real, d: real, r: real)
    requires y != 0.0
    requires r == y * d
    requires -1.0 < d < 1.0
    requires x == 0.0 ==> d == 0.0
    requires x > 0.0 ==> if y > 0.0 then d >= 0.0 else d <= 0.0
    requires x < 0.0 ==> if y > 0.0 then d <= 0.0 else d >= 0.0
    ensures x >= 0.0 ==> 0.0 <= r < Abs(y)
    ensures x <= 0.0 ==> -Abs(y) < r <= 0.0
  {
    if x == 0.0 {
      assert r == 0.0;
    } else if y > 0.0 {
      assert Abs(y) == y;
      if x > 0.0 {
        ProductBelow(y, d, r);
      } else {
        ProductBelow(y, -d, -r);
      }
    } else {
      assert Abs(y) == -y;
      if x > 0.0 {
        ProductBelow(-y, -d, r);
      } else {
        ProductBelow(-y, d, -r);
      }
    }
  }

  lemma ProductBelow(a: real, s: real, p: real)
    requires p == a * s
    requires a > 0.0
    requires 0.0 <= s < 1.0
    ensures 0.0 <= p < a
  {
    MulUnitBelow(a, s);
  }

  lemma RemainderAsProduct(x: real, y: real, k: int)
    requires y != 0.0
    ensures x - y * (k as real) == y * (x / y - k as real)
  {
  }

  lemma QuotientSign(x: real, y: real)
    requires y != 0.0 && x != 0.0
    ensures (x > 0.0) == (y > 0.0) ==> x / y > 0.0
    ensures (x > 0.0) != (y > 0.0) ==> x / y < 0.0
  {
  }

  /** A positive factor times a value in [0, 1) stays in [0, factor). */
  lemma MulUnitBelow(a: real, s: real)
    requires a > 0.0
    requires 0.0 <= s < 1.0
    ensures 0.0 <= a * s < a
  {
  }

  /** A remainder smaller than its divisor is a fraction of magnitude below one. */
  lemma RemainderRatio(m: real, y: real)
    requires y != 0.0
    requires -Abs(y) < m < Abs(y)
    ensures -1.0 < m / y < 1.0
    ensures 0.0 <= m && 0.0 < y ==> 0.0 <= m / y
    ensures 0.0 <= m && y < 0.0 ==> m / y <= 0.0
    ensures m <= 0.0 && 0.0 < y ==> m / y <= 0.0
    ensures m <= 0.0 && y < 0.0 ==> 0.0 <= m / y
  {
    var z := Abs(y);
    var a := Abs(m);
    DivBelow(a, z);
    if y > 0.0 {
      if m < 0.0 {
        assert m / y == -(a / z);
      }
    } else {
      if m >= 0.0 {
        assert m / y == -(a / z);
      } else {
        assert m / y == a / z;
      }
    }
  }

  lemma DivBelow(m: real, z: real)
    requires z > 0.0
    requires 0.0 <= m < z
    ensures 0.0 <= m / z < 1.0
  {
    var q := m / z;
    assert q * z == m;
    assert (1.0 - q) * z == z - m;
    SignOfFactor(1.0 - q, z);
    SignOfFactor(q, z);
  }

  /** With a positive second factor, the first factor has the product's sign. */
  lemma SignOfFactor(a: real, z: real)
    requires z > 0.0
    ensures a * z > 0.0 ==> a > 0.0
    ensures a * z >= 0.0 ==> a >= 0.0
  {
  }

  /** Scaling a value of [-1, 1] by a non-negative amplitude stays within that amplitude. */
  lemma ScaleWithinUnit(a: real, s: real)
    requires a >= 0.0
    requires -1.0 <= s <= 1.0
    ensures -a <= a * s <= a
    ensures 0.0 <= s ==> 0.0 <= a * s
  {
  }

  /** A non-zero factor can be cancelled from both sides of an equation. */
  lemma CancelFactor(a: real, b: real, z: real)
    requires z != 0.0
    requires a * z == b * z
    ensures a == b
  {
    assert (a - b) * z == 0.0;
  }

  /** Multiplying by a positive factor preserves strict order. */
  lemma MulStrictMonotone(a: real, s: real, u: real)
    requires a > 0.0
    requires s < u
    ensures a * s < a * u
  {
    assert a * u - a * s == a * (u - s);
  }
}
