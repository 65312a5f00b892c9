/**
 * Rounding functions and the small facts about multiplication by a
 * positive factor that the calculation's rounding bounds rest on.
 */
module RealArith {

  /** ROUNDDOWN(x, 0), the source's Math.floor. */
  function Floor(x: real): (r: int)
    ensures r as real <= x < r as real + 1.0
  {
    x.Floor
  }

  /** ROUNDUP(x, 0), the source's Math.ceil, written with floor. */
  function Ceil(x: real): (r: int)
    ensures x <= r as real < x + 1.0
  {
    -((-x).Floor)
  }

  lemma MulSign(a: real, s: real)
    requires s > 0.0
    ensures a >= 0.0 ==> a * s >= 0.0
    ensures a > 0.0 ==> a * s > 0.0
  {
  }

  /** `m < f` and `m * r < f * r` agree for a positive factor r. */
  lemma MulLessCancel(m: real, f: real, r: real)
    requires r > 0.0
    ensures m < f <==> m * r < f * r
  {
    MulSign(f - m, r);
    MulSign(m - f, r);
    assert (f - m) * r == f * r - m * r;
  }

  /** Dividing by a positive number keeps the sign. */
  lemma DivSign(a: real, b: real)
    requires b > 0.0
    ensures a / b == 0.0 <==> a == 0.0
    ensures a / b > 0.0 <==> a > 0.0
  {
    assert (a / b) * b == a;
    MulLessCancel(0.0, a / b, b);
  }

  /** Products of non-negative factors grow with each factor. */
  lemma MulMonotone(a: real, b: real, c: real, d: real)
    requires 0.0 <= a <= b && 0.0 <= c <= d
    ensures a * c <= b * d
  {
    if c > 0.0 {
      MulSign(b - a, c);
      assert (b - a) * c == b * c - a * c;
    }
    if b > 0.0 {
      MulSign(d - c, b);
      assert (d - c) * b == b * d - b * c;
    }
  }

  /** Dividing by a positive number keeps the order. */
  lemma DivMonotone(x: real, y: real, d: real)
    requires x <= y && d > 0.0
    ensures x / d <= y / d
  {
    assert (x / d) * d == x && (y / d) * d == y;
    MulLessCancel(y / d, x / d, d);
  }

  /** A positive number divided by a larger positive divisor is no larger. */
  lemma DivAntitone(a: real, x: real, y: real)
    requires a > 0.0 && 0.0 < x <= y
    ensures a / y <= a / x
  {
    var u, w := a / x, a / y;
    assert u * x == a && w * y == a;
    MulSign(u, x);
    assert u > 0.0;
    MulMonotone(x, y, u, u);
    assert x * u <= y * u;
    MulLessCancel(u, w, y);
  }

  /** ceil is monotone. */
  lemma CeilMonotone(x: real, y: real)
    requires x <= y
    ensures Ceil(x) <= Ceil(y)
  {
  }

  /** The sign of the product a * b * c / 1000000 * m for positive a and b. */
  lemma ProductSign(a: real, b: real, c: real, m: real)
    ensures a > 0.0 && b > 0.0 && c > 0.0 && m >= 0.0 ==> a * b * c / 1000000.0 * m >= 0.0
    ensures a > 0.0 && b > 0.0 && c > 0.0 && m > 0.0 ==> a * b * c / 1000000.0 * m > 0.0
    ensures a > 0.0 && b > 0.0 && c < 0.0 && m > 0.0 ==> a * b * c / 1000000.0 * m < 0.0
  {
    if a > 0.0 && b > 0.0 && c != 0.0 {
      MulSign(a, b);
      var ab := a * b;
      assert ab > 0.0;
      MulSign(c, ab);
      MulSign(-c, ab);
      assert c > 0.0 ==> ab * c > 0.0;
      assert c < 0.0 ==> -c * ab > 0.0;
      assert -c * ab == -(ab * c);
      var x := ab * c / 1000000.0;
      assert x * m == m * x;
      if c > 0.0 {
        MulSign(m, x);
      } else {
        MulSign(m, -x);
        assert m * -x == -(x * m);
      }
    }
  }

  /** A value rounded down to a whole number of steps s lies within one step below it. */
  lemma RoundDownScaled(n: real, q: real, s: real, x: real)
    requires s > 0.0 && q * s == x
    requires n <= q < n + 1.0
    ensures x - s < n * s <= x
  {
    MulSign(n + 1.0 - q, s);
    assert (n + 1.0 - q) * s > 0.0;
    assert (n + 1.0 - q) * s == n * s + s - q * s;
    assert n * s + s - q * s > 0.0;
    assert n * s + s - x > 0.0;
    assert x - s < n * s;
    MulSign(q - n, s);
    assert (q - n) * s >= 0.0;
    assert (q - n) * s == q * s - n * s;
    assert q * s - n * s >= 0.0;
  }

  /** A value rounded up to a whole number of steps s lies within one step above it. */
  lemma RoundUpScaled(n: real, q: real, s: real, x: real)
    requires s > 0.0 && q * s == x
    requires q <= n < q + 1.0
    ensures x <= n * s < x + s
  {
    MulSign(q + 1.0 - n, s);
    assert (q + 1.0 - n) * s > 0.0;
    assert (q + 1.0 - n) * s == q * s + s - n * s;
    assert q * s + s - n * s > 0.0;
    assert x + s - n * s > 0.0;
    assert n * s < x + s;
    MulSign(n - q, s);
    assert (n - q) * s >= 0.0;
    assert (n - q) * s == n * s - q * s;
    assert n * s - q * s >= 0.0;
  }

  /** (k * g) leaves no remainder modulo g. */
  lemma MulMod(k: int, g: int)
    requires g > 0
    ensures (k * g) % g == 0
  {
    var q := (k * g) / g;
    var m := (k * g) % g;
    assert k * g == q * g + m;
    assert (k - q) * g == k * g - q * g;
    SmallMultipleIsZero(k - q, g);
  }

  /** The only multiple of g in [0, g) is zero. */
  lemma SmallMultipleIsZero(a: int, g: int)
    requires g > 0 && 0 <= a * g < g
    ensures a == 0
  {
  }

  /** floor(n / g) * g lies in the window (n - g, n]. */
  lemma FloorTimesBounds(n: int, g: int)
    requires g > 0
    ensures var k := Floor(n as real / g as real); k * g <= n < k * g + g
  {
    var q := n as real / g as real;
    var k := Floor(q);
    assert q * g as real == n as real;
    RoundDownScaled(k as real, q, g as real, n as real);
    assert (k * g) as real == k as real * g as real;
    assert n as real < (k * g + g) as real;
  }
}
