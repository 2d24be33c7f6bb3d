/** JavaScript number operations on exact reals: `Math.floor`, `Math.min`,
    `Math.max` and the remainder operator `%`, which truncates toward zero
    (unlike Dafny's Euclidean `%`). NaN and the infinities are not modelled. */
module JsMath {

  function Min(a: real, b: real): (r: real)
    ensures r <= a && r <= b && (r == a || r == b)
  {
    if a <= b then a else b
  }

  function Max(a: real, b: real): (r: real)
    ensures r >= a && r >= b && (r == a || r == b)
  {
    if a >= b then a else b
  }

  /** `Math.min` and `Math.max` on whole numbers, for the volume steps, which stay
      integers from 0 to 100. */
  function MinInt(a: int, b: int): (r: int)
    ensures r <= a && r <= b && (r == a || r == b)
  {
    if a <= b then a else b
  }

  function MaxInt(a: int, b: int): (r: int)
    ensures r >= a && r >= b && (r == a || r == b)
  {
    if a >= b then a else b
  }

  /** `Math.floor(x)`. */
  function Floor(x: real): (r: int)
    ensures r as real <= x < r as real + 1.0
  {
    x.Floor
  }

  /** Rounding toward zero, as ToInt32-free `%` uses it. */
  function Trunc(x: real): (r: int)
    ensures x >= 0.0 ==> r == Floor(x)
    ensures x < 0.0 ==> r == -Floor(-x)
  {
    if x >= 0.0 then x.Floor else -((-x).Floor)
  }

  /** `a % b` on numbers: the result has the sign of `a`. */
  function Rem(a: real, b: real): (r: real)
    requires b > 0.0
    ensures a >= 0.0 ==> 0.0 <= r < b
    ensures a < 0.0 ==> -b < r <= 0.0
  {
    var q := Trunc(a / b);
    QuotientBounds(a, b, q);
    a - q as real * b
  }

  lemma DivTimes(a: real, b: real)
    requires b > 0.0
    ensures (a / b) * b == a
  {
  }

  lemma TimesMonotone(x: real, y: real, c: real)
    requires x <= y && c >= 0.0
    ensures x * c <= y * c
  {
  }

  lemma TimesStrict(x: real, y: real, c: real)
    requires x < y && c > 0.0
    ensures x * c < y * c
  {
  }

  /** Multiplying `lo <= a / b < hi` through by a positive divisor. */
  lemma ScaleBracket(lo: real, hi: real, a: real, b: real)
    requires b > 0.0 && lo <= a / b < hi
    ensures lo * b <= a < hi * b
  {
    DivTimes(a, b);
    TimesMonotone(lo, a / b, b);
    TimesStrict(a / b, hi, b);
  }

  /** Multiplying `lo < a / b <= hi` through by a positive divisor. */
  lemma ScaleBracketNeg(lo: real, hi: real, a: real, b: real)
    requires b > 0.0 && lo < a / b <= hi
    ensures lo * b < a <= hi * b
  {
    var d := a / b;
    DivTimes(a, b);
    TimesStrict(lo, d, b);
    assert lo * b < a;
    TimesMonotone(d, hi, b);
  }

  /** The sign of a quotient by a positive divisor is the sign of the dividend. */
  lemma QuotientSign(a: real, b: real)
    requires b > 0.0
    ensures a >= 0.0 <==> a / b >= 0.0
  {
    DivTimes(a, b);
    if a / b < 0.0 { TimesStrict(a / b, 0.0, b); }
    if a / b >= 0.0 { TimesMonotone(0.0, a / b, b); }
  }

  /** A quotient by a positive divisor reaches 1 exactly when the dividend reaches the divisor. */
  lemma QuotientUnit(a: real, b: real)
    requires b > 0.0
    ensures a <= b <==> a / b <= 1.0
    ensures a >= b <==> a / b >= 1.0
  {
    DivTimes(a, b);
    if a / b < 1.0 { TimesStrict(a / b, 1.0, b); }
    if a / b > 1.0 { TimesStrict(1.0, a / b, b); }
  }

  /** The truncated quotient brackets the dividend between two multiples of the divisor. */
  lemma QuotientBounds(a: real, b: real, q: int)
    requires b > 0.0 && q == Trunc(a / b)
    ensures a >= 0.0 ==> q as real * b <= a < (q as real + 1.0) * b
    ensures a < 0.0 ==> (q as real - 1.0) * b < a <= q as real * b
  {
    QuotientSign(a, b);
    if a >= 0.0 {
      ScaleBracket(q as real, q as real + 1.0, a, b);
    } else {
      ScaleBracketNeg(q as real - 1.0, q as real, a, b);
    }
  }

  /** Flooring a quotient only depends on the floor of the dividend. */
  lemma FloorOfQuotient(x: real, n: int)
    requires n > 0
    ensures Floor(x / n as real) == Floor(x) / n
  {
    var f := Floor(x);
    var q, r := f / n, f % n;
    assert f == n * q + r && 0 <= r < n;
    var nr := n as real;
    DivTimes(x, nr);
    assert (q as real) * nr + r as real == f as real;
    assert (q as real) * nr <= x;
    assert x < (q as real + 1.0) * nr by {
      assert x < f as real + 1.0;
      assert (r as real) + 1.0 <= nr;
    }
    QuotientAtLeast(x, q as real, nr);
    QuotientBelow(x, q as real + 1.0, nr);
  }

  /** Dividing `c * b <= x` by a positive `b`. */
  lemma QuotientAtLeast(x: real, c: real, b: real)
    requires b > 0.0 && c * b <= x
    ensures c <= x / b
  {
    DivTimes(x, b);
    if x / b < c {
      TimesStrict(x / b, c, b);
    }
  }

  /** Dividing `x < c * b` by a positive `b`. */
  lemma QuotientBelow(x: real, c: real, b: real)
    requires b > 0.0 && x < c * b
    ensures x / b < c
  {
    DivTimes(x, b);
    if x / b >= c {
      TimesMonotone(c, x / b, b);
    }
  }

  /** Flooring after subtracting a whole number. */
  lemma FloorMinusInt(x: real, k: int)
    ensures Floor(x - k as real) == Floor(x) - k
  {
  }

  /** For a non-negative dividend and a whole divisor, `Math.floor(x % n)` is the
      Euclidean remainder of `Math.floor(x)`. */
  lemma FloorOfRem(x: real, n: int)
    requires x >= 0.0 && n > 0
    ensures Trunc(x / n as real) == Floor(x) / n
    ensures Rem(x, n as real) == x - ((Floor(x) / n) * n) as real
    ensures Floor(Rem(x, n as real)) == Floor(x) % n
  {
    FloorOfQuotient(x, n);
    assert x / n as real >= 0.0;
    var q := Floor(x) / n;
    FloorMinusInt(x, q * n);
  }
}
