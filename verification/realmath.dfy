/** Real-number helpers shared by every part of the model: the `java.lang.Math`
    operations the robot code uses (abs, max, min, the clamp idiom, the
    truncating `%` on doubles), a relational stand-in for `Math.sqrt`, and the
    "is an integer multiple of" relation used to state angle normalisation.

    Doubles are modelled as mathematical reals; rounding is not modelled. */
module RealMath {

  datatype Option<+T> = None | Some(value: T)

  function Abs(x: real): (r: real)
    ensures r >= 0.0
    ensures r == x || r == -x
  {
    if x < 0.0 then -x else x
  }

  function Max(a: real, b: real): (r: real)
    ensures r >= a && r >= b
    ensures r == a || r == b
  {
    if a >= b then a else b
  }

  function Min(a: real, b: real): (r: real)
    ensures r <= a && r <= b
    ensures r == a || r == b
  {
    if a <= b then a else b
  }

  /** `Math.max(lo, Math.min(hi, v))`, the clamp idiom of the source. */
  function Clamp(v: real, lo: real, hi: real): (r: real)
    requires lo <= hi
    ensures lo <= r <= hi
    ensures lo <= v <= hi ==> r == v
    ensures v < lo ==> r == lo
    ensures v > hi ==> r == hi
  {
    Max(lo, Min(hi, v))
  }

  /** `r` is what `Math.sqrt(x)` returns, for a non-negative `x`. There is no
      square root in Dafny's reals, so every caller receives the root as a
      value constrained by this predicate. */
  predicate IsSqrt(r: real, x: real)
  {
    r >= 0.0 && r * r == x
  }

  lemma MulPos(a: real, b: real)
    requires a > 0.0 && b > 0.0
    ensures a * b > 0.0
  {
  }

  lemma MulNonneg(a: real, b: real)
    requires a >= 0.0 && b >= 0.0
    ensures a * b >= 0.0
  {
  }

  /** Squaring is strictly increasing on the non-negative reals. */
  lemma SquareStrictMono(r: real, q: real)
    requires r > q >= 0.0
    ensures r * r > q * q
  {
    assert r * r - q * q == (r - q) * (r + q);
    MulPos(r - q, r + q);
  }

  lemma SqrtMonotone(r: real, x: real, q: real, y: real)
    requires IsSqrt(r, x) && IsSqrt(q, y) && x <= y
    ensures r <= q
  {
    if r > q {
      SquareStrictMono(r, q);
    }
  }

  lemma SqrtUnique(r: real, q: real, x: real)
    requires IsSqrt(r, x) && IsSqrt(q, x)
    ensures r == q
  {
    SqrtMonotone(r, x, q, x);
    SqrtMonotone(q, x, r, x);
  }

  /** Truncation toward zero, the rounding of Java's `(long)` casts and of
      the quotient inside Java's `%`. */
  function Trunc(x: real): (n: int)
    ensures Abs(n as real) <= Abs(x) < Abs(n as real) + 1.0
    ensures x >= 0.0 ==> n >= 0
    ensures x <= 0.0 ==> n <= 0
  {
    if x >= 0.0 then x.Floor else -((-x).Floor)
  }

  /** `k * m` for an integer `k`; named so that "is a multiple" can be stated
      with a quantifier Dafny can trigger on. */
  function Multiple(k: int, m: real): real
  {
    k as real * m
  }

  ghost predicate IsMultipleOf(d: real, m: real)
  {
    exists k: int :: Multiple(k, m) == d
  }

  lemma ZeroIsMultiple(m: real)
    ensures IsMultipleOf(0.0, m)
  {
    assert Multiple(0, m) == 0.0;
  }

  lemma MultipleShift(d: real, m: real, k: int)
    requires IsMultipleOf(d, m)
    ensures IsMultipleOf(d + Multiple(k, m), m)
  {
    var j :| Multiple(j, m) == d;
    assert Multiple(j + k, m) == d + Multiple(k, m);
  }

  lemma MultipleAdd(a: real, b: real, m: real)
    requires IsMultipleOf(a, m) && IsMultipleOf(b, m)
    ensures IsMultipleOf(a + b, m)
  {
    var k :| Multiple(k, m) == b;
    MultipleShift(a, m, k);
  }

  /** Java's `a % m` on doubles: `a - m * q` where `q` is the quotient
      truncated toward zero. The result keeps the sign of `a`. */
  function JavaRem(a: real, m: real): (r: real)
    requires m > 0.0
    ensures -m < r < m
    ensures a >= 0.0 ==> r >= 0.0
    ensures a <= 0.0 ==> r <= 0.0
    ensures IsMultipleOf(a - r, m)
  {
    var q := Trunc(a / m);
    var r := a - m * q as real;
    assert Multiple(q, m) == a - r;
    RemBounds(a, m, q);
    r
  }

  /** `0 <= m * d < m` for a positive `m` and a fraction `d` in [0, 1). */
  lemma RemBounds(a: real, m: real, q: int)
    requires m > 0.0
    requires q == Trunc(a / m)
    ensures -m < a - m * q as real < m
    ensures a >= 0.0 ==> a - m * q as real >= 0.0
    ensures a <= 0.0 ==> a - m * q as real <= 0.0
  {
    QuotientTimesDivisor(a, m);
    RemCore(a, m, a / m, q as real);
  }

  lemma QuotientTimesDivisor(a: real, m: real)
    requires m > 0.0
    ensures a == m * (a / m)
    ensures a >= 0.0 <==> a / m >= 0.0
    ensures a == 0.0 <==> a / m == 0.0
  {
  }

  /** `m * d` for a fraction `d` in [0, 1), with its bounds. Stated as a
      function so that the solver sees the product term itself. */
  function FractionOf(m: real, d: real): (p: real)
    requires m > 0.0 && 0.0 <= d < 1.0
    ensures p == m * d
    ensures 0.0 <= p < m
  {
    assert m - m * d == m * (1.0 - d);
    assert m * (1.0 - d) > 0.0;
    m * d
  }

  lemma RemCore(a: real, m: real, x: real, q: real)
    requires m > 0.0 && a == m * x
    requires a >= 0.0 <==> x >= 0.0
    requires a == 0.0 <==> x == 0.0
    requires x >= 0.0 ==> q <= x < q + 1.0
    requires x < 0.0 ==> q - 1.0 < x <= q
    requires x == 0.0 ==> q == 0.0
    ensures -m < a - m * q < m
    ensures a >= 0.0 ==> a - m * q >= 0.0
    ensures a <= 0.0 ==> a - m * q <= 0.0
  {
    assert a - m * q == m * (x - q);
    if x >= 0.0 {
      assert FractionOf(m, x - q) == m * (x - q);
    } else {
      assert FractionOf(m, q - x) == m * (q - x);
      assert m * (q - x) == -(m * (x - q));
    }
  }

  lemma FractionBounds(n: real, m: real)
    requires 0.0 <= n <= m && m > 0.0
    ensures 0.0 <= n / m <= 1.0
  {
  }

  lemma NegateQuotient(n: real, d: real)
    requires d != 0.0
    ensures n / d == (-n) / (-d)
  {
  }
}
