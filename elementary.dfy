/**
 * JavaScript's `Math` transcendental functions, kept uninterpreted.
 *
 * The simulator computes with IEEE doubles; this model computes with
 * `real`. `Math.sqrt`, `Math.sin`, `Math.cos`, `Math.tan`, `Math.atan2`
 * and `Math.exp` are supplied as a `Functions` value, and each property
 * names exactly the laws it relies on (`SqrtLaw`, `PythagoreanLaw`, ...).
 */
module Elementary {

  /** `Math.PI`, the real number its double literal denotes. */
  const Pi: real := 3.141592653589793
  const TwoPi: real := 2.0 * Pi

  datatype Functions = Functions(
    sqrt: real -> real,
    sin: real -> real,
    cos: real -> real,
    tan: real -> real,
    atan2: (real, real) -> real,
    exp: real -> real)

  /** The non-negative square root. */
  ghost predicate SqrtLaw(m: Functions) {
    forall x :: x >= 0.0 ==> m.sqrt(x) >= 0.0 && m.sqrt(x) * m.sqrt(x) == x
  }

  /**
   * sin² + cos² = 1 at every angle. The law is used at a named angle
   * through `SinCosSquare`, so that a proof which only moves positions
   * around does not expand it at every sine and cosine in sight.
   */
  ghost predicate PythagoreanLaw(m: Functions) {
    forall x {:trigger PythagoreanAt(m, x)} :: PythagoreanAt(m, x)
  }

  ghost predicate PythagoreanAt(m: Functions, x: real) {
    m.sin(x) * m.sin(x) + m.cos(x) * m.cos(x) == 1.0
  }

  lemma SinCosSquare(m: Functions, x: real)
    requires PythagoreanLaw(m)
    ensures m.sin(x) * m.sin(x) + m.cos(x) * m.cos(x) == 1.0
  {
    assert PythagoreanAt(m, x);
  }

  /** exp is positive, and at most 1 on non-positive arguments. */
  ghost predicate ExpLaw(m: Functions) {
    forall x :: 0.0 < m.exp(x) && (x <= 0.0 ==> m.exp(x) <= 1.0)
  }

  /** sin 0 = 0, cos 0 = 1, and atan2(0, x) = 0 for x > 0. */
  ghost predicate ZeroAngleLaw(m: Functions) {
    && m.sin(0.0) == 0.0
    && m.cos(0.0) == 1.0
    && forall x :: x > 0.0 ==> m.atan2(0.0, x) == 0.0
  }

  function Abs(x: real): real {
    if x < 0.0 then -x else x
  }

  /** The square root is determined by its square: sqrt(s·s) = s for s ≥ 0. */
  lemma SqrtOfSquare(m: Functions, s: real)
    requires SqrtLaw(m)
    requires s >= 0.0
    ensures m.sqrt(s * s) == s
  {
    var q := m.sqrt(s * s);
    assert q >= 0.0 && q * q == s * s;
    if q > s {
      SquareMonotone(q, s);
      assert false;
    } else if q < s {
      SquareMonotone(s, q);
      assert false;
    }
  }

  /** The square root of x is the non-negative s with s·s = x. */
  lemma SqrtUnique(m: Functions, x: real, s: real)
    requires SqrtLaw(m)
    requires s >= 0.0 && s * s == x
    ensures m.sqrt(x) == s
  {
    SqrtOfSquare(m, s);
  }

  /** Squaring is strictly increasing on non-negative reals. */
  lemma SquareMonotone(a: real, b: real)
    requires 0.0 <= b < a
    ensures b * b < a * a
  {
    var d := a - b;
    assert a * a == b * b + 2.0 * b * d + d * d;
    assert b * d >= 0.0;
    assert d * d > 0.0;
  }

  /** The square root is monotone. */
  lemma SqrtMonotone(m: Functions, a: real, b: real)
    requires SqrtLaw(m)
    requires 0.0 <= a <= b
    ensures m.sqrt(a) <= m.sqrt(b)
  {
    var p, q := m.sqrt(a), m.sqrt(b);
    assert p >= 0.0 && p * p == a;
    assert q >= 0.0 && q * q == b;
    if p > q {
      SquareMonotone(p, q);
      assert false;
    }
  }

  /** sqrt 1 = 1. */
  lemma SqrtOne(m: Functions)
    requires SqrtLaw(m)
    ensures m.sqrt(1.0) == 1.0
  {
    SqrtOfSquare(m, 1.0);
  }

  /** Both sine and cosine lie in [-1, 1]. */
  lemma TrigBounded(m: Functions, x: real)
    requires PythagoreanLaw(m)
    ensures -1.0 <= m.cos(x) <= 1.0
    ensures -1.0 <= m.sin(x) <= 1.0
  {
    var s, c := m.sin(x), m.cos(x);
    SinCosSquare(m, x);
    UnitSquare(c, s * s);
    UnitSquare(s, c * c);
  }

  /** From x² + rest = 1 with rest ≥ 0, x lies in [-1, 1]. */
  lemma UnitSquare(x: real, rest: real)
    requires x * x + rest == 1.0
    requires rest >= 0.0
    ensures -1.0 <= x <= 1.0
  {
    if x > 1.0 {
      SquareMonotone(x, 1.0);
      assert false;
    } else if x < -1.0 {
      SquareMonotone(-x, 1.0);
      assert false;
    }
  }
}
