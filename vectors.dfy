/**
 * Scalar helpers, 3-vectors and quaternions (src/core/math.js).
 *
 * `Vector` and `Quaternion` are the values the JavaScript objects hold;
 * the static operations are functions on them. `Vec3` and `Quat` are the
 * mutable objects, whose instance methods update their own fields.
 */
module Vectors {
  import opened Elementary

  /** The length threshold below which `norm` leaves a vector alone. */
  const VecEpsilon: real := 0.000000001
  /** The length threshold below which `Quat.norm` leaves a quaternion alone. */
  const QuatEpsilon: real := 0.000000000001

  function Max(a: real, b: real): real { if a >= b then a else b }
  function Min(a: real, b: real): real { if a <= b then a else b }

  /** `clamp(v, a, b) = Math.max(a, Math.min(b, v))`. */
  function Clamp(v: real, a: real, b: real): (r: real)
    ensures a <= b ==> a <= r <= b
    ensures a <= v <= b ==> r == v
    ensures v <= a ==> r == a
    ensures a <= b <= v ==> r == b
  {
    Max(a, Min(b, v))
  }

  /** `lerp(a, b, t) = a + (b - a)·t`: a at t = 0, b at t = 1, between them for t in [0, 1]. */
  function Lerp(a: real, b: real, t: real): (r: real)
    ensures t == 0.0 ==> r == a
    ensures t == 1.0 ==> r == b
    ensures 0.0 <= t <= 1.0 ==> Min(a, b) <= r <= Max(a, b)
  {
    if 0.0 <= t <= 1.0 then LerpBetween(a, b, t); a + (b - a) * t
    else a + (b - a) * t
  }

  lemma LerpBetween(a: real, b: real, t: real)
    requires 0.0 <= t <= 1.0
    ensures Min(a, b) <= a + (b - a) * t <= Max(a, b)
  {
    ProductBetween(b - a, t, (b - a) * t);
  }

  /** For t in [0, 1], the product p = k·t lies between 0 and k, whatever the sign of k. */
  lemma ProductBetween(k: real, t: real, p: real)
    requires 0.0 <= t <= 1.0 && p == k * t
    ensures Min(0.0, k) <= p <= Max(0.0, k)
  {
    if k >= 0.0 {
      ScaledBounds(k, t);
    } else {
      ScaledBounds(-k, t);
      assert (-k) * t == -p;
    }
  }

  /** For k ≥ 0 and t in [0, 1], k·t lies in [0, k]. */
  lemma ScaledBounds(k: real, t: real)
    requires k >= 0.0 && 0.0 <= t <= 1.0
    ensures 0.0 <= k * t <= k
  {
    assert k * (1.0 - t) >= 0.0;
    assert k * (1.0 - t) == k - k * t;
  }

  lemma QuotientNonNegative(x: real, w: real)
    requires x >= 0.0 && w > 0.0
    ensures x / w >= 0.0
  {
  }

  lemma QuotientNegative(x: real, w: real)
    requires x < 0.0 && w > 0.0
    ensures x / w < 0.0
  {
  }

  lemma QuotientDifference(x: real, y: real, w: real)
    requires w > 0.0
    ensures x / w - y / w == (x - y) / w
  {
  }

  lemma ProductNonNegative(a: real, b: real)
    requires a >= 0.0 && b >= 0.0
    ensures a * b >= 0.0
  {
  }

  /** `randRange(a, b) = a + Math.random()·(b - a)`, with the draw `u` of `Math.random()` passed in. */
  function RandRange(a: real, b: real, u: real): real {
    a + Portion(u, b - a)
  }

  /** The part u·d of a span d. */
  function Portion(u: real, d: real): real {
    u * d
  }

  /** For u in [0, 1) the part u·d lies between 0 and d, excluding d. */
  lemma PortionBounds(u: real, d: real)
    requires 0.0 <= u < 1.0
    ensures d == 0.0 ==> Portion(u, d) == 0.0
    ensures d > 0.0 ==> 0.0 <= Portion(u, d) < d
    ensures d < 0.0 ==> d < Portion(u, d) <= 0.0
  {
    if d > 0.0 {
      StrictScaled(d, u);
    } else if d < 0.0 {
      StrictScaled(-d, u);
      assert u * d == -(u * -d);
    }
  }

  /** For a draw u in [0, 1), randRange(a, b) lies in [a, b); for a = b it is a. */
  lemma RandRangeBounds(a: real, b: real, u: real)
    ensures a == b ==> RandRange(a, b, u) == a
    ensures 0.0 <= u < 1.0 && a < b ==> a <= RandRange(a, b, u) < b
    ensures 0.0 <= u < 1.0 && b < a ==> b < RandRange(a, b, u) <= a
  {
    if 0.0 <= u < 1.0 {
      PortionBounds(u, b - a);
    }
  }

  lemma StrictScaled(k: real, u: real)
    requires k > 0.0 && 0.0 <= u < 1.0
    ensures 0.0 <= u * k < k
  {
    assert (1.0 - u) * k > 0.0;
  }

  // ---------------------------------------------------------------
  // Vectors as values: the static operations of Vec3
  // ---------------------------------------------------------------

  datatype Vector = Vector(x: real, y: real, z: real)

  const Zero: Vector := Vector(0.0, 0.0, 0.0)

  /** `Vec3.add(a, b)` */
  function Sum(a: Vector, b: Vector): Vector {
    Vector(a.x + b.x, a.y + b.y, a.z + b.z)
  }

  /** `Vec3.sub(a, b)` */
  function Difference(a: Vector, b: Vector): Vector {
    Vector(a.x - b.x, a.y - b.y, a.z - b.z)
  }

  /** `Vec3.mul(a, s)` */
  function Scale(a: Vector, s: real): Vector {
    Vector(a.x * s, a.y * s, a.z * s)
  }

  /** `Vec3.dot(a, b)` */
  function Dot(a: Vector, b: Vector): real {
    a.x * b.x + a.y * b.y + a.z * b.z
  }

  /** `Vec3.cross(a, b)`: orthogonal to both of its arguments. */
  function Cross(a: Vector, b: Vector): (c: Vector)
    ensures Dot(a, c) == 0.0
    ensures Dot(b, c) == 0.0
  {
    Vector(a.y * b.z - a.z * b.y, a.z * b.x - a.x * b.z, a.x * b.y - a.y * b.x)
  }

  function LenSq(a: Vector): real {
    a.x * a.x + a.y * a.y + a.z * a.z
  }

  /** `v.len() = Math.sqrt(x² + y² + z²)`. */
  function Length(m: Functions, a: Vector): real {
    m.sqrt(LenSq(a))
  }

  /** The value `v.clone().norm()` ends with: v / |v|, unless |v| ≤ 1e-9. */
  function Normalized(m: Functions, a: Vector): Vector {
    var l := Length(m, a);
    if l > VecEpsilon then Scale(a, 1.0 / l) else a
  }

  lemma DotSum(a: Vector, b: Vector, c: Vector)
    ensures Dot(Sum(a, b), c) == Dot(a, c) + Dot(b, c)
  {
  }

  lemma DotScale(a: Vector, s: real, c: Vector)
    ensures Dot(Scale(a, s), c) == s * Dot(a, c)
  {
  }

  lemma DotDifference(a: Vector, b: Vector, c: Vector)
    ensures Dot(Difference(a, b), c) == Dot(a, c) - Dot(b, c)
  {
  }

  lemma LenSqNonNegative(a: Vector)
    ensures LenSq(a) >= 0.0
  {
    assert a.x * a.x >= 0.0 && a.y * a.y >= 0.0 && a.z * a.z >= 0.0;
  }

  lemma LengthLaw(m: Functions, a: Vector)
    requires SqrtLaw(m)
    ensures Length(m, a) >= 0.0
    ensures Length(m, a) * Length(m, a) == LenSq(a)
  {
    LenSqNonNegative(a);
  }

  lemma LenSqScale(a: Vector, s: real)
    ensures LenSq(Scale(a, s)) == s * s * LenSq(a)
  {
  }

  /** |s·a| = |s|·|a|. */
  lemma LengthScale(m: Functions, a: Vector, s: real)
    requires SqrtLaw(m)
    ensures Length(m, Scale(a, s)) == Abs(s) * Length(m, a)
  {
    var l := Length(m, a);
    var k := Abs(s);
    LengthLaw(m, a);
    LenSqScale(a, s);
    assert k * k == s * s;
    var kl := k * l;
    SquareOfProduct(k, l);
    ProductNonNegative(k, l);
    assert LenSq(Scale(a, s)) == kl * kl;
    SqrtOfSquare(m, kl);
  }

  lemma SquareOfProduct(p: real, q: real)
    ensures (p * q) * (p * q) == (p * p) * (q * q)
  {
  }

  /** A vector longer than 1e-9 is normalised to unit length, in its own direction. */
  lemma NormalizedIsUnit(m: Functions, a: Vector)
    requires SqrtLaw(m)
    requires Length(m, a) > VecEpsilon
    ensures LenSq(Normalized(m, a)) == 1.0
    ensures Length(m, Normalized(m, a)) == 1.0
    ensures Dot(Normalized(m, a), a) == Length(m, a)
  {
    var l := Length(m, a);
    LengthLaw(m, a);
    var s := 1.0 / l;
    assert s * l == 1.0;
    LenSqScale(a, s);
    assert s * s * LenSq(a) == (s * l) * (s * l);
    assert Dot(Scale(a, s), a) == s * LenSq(a);
    assert s * LenSq(a) == (s * l) * l;
    SqrtOne(m);
  }

  /** The zero vector has length 0 and `norm` leaves it alone. */
  lemma NormalizedZero(m: Functions)
    requires SqrtLaw(m)
    ensures Length(m, Zero) == 0.0
    ensures Normalized(m, Zero) == Zero
  {
    LengthZero(m);
    var l := Length(m, Zero);
    assert !(l > VecEpsilon);
  }

  lemma LengthZero(m: Functions)
    requires SqrtLaw(m)
    ensures Length(m, Zero) == 0.0
  {
    SqrtUnique(m, 0.0, 0.0);
    assert LenSq(Zero) == 0.0;
  }

  /** Whatever `norm` does, the resulting length is at most 1. */
  lemma NormalizedAtMostUnit(m: Functions, a: Vector)
    requires SqrtLaw(m)
    ensures Length(m, Normalized(m, a)) <= 1.0
  {
    if Length(m, a) > VecEpsilon {
      NormalizedIsUnit(m, a);
    }
  }

  // ---------------------------------------------------------------
  // Quaternions as values
  // ---------------------------------------------------------------

  datatype Quaternion = Quaternion(x: real, y: real, z: real, w: real)

  /** `new Quat(0, 0, 0, 1)` */
  const Identity: Quaternion := Quaternion(0.0, 0.0, 0.0, 1.0)

  /** `Quat.mul(a, b)`, the Hamilton product; Identity is a two-sided unit. */
  function QMul(a: Quaternion, b: Quaternion): (r: Quaternion)
    ensures a == Identity ==> r == b
    ensures b == Identity ==> r == a
  {
    Quaternion(
      a.w * b.x + a.x * b.w + a.y * b.z - a.z * b.y,
      a.w * b.y - a.x * b.z + a.y * b.w + a.z * b.x,
      a.w * b.z + a.x * b.y - a.y * b.x + a.z * b.w,
      a.w * b.w - a.x * b.x - a.y * b.y - a.z * b.z)
  }

  function QLenSq(q: Quaternion): real {
    q.x * q.x + q.y * q.y + q.z * q.z + q.w * q.w
  }

  function QLength(m: Functions, q: Quaternion): real {
    m.sqrt(QLenSq(q))
  }

  /** The value `q.norm()` leaves in q. */
  function QNormalized(m: Functions, q: Quaternion): Quaternion {
    var l := QLength(m, q);
    if l > QuatEpsilon then
      var s := 1.0 / l;
      Quaternion(q.x * s, q.y * s, q.z * s, q.w * s)
    else q
  }

  /** A quaternion of length ≤ 1e-12 is left alone; any other becomes a unit quaternion. */
  lemma QNormalizedSpec(m: Functions, q: Quaternion)
    requires SqrtLaw(m)
    ensures QLength(m, q) <= QuatEpsilon ==> QNormalized(m, q) == q
    ensures QLength(m, q) > QuatEpsilon ==> QLenSq(QNormalized(m, q)) == 1.0
  {
    var l := QLength(m, q);
    assert q.x * q.x >= 0.0 && q.y * q.y >= 0.0 && q.z * q.z >= 0.0 && q.w * q.w >= 0.0;
    assert l * l == QLenSq(q);
    if l > QuatEpsilon {
      var s := 1.0 / l;
      assert s * l == 1.0;
      var r := QNormalized(m, q);
      assert QLenSq(r) == s * s * QLenSq(q);
      assert s * s * QLenSq(q) == (s * l) * (s * l);
    }
  }

  /** A unit quaternion is a fixed point of `norm`. */
  lemma QNormalizedOfUnit(m: Functions, q: Quaternion)
    requires SqrtLaw(m)
    requires QLenSq(q) == 1.0
    ensures QNormalized(m, q) == q
  {
    SqrtOne(m);
  }

  /** `q.rotateVec(v)`; the identity rotation returns v. */
  function RotateVec(q: Quaternion, v: Vector): (r: Vector)
    ensures q == Identity ==> r == v
  {
    RotateWith(q, v, Twice(q, v))
  }

  /** The second step of `rotateVec`: v + w·t + u × t for the given t. */
  function RotateWith(q: Quaternion, v: Vector, t: Vector): Vector {
    Vector(
      v.x + q.w * t.x + (q.y * t.z - q.z * t.y),
      v.y + q.w * t.y + (q.z * t.x - q.x * t.z),
      v.z + q.w * t.z + (q.x * t.y - q.y * t.x))
  }

  /** The Hamilton product multiplies squared lengths (Euler's four-square identity). */
  lemma QMulLenSq(a: Quaternion, b: Quaternion)
    ensures QLenSq(QMul(a, b)) == QLenSq(a) * QLenSq(b)
  {
  }

  /**
   * Rotating by a unit quaternion preserves squared length: with
   * t = 2·(u × v), |v + w·t + u × t|² = |v|² + (w² + |u|² − 1)·|t|².
   */
  lemma RotateVecPreservesLength(q: Quaternion, v: Vector)
    requires QLenSq(q) == 1.0
    ensures LenSq(RotateVec(q, v)) == LenSq(v)
  {
    var u, w := Axis(q), q.w;
    var t := Twice(q, v);
    var a, b := Scale(t, w), Cross(u, t);
    TwiceIsCross(q, v);
    RotateVecSplits(q, v);
    RotationDots(u, v, w);
    LenSqSum3(v, a, b);
    var V, T, U := LenSq(v), LenSq(t), LenSq(u);
    var A, B := LenSq(a), LenSq(b);
    LenSqScale(t, w);
    Lagrange(u, t);
    assert LenSq(RotateVec(q, v)) == V + A + B - T;
    assert QLenSq(q) == U + w * w;
    UnitWeights(A, B, T, U, w);
  }

  /** With w² + U = 1, A = w²·T and B = U·T − 0² add up to T. */
  lemma UnitWeights(A: real, B: real, T: real, U: real, w: real)
    requires A == w * w * T && B == U * T - 0.0 * 0.0 && U + w * w == 1.0
    ensures A + B == T
  {
    assert A + B == (w * w + U) * T;
  }

  /**
   * The cross terms of |v + w·t + u × t|² for t = 2·(u × v): t is
   * orthogonal to u and v, u × t is orthogonal to t, and v · (u × t) = −|t|²/2.
   */
  lemma RotationDots(u: Vector, v: Vector, w: real)
    ensures var t := Scale(Cross(u, v), 2.0);
      && Dot(u, t) == 0.0
      && Dot(v, Scale(t, w)) == 0.0
      && Dot(Scale(t, w), Cross(u, t)) == 0.0
      && Dot(v, Cross(u, t)) == -LenSq(t) / 2.0
  {
    var c := Cross(u, v);
    var t := Scale(c, 2.0);
    var a := Scale(t, w);
    assert Dot(u, t) == 0.0 by { DotScale(c, 2.0, u); DotSymmetric(t, u); }
    assert Dot(v, a) == 0.0 by { DotScale(c, 2.0, v); DotScale(t, w, v); DotSymmetric(a, v); DotSymmetric(t, v); }
    assert Dot(a, Cross(u, t)) == 0.0 by { DotScale(t, w, Cross(u, t)); }
    assert Dot(v, Cross(u, t)) == -LenSq(t) / 2.0 by {
      TripleProduct(v, u, t);
      DotScale(c, 2.0, t);
      DotSymmetric(c, t);
      LenSqScale(c, 2.0);
      DotScale(c, 2.0, c);
    }
  }

  /** The vector part (x, y, z) of a quaternion. */
  function Axis(q: Quaternion): Vector {
    Vector(q.x, q.y, q.z)
  }

  /** The vector t = 2·(u × v) that `rotateVec` computes first. */
  function Twice(q: Quaternion, v: Vector): Vector {
    Vector(2.0 * (q.y * v.z - q.z * v.y), 2.0 * (q.z * v.x - q.x * v.z), 2.0 * (q.x * v.y - q.y * v.x))
  }

  /** t = 2·(u × v). */
  lemma TwiceIsCross(q: Quaternion, v: Vector)
    ensures Twice(q, v) == Scale(Cross(Axis(q), v), 2.0)
  {
    var t, c := Twice(q, v), Cross(Axis(q), v);
    assert t.x == c.x * 2.0 && t.y == c.y * 2.0 && t.z == c.z * 2.0;
  }

  /** rotateVec(q, v) = v + w·t + u × t with t = 2·(u × v). */
  lemma RotateVecSplits(q: Quaternion, v: Vector)
    ensures RotateVec(q, v) == Sum(Sum(v, Scale(Twice(q, v), q.w)), Cross(Axis(q), Twice(q, v)))
  {
    RotateWithSplits(q, v, Twice(q, v));
  }

  lemma RotateWithSplits(q: Quaternion, v: Vector, t: Vector)
    ensures RotateWith(q, v, t) == Sum(Sum(v, Scale(t, q.w)), Cross(Axis(q), t))
  {
    var r, s := RotateWith(q, v, t), Sum(Sum(v, Scale(t, q.w)), Cross(Axis(q), t));
    assert s.x == v.x + t.x * q.w + (q.y * t.z - q.z * t.y);
    assert s.y == v.y + t.y * q.w + (q.z * t.x - q.x * t.z);
    assert s.z == v.z + t.z * q.w + (q.x * t.y - q.y * t.x);
    assert t.x * q.w == q.w * t.x && t.y * q.w == q.w * t.y && t.z * q.w == q.w * t.z;
    assert r.x == s.x && r.y == s.y && r.z == s.z;
  }

  lemma DotSymmetric(a: Vector, b: Vector)
    ensures Dot(a, b) == Dot(b, a)
  {
  }

  lemma LenSqSum3(a: Vector, b: Vector, c: Vector)
    ensures LenSq(Sum(Sum(a, b), c))
         == LenSq(a) + LenSq(b) + LenSq(c) + 2.0 * (Dot(a, b) + Dot(a, c) + Dot(b, c))
  {
  }

  /** v · (u × t) = −t · (u × v). */
  lemma TripleProduct(v: Vector, u: Vector, t: Vector)
    ensures Dot(v, Cross(u, t)) == -Dot(t, Cross(u, v))
  {
  }

  /** Lagrange's identity: |u × t|² = |u|²·|t|² − (u · t)². */
  lemma Lagrange(u: Vector, t: Vector)
    ensures LenSq(Cross(u, t)) == LenSq(u) * LenSq(t) - Dot(u, t) * Dot(u, t)
  {
  }

  /** `Quat.fromAxisAngle(axis, angle)`. */
  function FromAxisAngle(m: Functions, axis: Vector, angle: real): Quaternion {
    QNormalized(m, AxisAngleQuat(m, axis, angle))
  }

  /** A zero angle gives the identity rotation, whatever the axis. */
  lemma FromAxisAngleZero(m: Functions, axis: Vector)
    requires SqrtLaw(m) && ZeroAngleLaw(m)
    ensures FromAxisAngle(m, axis, 0.0) == Identity
  {
    var a := Normalized(m, axis);
    assert Quaternion(a.x * 0.0, a.y * 0.0, a.z * 0.0, 1.0) == Identity;
    QNormalizedOfUnit(m, Identity);
  }

  /** About an axis longer than 1e-9, `fromAxisAngle` gives a unit quaternion. */
  lemma FromAxisAngleIsUnit(m: Functions, axis: Vector, angle: real)
    requires SqrtLaw(m) && PythagoreanLaw(m)
    requires Length(m, axis) > VecEpsilon
    ensures QLenSq(FromAxisAngle(m, axis, angle)) == 1.0
  {
    var q := AxisAngleQuat(m, axis, angle);
    AxisAngleQuatIsUnit(m, axis, angle);
    QNormalizedOfUnit(m, q);
  }

  /** The quaternion `fromAxisAngle` builds before its final `norm()`. */
  function AxisAngleQuat(m: Functions, axis: Vector, angle: real): Quaternion {
    var half := angle * 0.5;
    var s := m.sin(half);
    var a := Normalized(m, axis);
    Quaternion(a.x * s, a.y * s, a.z * s, m.cos(half))
  }

  /** About an axis longer than 1e-9, the quaternion before `norm()` is already of unit length. */
  lemma AxisAngleQuatIsUnit(m: Functions, axis: Vector, angle: real)
    requires SqrtLaw(m) && PythagoreanLaw(m)
    requires Length(m, axis) > VecEpsilon
    ensures QLenSq(AxisAngleQuat(m, axis, angle)) == 1.0
  {
    var half := angle * 0.5;
    var s, c := m.sin(half), m.cos(half);
    var a := Normalized(m, axis);
    NormalizedIsUnit(m, axis);
    SinCosSquare(m, half);
    UnitAxisQuat(a, s, c);
  }

  /** A unit axis scaled by s, with c² + s² = 1, makes a unit quaternion. */
  lemma UnitAxisQuat(a: Vector, s: real, c: real)
    requires LenSq(a) == 1.0 && s * s + c * c == 1.0
    ensures QLenSq(Quaternion(a.x * s, a.y * s, a.z * s, c)) == 1.0
  {
    ScaledAxisLenSq(a, s, c);
    assert LenSq(a) * (s * s) == s * s;
  }

  /** Scaling the axis part by s: |(a·s, c)|² = |a|²·s² + c². */
  lemma ScaledAxisLenSq(a: Vector, s: real, c: real)
    ensures QLenSq(Quaternion(a.x * s, a.y * s, a.z * s, c)) == LenSq(a) * (s * s) + c * c
  {
  }

  // ---------------------------------------------------------------
  // Mutable objects
  // ---------------------------------------------------------------

  /** A JavaScript `Vec3` object. */
  class Vec3 {
    var x: real
    var y: real
    var z: real

    constructor (x0: real, y0: real, z0: real)
      ensures Value() == Vector(x0, y0, z0)
    {
      x, y, z := x0, y0, z0;
    }

    function Value(): Vector
      reads this
    {
      Vector(x, y, z)
    }

    /** `v.len()` */
    function Len(m: Functions): real
      reads this
    {
      Length(m, Value())
    }

    /** `v.clone()`: a fresh object holding the same components. */
    method Clone() returns (c: Vec3)
      ensures fresh(c) && c.Value() == Value()
    {
      c := new Vec3(x, y, z);
    }

    /** In-place `add`: the same components `Vec3.add` returns. */
    method Add(v: Vec3)
      modifies this
      ensures Value() == Sum(old(Value()), old(v.Value()))
    {
      var vx, vy, vz := v.x, v.y, v.z;
      x := x + vx;
      y := y + vy;
      z := z + vz;
    }

    /** In-place `sub`: the same components `Vec3.sub` returns. */
    method Sub(v: Vec3)
      modifies this
      ensures Value() == Difference(old(Value()), old(v.Value()))
    {
      var vx, vy, vz := v.x, v.y, v.z;
      x := x - vx;
      y := y - vy;
      z := z - vz;
    }

    /** In-place `mul`: the same components `Vec3.mul` returns. */
    method Mul(s: real)
      modifies this
      ensures Value() == Scale(old(Value()), s)
    {
      x := x * s;
      y := y * s;
      z := z * s;
    }

    /** In-place `norm`: scales by 1/len unless len ≤ 1e-9. */
    method Norm(m: Functions)
      modifies this
      ensures Value() == Normalized(m, old(Value()))
      ensures old(Len(m)) <= VecEpsilon ==> Value() == old(Value())
    {
      var l := Len(m);
      if l > VecEpsilon {
        Mul(1.0 / l);
      }
    }

    /** Static `Vec3.add(a, b)`: a fresh object; a and b are left unchanged. */
    static method AddNew(a: Vec3, b: Vec3) returns (r: Vec3)
      ensures fresh(r) && r.Value() == Sum(a.Value(), b.Value())
      ensures unchanged(a, b)
    {
      r := new Vec3(a.x + b.x, a.y + b.y, a.z + b.z);
    }

    /** Static `Vec3.sub(a, b)`. */
    static method SubNew(a: Vec3, b: Vec3) returns (r: Vec3)
      ensures fresh(r) && r.Value() == Difference(a.Value(), b.Value())
      ensures unchanged(a, b)
    {
      r := new Vec3(a.x - b.x, a.y - b.y, a.z - b.z);
    }

    /** Static `Vec3.mul(a, s)`. */
    static method MulNew(a: Vec3, s: real) returns (r: Vec3)
      ensures fresh(r) && r.Value() == Scale(a.Value(), s)
      ensures unchanged(a)
    {
      r := new Vec3(a.x * s, a.y * s, a.z * s);
    }

    /** Static `Vec3.cross(a, b)`. */
    static method CrossNew(a: Vec3, b: Vec3) returns (r: Vec3)
      ensures fresh(r) && r.Value() == Cross(a.Value(), b.Value())
      ensures unchanged(a, b)
    {
      var c := Cross(a.Value(), b.Value());
      r := new Vec3(c.x, c.y, c.z);
    }
  }

  /** A JavaScript `Quat` object. */
  class Quat {
    var x: real
    var y: real
    var z: real
    var w: real

    constructor (x0: real, y0: real, z0: real, w0: real)
      ensures Value() == Quaternion(x0, y0, z0, w0)
    {
      x, y, z, w := x0, y0, z0, w0;
    }

    function Value(): Quaternion
      reads this
    {
      Quaternion(x, y, z, w)
    }

    /** `q.clone()`: a fresh object holding the same components. */
    method Clone() returns (c: Quat)
      ensures fresh(c) && c.Value() == Value()
    {
      c := new Quat(x, y, z, w);
    }

    /** In-place `norm`: leaves a quaternion of length ≤ 1e-12 unchanged. */
    method Norm(m: Functions)
      modifies this
      ensures Value() == QNormalized(m, old(Value()))
      ensures QLength(m, old(Value())) <= QuatEpsilon ==> Value() == old(Value())
    {
      var l := QLength(m, Value());
      if l > QuatEpsilon {
        var s := 1.0 / l;
        x := x * s;
        y := y * s;
        z := z * s;
        w := w * s;
      }
    }
  }
}
