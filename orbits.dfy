/**
 * Keplerian orbits and the orbit state manager (src/simulation/orbits.js).
 *
 * Positions are computed from orbital elements with a bounded Newton
 * iteration for Kepler's equation; the state manager keeps a name-keyed
 * registry of bodies and advances it in two passes, sun-orbiting bodies
 * first and moons second.
 */
module Orbits {
  import opened Options
  import opened Elementary
  import opened Vectors
  import opened Universe

  /** `orbit.parent`: `null` (orbits the sun), a missing property, or a body name. */
  datatype ParentRef = Null | Undefined | Named(name: string)

  /** The orbital elements of one body. */
  datatype Orbit = Orbit(
    semiMajorAxis: real,
    eccentricity: real,
    inclination: real,
    orbitalPeriod: real,
    startAngle: real,
    parent: ParentRef)

  // ---------------------------------------------------------------
  // Reducing the mean anomaly
  // ---------------------------------------------------------------

  /** Rounding toward zero, as JavaScript's `%` uses for its quotient. */
  function Truncate(x: real): (q: int)
    ensures x >= 0.0 ==> q as real <= x < q as real + 1.0
    ensures x < 0.0 ==> q as real - 1.0 < x <= q as real
  {
    if x >= 0.0 then x.Floor else -((-x).Floor)
  }

  /** JavaScript's `x % y`: the remainder takes the sign of x. */
  function JsRemainder(x: real, y: real): real
    requires y != 0.0
  {
    x - y * (Truncate(x / y) as real)
  }

  /** A whole number of turns. */
  function Turns(k: int): real {
    k as real * TwoPi
  }

  /** a and b denote the same angle. */
  ghost predicate Congruent(a: real, b: real) {
    exists k: int :: a - b == Turns(k)
  }

  /** `M = M % (2π); if (M < 0) M += 2π`. */
  function ReduceAnomaly(M: real): (r: real)
    ensures 0.0 <= r < TwoPi
    ensures 0.0 <= M < TwoPi ==> r == M
  {
    var t := JsRemainder(M, TwoPi);
    RemainderBounds(M);
    if t < 0.0 then t + TwoPi else t
  }

  /** `M % 2π` lies in [0, 2π) for M ≥ 0 and in (-2π, 0] for M < 0; it is M itself on [0, 2π). */
  lemma RemainderBounds(M: real)
    ensures M >= 0.0 ==> 0.0 <= JsRemainder(M, TwoPi) < TwoPi
    ensures M < 0.0 ==> -TwoPi < JsRemainder(M, TwoPi) <= 0.0
    ensures 0.0 <= M < TwoPi ==> JsRemainder(M, TwoPi) == M
    ensures JsRemainder(M, TwoPi) == M + Turns(-Truncate(M / TwoPi))
  {
    var w := TwoPi;
    var f := M / w;
    var q := Truncate(f);
    var t := JsRemainder(M, w);
    assert f * w == M;
    assert t == (f - q as real) * w;
    if M >= 0.0 {
      QuotientNonNegative(M, w);
      StrictScaled(w, f - q as real);
    } else {
      QuotientNegative(M, w);
      StrictScaled(w, q as real - f);
      assert t == -((q as real - f) * w);
    }
    if 0.0 <= M < w {
      assert f < 1.0 by {
        QuotientDifference(M, w, w);
        assert w / w == 1.0;
        QuotientNonNegative(w - M, w);
      }
      assert q == 0;
    }
    assert Turns(-q) == -(q as real) * w;
  }

  /** The reduced anomaly denotes the same angle as M. */
  lemma ReduceAnomalyCongruent(M: real)
    ensures Congruent(ReduceAnomaly(M), M)
  {
    RemainderBounds(M);
    var q := Truncate(M / TwoPi);
    var t := JsRemainder(M, TwoPi);
    if t < 0.0 {
      assert ReduceAnomaly(M) - M == Turns(1 - q);
    } else {
      assert ReduceAnomaly(M) - M == Turns(-q);
    }
  }

  /** Two angles in [0, 2π) that denote the same angle are equal. */
  lemma ReducedUnique(a: real, b: real)
    requires 0.0 <= a < TwoPi && 0.0 <= b < TwoPi
    requires Congruent(a, b)
    ensures a == b
  {
    var k: int :| a - b == Turns(k);
    if k >= 1 {
      TurnsAtLeastOne(k);
      assert false;
    } else if k <= -1 {
      TurnsAtMostMinusOne(k);
      assert false;
    }
  }

  /** A positive number of turns is at least one turn. */
  lemma TurnsAtLeastOne(k: int)
    requires k >= 1
    ensures Turns(k) >= TwoPi
  {
    ProductNonNegative((k - 1) as real, TwoPi);
    assert Turns(k) == (k - 1) as real * TwoPi + TwoPi;
  }

  /** A negative number of turns is at most minus one turn. */
  lemma TurnsAtMostMinusOne(k: int)
    requires k <= -1
    ensures Turns(k) <= -TwoPi
  {
    TurnsAtLeastOne(-k);
    assert Turns(k) == -Turns(-k);
  }

  /** The reduction is periodic: whole turns added to M do not change it. */
  lemma ReduceAnomalyPeriodic(M: real, n: int)
    ensures ReduceAnomaly(M + Turns(n)) == ReduceAnomaly(M)
  {
    var a := ReduceAnomaly(M + Turns(n));
    var b := ReduceAnomaly(M);
    ReduceAnomalyCongruent(M + Turns(n));
    ReduceAnomalyCongruent(M);
    var k1: int :| a - (M + Turns(n)) == Turns(k1);
    var k2: int :| b - M == Turns(k2);
    assert a - b == Turns(k1 + n - k2);
    ReducedUnique(a, b);
  }

  // ---------------------------------------------------------------
  // Kepler's equation, solved by a bounded Newton iteration
  // ---------------------------------------------------------------

  /** The number of Newton corrections `solveKepler` allows. */
  const MaxCorrections: nat := 10
  /** A correction smaller than this in magnitude ends the iteration. */
  const Tolerance: real := 0.00000001

  /** The Newton denominator 1 − e·cos E is never zero. */
  ghost predicate KeplerDefined(m: Functions, e: real) {
    forall E :: Denominator(m, e, E) != 0.0
  }

  /** `1 − e·cos E` */
  function Denominator(m: Functions, e: real, E: real): real {
    1.0 - e * m.cos(E)
  }

  /** For |e| < 1 the denominator is positive at every E. */
  lemma KeplerDefinedForEllipse(m: Functions, e: real)
    requires PythagoreanLaw(m)
    requires -1.0 < e < 1.0
    ensures KeplerDefined(m, e)
    ensures forall E :: Denominator(m, e, E) > 0.0
  {
    forall E
      ensures Denominator(m, e, E) > 0.0
    {
      TrigBounded(m, E);
      var c := m.cos(E);
      ProductBelowOne(e, c);
      assert Denominator(m, e, E) == 1.0 - e * c;
    }
  }

  /** |e| < 1 and |c| ≤ 1 give e·c < 1. */
  lemma ProductBelowOne(e: real, c: real)
    requires -1.0 < e < 1.0 && -1.0 <= c <= 1.0
    ensures e * c < 1.0
  {
    if e >= 0.0 && c >= 0.0 {
      ScaledBounds(c, e);
      assert e * c == c * e;
    } else if e < 0.0 && c < 0.0 {
      ScaledBounds(-c, -e);
      assert e * c == (-c) * (-e);
    } else if e >= 0.0 {
      ProductNonNegative(e, -c);
    } else {
      ProductNonNegative(-e, c);
    }
  }

  /** `dE = (E − e·sin E − M) / (1 − e·cos E)`. */
  function Correction(m: Functions, M: real, e: real, E: real): real
    requires KeplerDefined(m, e)
  {
    (E - e * m.sin(E) - M) / Denominator(m, e, E)
  }

  /** `E -= dE`, one Newton update. */
  function NewtonStep(m: Functions, M: real, e: real, E: real): real
    requires KeplerDefined(m, e)
  {
    E - Correction(m, M, e, E)
  }

  /** k Newton updates from E, with no stopping rule. */
  function Iterate(m: Functions, M: real, e: real, E: real, k: nat): real
    requires KeplerDefined(m, e)
    decreases k
  {
    if k == 0 then E else Iterate(m, M, e, NewtonStep(m, M, e, E), k - 1)
  }

  /** The value of E after the loop with `budget` iterations left, starting at E. */
  function NewtonFrom(m: Functions, M: real, e: real, E: real, budget: nat): real
    requires KeplerDefined(m, e)
    decreases budget
  {
    if budget == 0 then E
    else if Abs(Correction(m, M, e, E)) < Tolerance then NewtonStep(m, M, e, E)
    else NewtonFrom(m, M, e, NewtonStep(m, M, e, E), budget - 1)
  }

  /** How many corrections the loop applies with `budget` iterations left. */
  function CorrectionCount(m: Functions, M: real, e: real, E: real, budget: nat): nat
    requires KeplerDefined(m, e)
    decreases budget
  {
    if budget == 0 then 0
    else if Abs(Correction(m, M, e, E)) < Tolerance then 1
    else 1 + CorrectionCount(m, M, e, NewtonStep(m, M, e, E), budget - 1)
  }

  /** The starting point: π for e > 0.8, otherwise the reduced anomaly. */
  function InitialGuess(M: real, e: real): real {
    if e > 0.8 then Pi else M
  }

  /** The value `solveKepler(M, e)` returns. */
  function EccentricAnomaly(m: Functions, M: real, e: real): real
    requires KeplerDefined(m, e)
  {
    var Mr := ReduceAnomaly(M);
    NewtonFrom(m, Mr, e, InitialGuess(Mr, e), MaxCorrections)
  }

  /**
   * The loop applies between 1 and `budget` corrections. Every correction
   * before the last one was at least the tolerance in magnitude, and when
   * the loop stops early the last correction was below it.
   */
  lemma {:induction false} NewtonStructure(m: Functions, M: real, e: real, E: real, budget: nat)
    requires KeplerDefined(m, e)
    decreases budget
    ensures var k := CorrectionCount(m, M, e, E, budget);
      && (budget > 0 ==> 1 <= k) && k <= budget
      && NewtonFrom(m, M, e, E, budget) == Iterate(m, M, e, E, k)
      && (forall j :: 0 <= j < k - 1 ==> Abs(Correction(m, M, e, Iterate(m, M, e, E, j))) >= Tolerance)
      && (0 < k < budget ==> Abs(Correction(m, M, e, Iterate(m, M, e, E, k - 1))) < Tolerance)
  {
    if budget == 0 {
      return;
    }
    var E1 := NewtonStep(m, M, e, E);
    if Abs(Correction(m, M, e, E)) < Tolerance {
      assert Iterate(m, M, e, E, 1) == Iterate(m, M, e, E1, 0);
      return;
    }
    NewtonStructure(m, M, e, E1, budget - 1);
    var k' := CorrectionCount(m, M, e, E1, budget - 1);
    var k := k' + 1;
    assert Iterate(m, M, e, E, k) == Iterate(m, M, e, E1, k');
    forall j | 0 <= j < k - 1
      ensures Abs(Correction(m, M, e, Iterate(m, M, e, E, j))) >= Tolerance
    {
      if j > 0 {
        assert Iterate(m, M, e, E, j) == Iterate(m, M, e, E1, j - 1);
      }
    }
    if 0 < k < budget {
      assert Iterate(m, M, e, E, k - 1) == Iterate(m, M, e, E1, k' - 1);
    }
  }

  /**
   * `solveKepler(M, e)`: at most 10 corrections, starting at π when
   * e > 0.8 and at the reduced anomaly otherwise.
   */
  lemma KeplerSolveStructure(m: Functions, M: real, e: real)
    requires KeplerDefined(m, e)
    ensures var Mr := ReduceAnomaly(M);
      var start := if e > 0.8 then Pi else Mr;
      var k := CorrectionCount(m, Mr, e, start, MaxCorrections);
      && 1 <= k <= MaxCorrections
      && EccentricAnomaly(m, M, e) == Iterate(m, Mr, e, start, k)
      && (k < MaxCorrections ==> Abs(Correction(m, Mr, e, Iterate(m, Mr, e, start, k - 1))) < Tolerance)
  {
    var Mr := ReduceAnomaly(M);
    NewtonStructure(m, Mr, e, InitialGuess(Mr, e), MaxCorrections);
  }

  /** `solveKepler(M, e)`, the loop itself. */
  method SolveKepler(m: Functions, M: real, e: real) returns (E: real)
    requires KeplerDefined(m, e)
    ensures E == EccentricAnomaly(m, M, e)
  {
    var Mr := JsRemainder(M, TwoPi);
    if Mr < 0.0 {
      Mr := Mr + TwoPi;
    }
    E := Mr;
    if e > 0.8 {
      E := Pi;
    }
    ghost var target := NewtonFrom(m, Mr, e, E, MaxCorrections);
    assert target == EccentricAnomaly(m, M, e);
    var i := 0;
    while i < MaxCorrections
      invariant 0 <= i <= MaxCorrections
      invariant NewtonFrom(m, Mr, e, E, MaxCorrections - i) == target
    {
      var dE := Correction(m, Mr, e, E);
      E := E - dE;
      if Abs(dE) < Tolerance {
        return;
      }
      i := i + 1;
    }
  }

  // ---------------------------------------------------------------
  // Position from orbital elements
  // ---------------------------------------------------------------

  /** What `calculateOrbitalPosition` needs to give a number: a non-zero period and a Newton denominator that never vanishes. */
  ghost predicate OrbitDefined(m: Functions, o: Orbit) {
    o.orbitalPeriod != 0.0 && KeplerDefined(m, o.eccentricity)
  }

  /** `M = startAngle + (2π / period)·time·scale`, the mean anomaly before reduction. */
  function MeanAnomaly(o: Orbit, time: real, scale: real): real
    requires o.orbitalPeriod != 0.0
  {
    o.startAngle + TwoPi / o.orbitalPeriod * time * scale
  }

  /** The eccentric anomaly the position uses. */
  function AnomalyAt(m: Functions, o: Orbit, time: real, scale: real): real
    requires OrbitDefined(m, o)
  {
    EccentricAnomaly(m, MeanAnomaly(o, time, scale), o.eccentricity)
  }

  /** `r = a·(1 − e·cos E)`, the distance from the focus for eccentric anomaly E. */
  function FocalDistance(m: Functions, a: real, e: real, E: real): real {
    a * (1.0 - e * m.cos(E))
  }

  /** The true anomaly ν = atan2(√(1 − e²)·sin E, cos E − e). */
  function TrueAnomaly(m: Functions, e: real, E: real): real {
    m.atan2(m.sqrt(1.0 - e * e) * m.sin(E), m.cos(E) - e)
  }

  /** The point in the orbital plane, (r cos ν, r sin ν), with the periapsis on the first axis. */
  function InPlane(m: Functions, a: real, e: real, E: real): (real, real) {
    var r := FocalDistance(m, a, e, E);
    var nu := TrueAnomaly(m, e, E);
    (r * m.cos(nu), r * m.sin(nu))
  }

  /** The tilt by the inclination (in degrees) about the x-axis. */
  function Tilt(m: Functions, inclination: real, p: (real, real)): Vector {
    var incRad := inclination * Pi / 180.0;
    Vector(p.0, p.1 * m.sin(incRad), p.1 * m.cos(incRad))
  }

  /** The offset from the parent. */
  function OrbitalOffset(m: Functions, o: Orbit, time: real, scale: real): Vector
    requires OrbitDefined(m, o)
  {
    Tilt(m, o.inclination, InPlane(m, o.semiMajorAxis, o.eccentricity, AnomalyAt(m, o, time, scale)))
  }

  /** `calculateOrbitalPosition(orbit, time, parentPos, scale)`: the parent position plus the offset. */
  function OrbitalPosition(m: Functions, o: Orbit, time: real, parentPos: Vector, scale: real): (p: Vector)
    requires OrbitDefined(m, o)
    ensures Difference(p, parentPos) == OrbitalOffset(m, o, time, scale)
  {
    Sum(parentPos, OrbitalOffset(m, o, time, scale))
  }

  /** The x component of the offset does not depend on the inclination. */
  lemma OffsetXIgnoresInclination(m: Functions, o: Orbit, inclination: real, time: real, scale: real)
    requires OrbitDefined(m, o)
    ensures OrbitalOffset(m, o.(inclination := inclination), time, scale).x
         == OrbitalOffset(m, o, time, scale).x
  {
    var o' := o.(inclination := inclination);
    assert o'.eccentricity == o.eccentricity && o'.semiMajorAxis == o.semiMajorAxis;
    assert MeanAnomaly(o', time, scale) == MeanAnomaly(o, time, scale);
    assert AnomalyAt(m, o', time, scale) == AnomalyAt(m, o, time, scale);
  }

  /** The tilt keeps the length of the in-plane point. */
  lemma TiltLength(m: Functions, inclination: real, p: (real, real))
    requires PythagoreanLaw(m)
    ensures LenSq(Tilt(m, inclination, p)) == p.0 * p.0 + p.1 * p.1
  {
    var incRad := inclination * Pi / 180.0;
    SinCosSquare(m, incRad);
    TiltPreservesLength(p.1, m.sin(incRad), m.cos(incRad));
  }

  /** The in-plane point lies at distance |r| from the focus. */
  lemma InPlaneLength(m: Functions, a: real, e: real, E: real)
    requires PythagoreanLaw(m)
    ensures var p := InPlane(m, a, e, E);
      p.0 * p.0 + p.1 * p.1 == FocalDistance(m, a, e, E) * FocalDistance(m, a, e, E)
  {
    var nu := TrueAnomaly(m, e, E);
    SinCosSquare(m, nu);
    TiltPreservesLength(FocalDistance(m, a, e, E), m.cos(nu), m.sin(nu));
  }

  /** (a·s)² + (a·c)² = a² when s² + c² = 1. */
  lemma TiltPreservesLength(a: real, s: real, c: real)
    requires s * s + c * c == 1.0 || c * c + s * s == 1.0
    ensures (a * s) * (a * s) + (a * c) * (a * c) == a * a
  {
    assert (a * s) * (a * s) + (a * c) * (a * c) == (a * a) * (s * s + c * c);
  }

  /** The offset has length |r| = |a·(1 − e·cos E)|, whatever the inclination. */
  lemma OffsetLength(m: Functions, o: Orbit, time: real, scale: real)
    requires OrbitDefined(m, o)
    requires SqrtLaw(m) && PythagoreanLaw(m)
    ensures Length(m, OrbitalOffset(m, o, time, scale))
         == Abs(FocalDistance(m, o.semiMajorAxis, o.eccentricity, AnomalyAt(m, o, time, scale)))
  {
    var E := AnomalyAt(m, o, time, scale);
    var r := FocalDistance(m, o.semiMajorAxis, o.eccentricity, E);
    var p := InPlane(m, o.semiMajorAxis, o.eccentricity, E);
    var v := OrbitalOffset(m, o, time, scale);
    assert v == Tilt(m, o.inclination, p);
    TiltLength(m, o.inclination, p);
    InPlaneLength(m, o.semiMajorAxis, o.eccentricity, E);
    LengthFromSquare(m, v, r);
  }

  /** A vector whose squared length is r² has length |r|. */
  lemma LengthFromSquare(m: Functions, v: Vector, r: real)
    requires SqrtLaw(m) && LenSq(v) == r * r
    ensures Length(m, v) == Abs(r)
  {
    AbsSquare(r);
    SqrtUnique(m, LenSq(v), Abs(r));
  }

  lemma AbsSquare(r: real)
    ensures Abs(r) >= 0.0 && Abs(r) * Abs(r) == r * r
  {
  }

  /** A circular orbit (e = 0) keeps the body at distance |a| from its parent. */
  lemma CircularOrbitRadius(m: Functions, o: Orbit, time: real, scale: real)
    requires OrbitDefined(m, o) && o.eccentricity == 0.0
    requires SqrtLaw(m) && PythagoreanLaw(m)
    ensures Length(m, OrbitalOffset(m, o, time, scale)) == Abs(o.semiMajorAxis)
  {
    OffsetLength(m, o, time, scale);
  }

  /** With |e| ≤ 1 and |c| ≤ 1, |a·(1 − e·c)| lies between |a|·(1 − |e|) and |a|·(1 + |e|). */
  lemma FocalDistanceBounds(m: Functions, o: Orbit, E: real)
    requires PythagoreanLaw(m) && -1.0 <= o.eccentricity <= 1.0
    ensures PeriapsisDistance(o) <= Abs(FocalDistance(m, o.semiMajorAxis, o.eccentricity, E))
    ensures Abs(FocalDistance(m, o.semiMajorAxis, o.eccentricity, E)) <= ApoapsisDistance(o)
  {
    var r := FocalDistance(m, o.semiMajorAxis, o.eccentricity, E);
    TrigBounded(m, E);
    FactorBounds(o.semiMajorAxis, o.eccentricity, m.cos(E), r);
  }

  /** r = a·(1 − e·c) has |r| between |a|·(1 − |e|) and |a|·(1 + |e|) for |e| ≤ 1 and |c| ≤ 1. */
  lemma FactorBounds(a: real, e: real, c: real, r: real)
    requires -1.0 <= e <= 1.0 && -1.0 <= c <= 1.0 && r == a * (1.0 - e * c)
    ensures Abs(a) * (1.0 - Abs(e)) <= Abs(r) <= Abs(a) * (1.0 + Abs(e))
  {
    ProductWithinAbs(e, c);
    AbsScaledBetween(a, 1.0 - Abs(e), 1.0 - e * c, 1.0 + Abs(e), r);
  }

  /** r = a·f with 0 ≤ lo ≤ f ≤ hi gives |a|·lo ≤ |r| ≤ |a|·hi. */
  lemma AbsScaledBetween(a: real, lo: real, f: real, hi: real, r: real)
    requires 0.0 <= lo <= f <= hi && r == a * f
    ensures Abs(a) * lo <= Abs(r) <= Abs(a) * hi
  {
    if a < 0.0 {
      ScaledBetween(-a, lo, f, hi);
      ProductNonNegative(-a, f);
      assert r == -((-a) * f);
    } else {
      ScaledBetween(a, lo, f, hi);
      ProductNonNegative(a, f);
    }
  }

  /** k ≥ 0 and lo ≤ f ≤ hi give k·lo ≤ k·f ≤ k·hi. */
  lemma ScaledBetween(k: real, lo: real, f: real, hi: real)
    requires k >= 0.0 && lo <= f <= hi
    ensures k * lo <= k * f <= k * hi
  {
    ScaledPair(k, lo, f);
    ScaledPair(k, f, hi);
  }

  /** For |c| ≤ 1, e·c lies in [−|e|, |e|]. */
  lemma ProductWithinAbs(e: real, c: real)
    requires -1.0 <= c <= 1.0
    ensures -Abs(e) <= e * c <= Abs(e)
  {
    AbsProduct(e, c);
    ScaledBounds(Abs(e), Abs(c));
  }

  lemma AbsProduct(a: real, b: real)
    ensures Abs(a * b) == Abs(a) * Abs(b)
  {
    if a < 0.0 {
      assert a * b == -((-a) * b);
    }
    if b < 0.0 {
      assert a * b == -(a * (-b));
    }
    if a < 0.0 && b < 0.0 {
      assert a * b == (-a) * (-b);
    }
  }

  /** k ≥ 0 and x ≤ y give k·x ≤ k·y. */
  lemma ScaledPair(k: real, x: real, y: real)
    requires k >= 0.0 && x <= y
    ensures k * x <= k * y
  {
    ProductNonNegative(k, y - x);
    assert k * (y - x) == k * y - k * x;
  }

  /** |a|·(1 − |e|), the closest approach to the parent. */
  function PeriapsisDistance(o: Orbit): real {
    Abs(o.semiMajorAxis) * (1.0 - Abs(o.eccentricity))
  }

  /** |a|·(1 + |e|), the farthest distance from the parent. */
  function ApoapsisDistance(o: Orbit): real {
    Abs(o.semiMajorAxis) * (1.0 + Abs(o.eccentricity))
  }

  /** For |e| ≤ 1 the distance to the parent lies between the periapsis and apoapsis distances. */
  lemma OffsetBounded(m: Functions, o: Orbit, time: real, scale: real)
    requires OrbitDefined(m, o) && -1.0 <= o.eccentricity <= 1.0
    requires SqrtLaw(m) && PythagoreanLaw(m)
    ensures PeriapsisDistance(o) <= Length(m, OrbitalOffset(m, o, time, scale)) <= ApoapsisDistance(o)
  {
    var E := AnomalyAt(m, o, time, scale);
    OffsetLength(m, o, time, scale);
    FocalDistanceBounds(m, o, E);
    var L := Length(m, OrbitalOffset(m, o, time, scale));
    assert L == Abs(FocalDistance(m, o.semiMajorAxis, o.eccentricity, E));
  }

  /**
   * At the start of an orbit (start angle 0, time 0) with 0 ≤ e ≤ 0.8, the
   * body is at periapsis: a·(1 − e) along the x-axis.
   */
  lemma StartsAtPeriapsis(m: Functions, o: Orbit, scale: real)
    requires OrbitDefined(m, o)
    requires o.startAngle == 0.0 && 0.0 <= o.eccentricity <= 0.8
    requires ZeroAngleLaw(m)
    ensures OrbitalOffset(m, o, 0.0, scale)
         == Vector(o.semiMajorAxis * (1.0 - o.eccentricity), 0.0, 0.0)
  {
    var e := o.eccentricity;
    assert MeanAnomaly(o, 0.0, scale) == 0.0;
    assert ReduceAnomaly(0.0) == 0.0;
    assert Correction(m, 0.0, e, 0.0) == 0.0 by {
      assert 0.0 - e * m.sin(0.0) - 0.0 == 0.0;
    }
    assert AnomalyAt(m, o, 0.0, scale) == 0.0;
    assert TrueAnomaly(m, e, 0.0) == 0.0 by {
      assert m.sqrt(1.0 - e * e) * m.sin(0.0) == 0.0;
    }
    var r := o.semiMajorAxis * (1.0 - e);
    assert FocalDistance(m, o.semiMajorAxis, e, 0.0) == r;
    assert InPlane(m, o.semiMajorAxis, e, 0.0) == (r, 0.0);
  }

  // ---------------------------------------------------------------
  // The orbit state manager
  // ---------------------------------------------------------------

  /** One entry of the body lookup. */
  datatype Body = Body(
    name: string,
    orbit: Orbit,
    parentName: ParentRef,
    position: Vector,
    prevPosition: Option<Vector>)

  /** A planet configuration as `initializeOrbits` reads it. */
  datatype PlanetConfig = PlanetConfig(name: string, orbit: Orbit)

  /** The entry `initializeOrbits` creates for one configuration. */
  function NewBody(c: PlanetConfig): Body {
    Body(c.name, c.orbit, c.orbit.parent, Zero, None)
  }

  /**
   * The lookup after one `set` per configuration, in order; a later
   * configuration with the same name replaces an earlier one.
   */
  function Registry(configs: seq<PlanetConfig>): map<string, Body>
    decreases |configs|
  {
    if |configs| == 0 then map[]
    else
      var last := configs[|configs| - 1];
      Registry(configs[..|configs| - 1])[last.name := NewBody(last)]
  }

  /**
   * The registry has one entry per configured name, and every entry
   * starts at the origin, with no previous position and with the parent
   * its orbit names.
   */
  lemma {:induction false} RegistryContents(configs: seq<PlanetConfig>)
    ensures Registry(configs).Keys == set i | 0 <= i < |configs| :: configs[i].name
    ensures forall n :: n in Registry(configs) ==>
      var b := Registry(configs)[n];
      b.name == n && b.position == Zero && b.prevPosition.None? && b.parentName == b.orbit.parent
    decreases |configs|
  {
    if |configs| > 0 {
      var init := configs[..|configs| - 1];
      RegistryContents(init);
      var names := set i | 0 <= i < |configs| :: configs[i].name;
      var initNames := set i | 0 <= i < |init| :: init[i].name;
      assert names == initNames + {configs[|configs| - 1].name} by {
        forall n | n in names ensures n in initNames + {configs[|configs| - 1].name} {
          var i :| 0 <= i < |configs| && configs[i].name == n;
          if i < |init| {
            assert init[i].name == n;
          }
        }
        forall n | n in initNames ensures n in names {
          var i :| 0 <= i < |init| && init[i].name == n;
          assert configs[i].name == n;
        }
      }
    }
  }

  /** The entry for a name is built from the last configuration with that name. */
  lemma {:induction false} RegistryLastWins(configs: seq<PlanetConfig>, i: nat)
    requires i < |configs|
    requires forall j :: i < j < |configs| ==> configs[j].name != configs[i].name
    ensures configs[i].name in Registry(configs)
    ensures Registry(configs)[configs[i].name] == NewBody(configs[i])
    decreases |configs|
  {
    var init := configs[..|configs| - 1];
    if i < |configs| - 1 {
      forall j | i < j < |init| ensures init[j].name != init[i].name {
        assert configs[j].name != configs[i].name;
      }
      RegistryLastWins(init, i);
    }
  }

  /** Every body's orbit can be evaluated. */
  ghost predicate OrbitsDefined(m: Functions, L: map<string, Body>) {
    PythagoreanLaw(m) && forall n :: n in L ==> WellFormed(L[n].orbit)
  }

  predicate WellFormed(o: Orbit) {
    o.orbitalPeriod != 0.0 && -1.0 < o.eccentricity < 1.0
  }

  lemma WellFormedDefined(m: Functions, o: Orbit)
    requires PythagoreanLaw(m) && WellFormed(o)
    ensures OrbitDefined(m, o)
  {
    KeplerDefinedForEllipse(m, o.eccentricity);
  }

  /** `calculateOrbitalPosition` for a well-formed orbit. */
  function PositionAround(m: Functions, o: Orbit, t: real, parentPos: Vector, scale: real): Vector
    requires PythagoreanLaw(m) && WellFormed(o)
  {
    WellFormedDefined(m, o);
    OrbitalPosition(m, o, t, parentPos, scale)
  }

  /** The same body, possibly at another position: name, orbit and parent agree. */
  predicate SameIdentity(a: Body, b: Body) {
    a.name == b.name && a.orbit == b.orbit && a.parentName == b.parentName
  }

  /** `body.prevPosition = body.position.clone(); body.position = newPos`. */
  function Advance(b: Body, p: Vector): (r: Body)
    ensures r.position == p && r.prevPosition == Some(b.position)
    ensures r.name == b.name && r.orbit == b.orbit && r.parentName == b.parentName
  {
    b.(prevPosition := Some(b.position), position := p)
  }

  /** The position the first pass writes for a planet of this name, if any. */
  function SunWrite(m: Functions, L: map<string, Body>, name: string, t: real, sun: Vector, scale: real): Option<Vector>
    requires OrbitsDefined(m, L)
  {
    if name in L && L[name].parentName == Null then
      Some(PositionAround(m, L[name].orbit, t, sun, scale))
    else None
  }

  /** One iteration of the first loop. */
  function SunStep(m: Functions, L: map<string, Body>, name: string, t: real, sun: Vector, scale: real)
    : (r: map<string, Body>)
    requires OrbitsDefined(m, L)
    ensures OrbitsDefined(m, r)
  {
    var w := SunWrite(m, L, name, t, sun, scale);
    if w.Some? then L[name := Advance(L[name], w.value)] else L
  }

  /** The first loop over the first k planet names: bodies that orbit the sun. */
  function SunPass(m: Functions, L: map<string, Body>, names: seq<string>, k: nat, t: real, sun: Vector, scale: real)
    : (r: map<string, Body>)
    requires OrbitsDefined(m, L) && k <= |names|
    ensures OrbitsDefined(m, r)
    decreases k
  {
    if k == 0 then L
    else SunStep(m, SunPass(m, L, names, k - 1, t, sun, scale), names[k - 1], t, sun, scale)
  }

  /** The position the second pass writes for a moon of this name, if its parent resolves. */
  function MoonWrite(m: Functions, L: map<string, Body>, name: string, t: real, scale: real): Option<Vector>
    requires OrbitsDefined(m, L)
  {
    if name in L && L[name].parentName.Named? && L[name].parentName.name in L then
      Some(PositionAround(m, L[name].orbit, t, L[L[name].parentName.name].position, scale))
    else None
  }

  /** One iteration of the second loop. */
  function MoonStep(m: Functions, L: map<string, Body>, name: string, t: real, scale: real)
    : (r: map<string, Body>)
    requires OrbitsDefined(m, L)
    ensures OrbitsDefined(m, r)
  {
    var w := MoonWrite(m, L, name, t, scale);
    if w.Some? then L[name := Advance(L[name], w.value)] else L
  }

  /** The second loop over the first k planet names: moons, placed around their parent's current position. */
  function MoonPass(m: Functions, L: map<string, Body>, names: seq<string>, k: nat, t: real, scale: real)
    : (r: map<string, Body>)
    requires OrbitsDefined(m, L) && k <= |names|
    ensures OrbitsDefined(m, r)
    decreases k
  {
    if k == 0 then L
    else MoonStep(m, MoonPass(m, L, names, k - 1, t, scale), names[k - 1], t, scale)
  }

  /** The whole lookup update of one `updateOrbits` call at clock t. */
  function UpdatedLookup(m: Functions, L: map<string, Body>, names: seq<string>, t: real, sun: Vector, scale: real)
    : (r: map<string, Body>)
    requires OrbitsDefined(m, L)
  {
    MoonPass(m, SunPass(m, L, names, |names|, t, sun, scale), names, |names|, t, scale)
  }

  /**
   * What the first loop, starting from lookup L, writes into the i-th planet
   * object, if anything. The pass changes no orbit, parent or name, so this
   * is decided by L alone (`SunWriteAtStep`).
   */
  function SunWriteAt(m: Functions, L: map<string, Body>, names: seq<string>, i: nat, t: real, sun: Vector, scale: real)
    : Option<Vector>
    requires OrbitsDefined(m, L) && i < |names|
  {
    SunWrite(m, L, names[i], t, sun, scale)
  }

  /** The write of iteration i, made against the lookup the first i iterations left. */
  lemma SunWriteAtStep(m: Functions, L: map<string, Body>, names: seq<string>, i: nat, t: real, sun: Vector, scale: real)
    requires OrbitsDefined(m, L) && i < |names|
    ensures SunWriteAt(m, L, names, i, t, sun, scale)
         == SunWrite(m, SunPass(m, L, names, i, t, sun, scale), names[i], t, sun, scale)
  {
    SunPassKeys(m, L, names, i, t, sun, scale);
    if names[i] in L {
      SunPassEntry(m, L, names, i, t, sun, scale, names[i]);
    }
  }

  /** What the second loop, starting from lookup L, writes into the i-th planet object, if anything. */
  function MoonWriteAt(m: Functions, L: map<string, Body>, names: seq<string>, i: nat, t: real, scale: real)
    : Option<Vector>
    requires OrbitsDefined(m, L) && i < |names|
  {
    MoonWrite(m, MoonPass(m, L, names, i, t, scale), names[i], t, scale)
  }

  /** The position a planet object holds after the call: the last write to it, or its old position. */
  function PlanetAfter(m: Functions, L: map<string, Body>, names: seq<string>, i: nat, t: real, sun: Vector,
                       scale: real, old_: Vector): Vector
    requires OrbitsDefined(m, L) && i < |names|
  {
    var afterSunPass := SunPass(m, L, names, |names|, t, sun, scale);
    MoonWriteAt(m, afterSunPass, names, i, t, scale).GetOr(SunWriteAt(m, L, names, i, t, sun, scale).GetOr(old_))
  }

  /**
   * P holds the lookup after each prefix of the first loop and W the write
   * of each of its iterations. The loop below carries P and W in place of
   * the pass functions, so that its proof does not expand the orbital
   * arithmetic behind them.
   */
  ghost predicate SunTrace(m: Functions, L: map<string, Body>, names: seq<string>, t: real, sun: Vector, scale: real,
                           P: seq<map<string, Body>>, W: seq<Option<Vector>>)
    requires OrbitsDefined(m, L)
  {
    && |P| == |names| + 1 && |W| == |names|
    && (forall k {:trigger SunPass(m, L, names, k, t, sun, scale)} :: 0 <= k <= |names| ==>
          P[k] == SunPass(m, L, names, k, t, sun, scale))
    && (forall j {:trigger SunWriteAt(m, L, names, j, t, sun, scale)} :: 0 <= j < |names| ==>
          W[j] == SunWriteAt(m, L, names, j, t, sun, scale))
  }

  lemma SunTraceOf(m: Functions, L: map<string, Body>, names: seq<string>, t: real, sun: Vector, scale: real)
    returns (P: seq<map<string, Body>>, W: seq<Option<Vector>>)
    requires OrbitsDefined(m, L)
    ensures SunTrace(m, L, names, t, sun, scale, P, W)
  {
    P := seq(|names| + 1, k requires 0 <= k <= |names| => SunPass(m, L, names, k, t, sun, scale));
    W := seq(|names|, j requires 0 <= j < |names| => SunWriteAt(m, L, names, j, t, sun, scale));
  }

  /** The same for the second loop. */
  ghost predicate MoonTrace(m: Functions, L: map<string, Body>, names: seq<string>, t: real, scale: real,
                            P: seq<map<string, Body>>, W: seq<Option<Vector>>)
    requires OrbitsDefined(m, L)
  {
    && |P| == |names| + 1 && |W| == |names|
    && (forall k {:trigger MoonPass(m, L, names, k, t, scale)} :: 0 <= k <= |names| ==>
          P[k] == MoonPass(m, L, names, k, t, scale))
    && (forall j {:trigger MoonWriteAt(m, L, names, j, t, scale)} :: 0 <= j < |names| ==>
          W[j] == MoonWriteAt(m, L, names, j, t, scale))
  }

  lemma MoonTraceOf(m: Functions, L: map<string, Body>, names: seq<string>, t: real, scale: real)
    returns (P: seq<map<string, Body>>, W: seq<Option<Vector>>)
    requires OrbitsDefined(m, L)
    ensures MoonTrace(m, L, names, t, scale, P, W)
  {
    P := seq(|names| + 1, k requires 0 <= k <= |names| => MoonPass(m, L, names, k, t, scale));
    W := seq(|names|, j requires 0 <= j < |names| => MoonWriteAt(m, L, names, j, t, scale));
  }

  /** No name occurs twice. */
  predicate Distinct(names: seq<string>) {
    forall i, j :: 0 <= i < j < |names| ==> names[i] != names[j]
  }

  /** A body the first pass moves: it orbits the sun. */
  predicate SunOrbiter(L: map<string, Body>, n: string) {
    n in L && L[n].parentName == Null
  }

  /** A body the second pass moves: its named parent is in the lookup. */
  predicate ResolvedMoon(L: map<string, Body>, n: string) {
    n in L && L[n].parentName.Named? && L[n].parentName.name in L
  }

  /** The first pass keeps the set of names in the lookup. */
  lemma {:induction false} SunPassKeys(m: Functions, L: map<string, Body>, names: seq<string>, k: nat,
                                       t: real, sun: Vector, scale: real)
    requires OrbitsDefined(m, L) && k <= |names|
    ensures SunPass(m, L, names, k, t, sun, scale).Keys == L.Keys
    decreases k
  {
    if k > 0 {
      SunPassKeys(m, L, names, k - 1, t, sun, scale);
    }
  }

  /** The second pass keeps the set of names in the lookup. */
  lemma {:induction false} MoonPassKeys(m: Functions, L: map<string, Body>, names: seq<string>, k: nat,
                                        t: real, scale: real)
    requires OrbitsDefined(m, L) && k <= |names|
    ensures MoonPass(m, L, names, k, t, scale).Keys == L.Keys
    decreases k
  {
    if k > 0 {
      MoonPassKeys(m, L, names, k - 1, t, scale);
    }
  }

  /**
   * After the first k iterations of the first loop: a sun-orbiting body
   * whose name came up sits at its orbital position around the sun, and
   * (when names do not repeat) its previous position is its position
   * before the call; every other body is untouched.
   */
  lemma {:induction false} SunPassEntry(m: Functions, L: map<string, Body>, names: seq<string>, k: nat,
                                        t: real, sun: Vector, scale: real, n: string)
    requires OrbitsDefined(m, L) && k <= |names| && n in L
    ensures n in SunPass(m, L, names, k, t, sun, scale)
    ensures SameIdentity(SunPass(m, L, names, k, t, sun, scale)[n], L[n])
    ensures var r := SunPass(m, L, names, k, t, sun, scale);
      && (!SunOrbiter(L, n) || n !in names[..k] ==> r[n] == L[n])
      && (SunOrbiter(L, n) && n in names[..k] ==>
            r[n].position == PositionAround(m, L[n].orbit, t, sun, scale))
      && (SunOrbiter(L, n) && n in names[..k] && Distinct(names) ==> r[n].prevPosition == Some(L[n].position))
    decreases k
  {
    if k > 0 {
      SunPassEntry(m, L, names, k - 1, t, sun, scale, n);
      assert names[..k] == names[..k - 1] + [names[k - 1]];
      if Distinct(names) && names[k - 1] == n {
        assert n !in names[..k - 1];
      }
    }
  }

  /**
   * After the first k iterations of the second loop: sun-orbiting bodies,
   * unresolved moons and bodies whose name did not come up are untouched;
   * a moon of a sun-orbiting parent sits at its orbital position around
   * the parent's position in L, with (names not repeating) its old position
   * stashed.
   */
  lemma {:induction false} MoonPassEntry(m: Functions, L: map<string, Body>, names: seq<string>, k: nat,
                                         t: real, scale: real, n: string)
    requires OrbitsDefined(m, L) && k <= |names| && n in L
    ensures n in MoonPass(m, L, names, k, t, scale)
    ensures SameIdentity(MoonPass(m, L, names, k, t, scale)[n], L[n])
    ensures var r := MoonPass(m, L, names, k, t, scale);
      && (!ResolvedMoon(L, n) || n !in names[..k] ==> r[n] == L[n])
      && (ResolvedMoon(L, n) && SunOrbiter(L, L[n].parentName.name) && n in names[..k] ==>
            r[n].position == PositionAround(m, L[n].orbit, t, L[L[n].parentName.name].position, scale))
      && (ResolvedMoon(L, n) && n in names[..k] && Distinct(names) ==> r[n].prevPosition == Some(L[n].position))
    decreases k
  {
    if k > 0 {
      var prior := MoonPass(m, L, names, k - 1, t, scale);
      MoonPassEntry(m, L, names, k - 1, t, scale, n);
      MoonPassKeys(m, L, names, k - 1, t, scale);
      assert names[..k] == names[..k - 1] + [names[k - 1]];
      if names[k - 1] == n {
        if Distinct(names) {
          assert n !in names[..k - 1];
        }
        if ResolvedMoon(L, n) {
          var p := L[n].parentName.name;
          MoonPassEntry(m, L, names, k - 1, t, scale, p);
          assert MoonWrite(m, prior, n, t, scale)
              == Some(PositionAround(m, L[n].orbit, t, prior[p].position, scale));
        } else {
          assert MoonWrite(m, prior, n, t, scale).None?;
        }
      }
    }
  }

  /**
   * One `updateOrbits` call, body by body: a body whose name is not in the
   * planet list, or a moon whose parent does not resolve, is unchanged; a
   * listed sun-orbiting body moves to its orbital position around the sun;
   * a listed moon of a listed sun-orbiting parent moves around the
   * parent's position from this same call, never the previous one; and
   * with distinct names every moved body stashes its position from before
   * the call.
   */
  lemma UpdatedLookupEntry(m: Functions, L: map<string, Body>, names: seq<string>, t: real, sun: Vector,
                           scale: real, n: string)
    requires OrbitsDefined(m, L) && n in L
    ensures UpdatedLookup(m, L, names, t, sun, scale).Keys == L.Keys
    ensures var r := UpdatedLookup(m, L, names, t, sun, scale);
      && SameIdentity(r[n], L[n])
      && (n !in names || !(SunOrbiter(L, n) || ResolvedMoon(L, n)) ==> r[n] == L[n])
      && (SunOrbiter(L, n) && n in names ==>
            r[n].position == PositionAround(m, L[n].orbit, t, sun, scale))
      && (ResolvedMoon(L, n) && n in names && SunOrbiter(L, L[n].parentName.name) && L[n].parentName.name in names ==>
            var p := L[n].parentName.name;
            r[n].position == PositionAround(m, L[n].orbit, t, PositionAround(m, L[p].orbit, t, sun, scale), scale))
      && ((SunOrbiter(L, n) || ResolvedMoon(L, n)) && n in names && Distinct(names) ==>
            r[n].prevPosition == Some(L[n].position))
  {
    var k := |names|;
    assert names[..k] == names;
    var S := SunPass(m, L, names, k, t, sun, scale);
    SunPassKeys(m, L, names, k, t, sun, scale);
    MoonPassKeys(m, S, names, k, t, scale);
    SunPassEntry(m, L, names, k, t, sun, scale, n);
    MoonPassEntry(m, S, names, k, t, scale, n);
    if ResolvedMoon(L, n) {
      var p := L[n].parentName.name;
      SunPassEntry(m, L, names, k, t, sun, scale, p);
      assert S[n] == L[n];
      assert ResolvedMoon(S, n);
    } else if SunOrbiter(L, n) {
      assert !ResolvedMoon(S, n);
    } else {
      assert S[n] == L[n];
      assert !ResolvedMoon(S, n);
    }
  }

  /** Second-loop iterations for other names leave a body's entry alone. */
  lemma {:induction false} MoonPassSkips(m: Functions, L: map<string, Body>, names: seq<string>, j: nat, k: nat,
                                         t: real, scale: real, n: string)
    requires OrbitsDefined(m, L) && j <= k <= |names| && n in L
    requires forall q :: j <= q < k ==> names[q] != n
    ensures n in MoonPass(m, L, names, j, t, scale) && n in MoonPass(m, L, names, k, t, scale)
    ensures MoonPass(m, L, names, k, t, scale)[n] == MoonPass(m, L, names, j, t, scale)[n]
    decreases k
  {
    MoonPassKeys(m, L, names, j, t, scale);
    MoonPassKeys(m, L, names, k, t, scale);
    if k > j {
      MoonPassSkips(m, L, names, j, k - 1, t, scale, n);
      MoonPassKeys(m, L, names, k - 1, t, scale);
    }
  }

  /**
   * With distinct names, the write the second loop makes to a resolved
   * moon's planet object at its own index is the body's final position.
   */
  lemma MoonWriteIsFinal(m: Functions, S: map<string, Body>, names: seq<string>, i: nat, t: real, scale: real)
    requires OrbitsDefined(m, S) && i < |names| && Distinct(names) && ResolvedMoon(S, names[i])
    ensures names[i] in MoonPass(m, S, names, |names|, t, scale)
    ensures MoonWriteAt(m, S, names, i, t, scale)
         == Some(MoonPass(m, S, names, |names|, t, scale)[names[i]].position)
  {
    var n := names[i];
    var P := MoonPass(m, S, names, i, t, scale);
    MoonPassKeys(m, S, names, i, t, scale);
    MoonPassEntry(m, S, names, i, t, scale, n);
    assert ResolvedMoon(P, n);
    assert MoonPass(m, S, names, i + 1, t, scale) == MoonStep(m, P, n, t, scale);
    MoonPassSkips(m, S, names, i + 1, |names|, t, scale, n);
  }

  /**
   * The planet object at index i mirrors its body: when the body moves
   * (a sun-orbiter, or a moon of a sun-orbiting parent, or with distinct
   * names any resolved moon), the object ends at the body's new position;
   * when nothing moves it, it keeps its old position.
   */
  lemma PlanetMirrorsBody(m: Functions, L: map<string, Body>, names: seq<string>, i: nat, t: real,
                          sun: Vector, scale: real, old_: Vector)
    requires OrbitsDefined(m, L) && i < |names|
    ensures names[i] in L ==> names[i] in UpdatedLookup(m, L, names, t, sun, scale)
    ensures var n := names[i];
      (SunOrbiter(L, n) || (ResolvedMoon(L, n) && SunOrbiter(L, L[n].parentName.name))) ==>
        PlanetAfter(m, L, names, i, t, sun, scale, old_) == UpdatedLookup(m, L, names, t, sun, scale)[n].position
    ensures Distinct(names) && ResolvedMoon(L, names[i]) ==>
      PlanetAfter(m, L, names, i, t, sun, scale, old_) == UpdatedLookup(m, L, names, t, sun, scale)[names[i]].position
    ensures !(SunOrbiter(L, names[i]) || ResolvedMoon(L, names[i])) ==>
      PlanetAfter(m, L, names, i, t, sun, scale, old_) == old_
  {
    var n := names[i];
    var k := |names|;
    assert names[..k] == names;
    var S := SunPass(m, L, names, k, t, sun, scale);
    SunPassKeys(m, L, names, k, t, sun, scale);
    SunPassKeys(m, L, names, i, t, sun, scale);
    MoonPassKeys(m, S, names, i, t, scale);
    MoonPassKeys(m, S, names, k, t, scale);
    if n in L {
      assert n in names[..k];
      SunPassEntry(m, L, names, i, t, sun, scale, n);
      SunPassEntry(m, L, names, k, t, sun, scale, n);
      MoonPassEntry(m, S, names, i, t, scale, n);
      MoonPassEntry(m, S, names, k, t, scale, n);
      if ResolvedMoon(L, n) && Distinct(names) {
        assert S[n] == L[n];
        MoonWriteIsFinal(m, S, names, i, t, scale);
      }
      if SunOrbiter(L, n) {
        assert SunWriteAt(m, L, names, i, t, sun, scale) == Some(PositionAround(m, L[n].orbit, t, sun, scale));
        assert MoonWriteAt(m, S, names, i, t, scale).None?;
      } else if ResolvedMoon(L, n) && SunOrbiter(L, L[n].parentName.name) {
        var p := L[n].parentName.name;
        SunPassEntry(m, L, names, k, t, sun, scale, p);
        MoonPassEntry(m, S, names, i, t, scale, p);
        assert S[n] == L[n];
        assert MoonWriteAt(m, S, names, i, t, scale)
            == Some(PositionAround(m, L[n].orbit, t, S[p].position, scale));
      } else if !ResolvedMoon(L, n) {
        assert SunWriteAt(m, L, names, i, t, sun, scale).None?;
        assert MoonWriteAt(m, S, names, i, t, scale).None?;
      }
    } else {
      assert SunWriteAt(m, L, names, i, t, sun, scale).None?;
      assert MoonWriteAt(m, S, names, i, t, scale).None?;
    }
  }

  /** The velocity `getPlanetVelocity` reports, component by component. */
  function PlanetVelocity(L: map<string, Body>, name: string, dt: real): (v: Vector)
    ensures name !in L || L[name].prevPosition.None? || dt <= 0.0 ==> v == Zero
    ensures name in L && L[name].prevPosition.Some? && dt > 0.0 ==>
      Scale(v, dt) == Difference(L[name].position, L[name].prevPosition.value)
  {
    if name !in L || L[name].prevPosition.None? || dt <= 0.0 then Zero
    else
      var p, q := L[name].position, L[name].prevPosition.value;
      var v := Vector((p.x - q.x) / dt, (p.y - q.y) / dt, (p.z - q.z) / dt);
      assert Scale(v, dt) == Difference(p, q);
      v
  }

  /**
   * Right after an update with the same dt > 0, a sun-orbiting body
   * listed once reports the displacement of this tick divided by dt.
   */
  lemma VelocityAfterUpdate(m: Functions, L: map<string, Body>, names: seq<string>, t: real, sun: Vector,
                            scale: real, n: string, dt: real)
    requires OrbitsDefined(m, L) && SunOrbiter(L, n) && n in names && Distinct(names) && dt > 0.0
    ensures Scale(PlanetVelocity(UpdatedLookup(m, L, names, t, sun, scale), n, dt), dt)
         == Difference(PositionAround(m, L[n].orbit, t, sun, scale), L[n].position)
  {
    UpdatedLookupEntry(m, L, names, t, sun, scale, n);
  }

  function Names(planets: seq<Planet>): (names: seq<string>)
    ensures |names| == |planets|
    ensures forall i {:trigger names[i]} :: 0 <= i < |planets| ==> names[i] == planets[i].name
  {
    seq(|planets|, i requires 0 <= i < |planets| => planets[i].name)
  }

  /** The orbital state `initializeOrbits` returns and `updateOrbits` advances. */
  class OrbitalState {
    var bodyLookup: map<string, Body>
    const sunPosition: Vector
    var time: real

    /** `initializeOrbits(planetConfigs, sunPosition)`. */
    constructor (configs: seq<PlanetConfig>, sun: Vector)
      ensures bodyLookup == Registry(configs)
      ensures sunPosition == sun && time == 0.0
    {
      bodyLookup := map[];
      sunPosition := sun;
      time := 0.0;
      new;
      var i := 0;
      while i < |configs|
        invariant 0 <= i <= |configs|
        invariant bodyLookup == Registry(configs[..i])
        invariant sunPosition == sun && time == 0.0
      {
        assert configs[..i + 1][..i] == configs[..i];
        bodyLookup := bodyLookup[configs[i].name := NewBody(configs[i])];
        i := i + 1;
      }
      assert configs[..|configs|] == configs;
    }

    /**
     * `updateOrbits(orbitalState, planets, dt, orbitalTimeScale)`. The planet
     * objects must be distinct; their names may repeat.
     */
    method UpdateOrbits(m: Functions, planets: seq<Planet>, dt: real, scale: real)
      requires OrbitsDefined(m, bodyLookup)
      requires forall i, j :: 0 <= i < j < |planets| ==> planets[i] != planets[j]
      modifies this, planets
      ensures time == old(time) + dt
      ensures bodyLookup == UpdatedLookup(m, old(bodyLookup), Names(planets), time, sunPosition, scale)
      ensures forall i :: 0 <= i < |planets| ==>
        planets[i].position
        == PlanetAfter(m, old(bodyLookup), Names(planets), i, time, sunPosition, scale, old(planets[i].position))
    {
      time := time + dt;
      RunSunPass(m, planets, time, scale);
      RunMoonPass(m, planets, time, scale);
    }

    /** `getPlanetVelocity(orbitalState, planetName, dt)`. */
    method GetPlanetVelocity(name: string, dt: real) returns (v: Vector)
      ensures v == PlanetVelocity(bodyLookup, name, dt)
    {
      if name !in bodyLookup || bodyLookup[name].prevPosition.None? || dt <= 0.0 {
        return Zero;
      }
      var body := bodyLookup[name];
      var prev := body.prevPosition.value;
      v := Vector((body.position.x - prev.x) / dt, (body.position.y - prev.y) / dt, (body.position.z - prev.z) / dt);
    }

    /** The first loop of `updateOrbits`: bodies whose parent is `null`. */
    method RunSunPass(m: Functions, planets: seq<Planet>, t: real, scale: real)
      requires OrbitsDefined(m, bodyLookup)
      requires forall i, j :: 0 <= i < j < |planets| ==> planets[i] != planets[j]
      modifies this`bodyLookup, planets
      ensures bodyLookup == SunPass(m, old(bodyLookup), Names(planets), |planets|, t, sunPosition, scale)
      ensures forall j {:trigger SunWriteAt(m, old(bodyLookup), Names(planets), j, t, sunPosition, scale)} :: 0 <= j < |planets| ==>
        planets[j].position == SunWriteAt(m, old(bodyLookup), Names(planets), j, t, sunPosition, scale).GetOr(old(planets[j].position))
    {
      var names := Names(planets);
      ghost var L0, sun := bodyLookup, sunPosition;
      ghost var P, W := SunTraceOf(m, L0, names, t, sun, scale);
      assert P[0] == SunPass(m, L0, names, 0, t, sun, scale);
      var i := 0;
      while i < |planets|
        invariant 0 <= i <= |planets| && sunPosition == sun
        invariant bodyLookup == P[i]
        invariant forall j :: 0 <= j < i ==> planets[j].position == W[j].GetOr(old(planets[j].position))
        invariant forall j :: i <= j < |planets| ==> planets[j].position == old(planets[j].position)
      {
        SunStepAt(m, planets, L0, sun, P, W, i, t, scale);
        i := i + 1;
      }
    }

    /** Iteration i of the first loop, stated against the pass over the first i names. */
    method SunStepAt(m: Functions, planets: seq<Planet>, ghost L0: map<string, Body>, ghost sun: Vector,
                     ghost P: seq<map<string, Body>>, ghost W: seq<Option<Vector>>, i: nat, t: real, scale: real)
      requires OrbitsDefined(m, L0) && i < |planets| && sun == sunPosition
      requires SunTrace(m, L0, Names(planets), t, sun, scale, P, W) && bodyLookup == P[i]
      modifies this`bodyLookup, planets[i]
      ensures bodyLookup == P[i + 1]
      ensures planets[i].position == W[i].GetOr(old(planets[i].position))
    {
      assert P[i] == SunPass(m, L0, Names(planets), i, t, sun, scale);
      assert P[i + 1] == SunPass(m, L0, Names(planets), i + 1, t, sun, scale);
      assert W[i] == SunWriteAt(m, L0, Names(planets), i, t, sun, scale);
      SunWriteAtStep(m, L0, Names(planets), i, t, sun, scale);
      assert Names(planets)[i] == planets[i].name;
      UpdateSunOrbiter(m, planets[i], t, scale);
    }

    /** One iteration of the first loop, for one planet object. */
    method UpdateSunOrbiter(m: Functions, planet: Planet, t: real, scale: real)
      requires OrbitsDefined(m, bodyLookup)
      modifies this`bodyLookup, planet`position
      ensures bodyLookup == SunStep(m, old(bodyLookup), planet.name, t, sunPosition, scale)
      ensures planet.position == SunWrite(m, old(bodyLookup), planet.name, t, sunPosition, scale).GetOr(old(planet.position))
    {
      var name := planet.name;
      if name in bodyLookup && bodyLookup[name].parentName == Null {
        var body := bodyLookup[name];
        var newPos := PositionAround(m, body.orbit, t, sunPosition, scale);
        bodyLookup := bodyLookup[name := Advance(body, newPos)];
        planet.position := newPos;
      }
    }

    /** The second loop of `updateOrbits`: bodies with a named parent that resolves. */
    method RunMoonPass(m: Functions, planets: seq<Planet>, t: real, scale: real)
      requires OrbitsDefined(m, bodyLookup)
      requires forall i, j :: 0 <= i < j < |planets| ==> planets[i] != planets[j]
      modifies this`bodyLookup, planets
      ensures bodyLookup == MoonPass(m, old(bodyLookup), Names(planets), |planets|, t, scale)
      ensures forall j {:trigger MoonWriteAt(m, old(bodyLookup), Names(planets), j, t, scale)} :: 0 <= j < |planets| ==>
        planets[j].position == MoonWriteAt(m, old(bodyLookup), Names(planets), j, t, scale).GetOr(old(planets[j].position))
    {
      var names := Names(planets);
      ghost var L1 := bodyLookup;
      ghost var P, W := MoonTraceOf(m, L1, names, t, scale);
      assert P[0] == MoonPass(m, L1, names, 0, t, scale);
      var i := 0;
      while i < |planets|
        invariant 0 <= i <= |planets|
        invariant bodyLookup == P[i]
        invariant forall j :: 0 <= j < i ==> planets[j].position == W[j].GetOr(old(planets[j].position))
        invariant forall j :: i <= j < |planets| ==> planets[j].position == old(planets[j].position)
      {
        MoonStepAt(m, planets, L1, P, W, i, t, scale);
        i := i + 1;
      }
    }

    /** Iteration i of the second loop, stated against the pass over the first i names. */
    method MoonStepAt(m: Functions, planets: seq<Planet>, ghost L1: map<string, Body>,
                      ghost P: seq<map<string, Body>>, ghost W: seq<Option<Vector>>, i: nat, t: real, scale: real)
      requires OrbitsDefined(m, L1) && i < |planets|
      requires MoonTrace(m, L1, Names(planets), t, scale, P, W) && bodyLookup == P[i]
      modifies this`bodyLookup, planets[i]
      ensures bodyLookup == P[i + 1]
      ensures planets[i].position == W[i].GetOr(old(planets[i].position))
    {
      assert P[i] == MoonPass(m, L1, Names(planets), i, t, scale);
      assert P[i + 1] == MoonPass(m, L1, Names(planets), i + 1, t, scale);
      assert W[i] == MoonWriteAt(m, L1, Names(planets), i, t, scale);
      assert Names(planets)[i] == planets[i].name;
      UpdateMoon(m, planets[i], t, scale);
    }

    /** One iteration of the second loop, for one planet object. */
    method UpdateMoon(m: Functions, planet: Planet, t: real, scale: real)
      requires OrbitsDefined(m, bodyLookup)
      modifies this`bodyLookup, planet`position
      ensures bodyLookup == MoonStep(m, old(bodyLookup), planet.name, t, scale)
      ensures planet.position == MoonWrite(m, old(bodyLookup), planet.name, t, scale).GetOr(old(planet.position))
    {
      var name := planet.name;
      if name in bodyLookup && bodyLookup[name].parentName.Named? && bodyLookup[name].parentName.name in bodyLookup {
        var body := bodyLookup[name];
        var parentBody := bodyLookup[body.parentName.name];
        var newPos := PositionAround(m, body.orbit, t, parentBody.position, scale);
        bodyLookup := bodyLookup[name := Advance(body, newPos)];
        planet.position := newPos;
      }
    }
  }
}
