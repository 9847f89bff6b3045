/**
 * Softened point-mass gravity, drag, the glide cushion and integration
 * (src/simulation/physics.js).
 */
module Physics {
  import opened Options
  import opened Elementary
  import opened Vectors
  import opened Universe
  import opened ShipControl

  // ---------------------------------------------------------------
  // Gravity
  // ---------------------------------------------------------------

  /**
   * A gravitating body as `computeBodyGravity` reads it: a position, a
   * radius that may be missing (the sun has none) and GM.
   */
  datatype Mass = Mass(position: Vector, radius: Option<real>, GM: real)

  /** The softening radius used when a body has no radius. */
  const DefaultSofteningRadius: real := 500.0

  /** `body.radius ?? 500` */
  function SofteningRadius(b: Mass): (r: real)
    ensures b.radius.Some? ==> r == b.radius.value
    ensures b.radius.None? ==> r == DefaultSofteningRadius
  {
    b.radius.GetOr(DefaultSofteningRadius)
  }

  /** `Math.pow(softeningRadius·0.25, 2)`, never negative. */
  function Softening(b: Mass): (s: real)
    ensures s >= 0.0
  {
    var k := SofteningRadius(b) * 0.25;
    k * k
  }

  /** A body of radius R is softened by R²/16; one without a radius by 125² = 15625. */
  lemma SofteningValues(p: Vector, radius: real, gm: real)
    ensures Softening(Mass(p, Some(radius), gm)) == radius * radius / 16.0
    ensures Softening(Mass(p, None, gm)) == 15625.0
  {
  }

  /** `Vec3.sub(body.position, shipPos)`, pointing from the ship to the body. */
  function Offset(b: Mass, shipPos: Vector): Vector {
    Difference(b.position, shipPos)
  }

  /** The denominator r² + softening is not zero (IEEE division by zero is not modelled). */
  predicate GravityDefined(m: Functions, shipPos: Vector, b: Mass) {
    var r := Length(m, Offset(b, shipPos));
    r * r + Softening(b) != 0.0
  }

  /** A positive softening makes the contribution defined at every ship position. */
  lemma SoftenedIsDefined(m: Functions, shipPos: Vector, b: Mass)
    requires SqrtLaw(m) && Softening(b) > 0.0
    ensures GravityDefined(m, shipPos, b)
  {
    LengthLaw(m, Offset(b, shipPos));
    LenSqNonNegative(Offset(b, shipPos));
  }

  /**
   * `computeBodyGravity(shipPos, body)`: GM / (r² + softening) along the
   * normalised offset towards the body.
   */
  function BodyGravity(m: Functions, shipPos: Vector, b: Mass): Vector
    requires GravityDefined(m, shipPos, b)
  {
    var d := Offset(b, shipPos);
    var r := Length(m, d);
    var gMag := b.GM / (r * r + Softening(b));
    Scale(Normalized(m, d), gMag)
  }

  /** The pull's magnitude GM / (r² + softening), which is non-negative for GM ≥ 0. */
  function PullMagnitude(m: Functions, shipPos: Vector, b: Mass): (g: real)
    requires SqrtLaw(m) && GravityDefined(m, shipPos, b)
    ensures b.GM >= 0.0 ==> g >= 0.0
    ensures Softening(b) > 0.0 && b.GM >= 0.0 ==> g <= b.GM / Softening(b)
  {
    var r := Length(m, Offset(b, shipPos));
    LengthLaw(m, Offset(b, shipPos));
    LenSqNonNegative(Offset(b, shipPos));
    var den := r * r + Softening(b);
    assert den > 0.0;
    if Softening(b) > 0.0 && b.GM >= 0.0 then
      QuotientAtMost(b.GM, Softening(b), den);
      b.GM / den
    else
      b.GM / den
  }

  /** For x ≥ 0 and 0 < s ≤ d, x/d ≤ x/s. */
  lemma QuotientAtMost(x: real, s: real, d: real)
    requires x >= 0.0 && 0.0 < s <= d
    ensures x / d <= x / s
  {
    var a, b := x / d, x / s;
    assert a * d == x && b * s == x;
    assert b * d - x == b * (d - s);
    ProductNonNegative(b, d - s);
    assert a * d <= b * d;
  }

  /**
   * One body's contribution is at most GM / softening in length, whenever
   * the softening is positive and GM ≥ 0.
   */
  lemma BodyGravityBounded(m: Functions, shipPos: Vector, b: Mass)
    requires SqrtLaw(m)
    requires Softening(b) > 0.0 && b.GM >= 0.0
    ensures GravityDefined(m, shipPos, b)
    ensures Length(m, BodyGravity(m, shipPos, b)) <= b.GM / Softening(b)
  {
    SoftenedIsDefined(m, shipPos, b);
    var d := Offset(b, shipPos);
    var n := Normalized(m, d);
    var g := PullMagnitude(m, shipPos, b);
    assert BodyGravity(m, shipPos, b) == Scale(n, g);
    LengthScale(m, n, g);
    NormalizedAtMostUnit(m, d);
    var l := Length(m, n);
    assert g >= 0.0 && g <= b.GM / Softening(b);
    assert Length(m, BodyGravity(m, shipPos, b)) == g * l;
    ProductNonNegative(g, 1.0 - l);
    assert g * l <= g;
  }

  /**
   * A ship at the body's centre feels no pull from it: `norm` leaves the
   * zero offset alone and the contribution is the zero vector.
   */
  lemma BodyGravityAtCentre(m: Functions, b: Mass)
    requires SqrtLaw(m)
    requires GravityDefined(m, b.position, b)
    ensures BodyGravity(m, b.position, b) == Zero
  {
    assert Offset(b, b.position) == Zero;
    NormalizedZero(m);
  }

  /** The pull of a body with GM ≥ 0 never points away from it. */
  lemma BodyGravityAttracts(m: Functions, shipPos: Vector, b: Mass)
    requires SqrtLaw(m)
    requires GravityDefined(m, shipPos, b) && b.GM >= 0.0
    ensures Dot(BodyGravity(m, shipPos, b), Offset(b, shipPos)) >= 0.0
  {
    var d := Offset(b, shipPos);
    var n := Normalized(m, d);
    var g := PullMagnitude(m, shipPos, b);
    assert BodyGravity(m, shipPos, b) == Scale(n, g);
    DotScale(n, g, d);
    LengthLaw(m, d);
    if Length(m, d) > VecEpsilon {
      NormalizedIsUnit(m, d);
    } else {
      LenSqNonNegative(d);
    }
    assert Dot(n, d) >= 0.0;
    ProductNonNegative(g, Dot(n, d));
  }

  /** Every body of the list has a defined contribution. */
  ghost predicate AllDefined(m: Functions, shipPos: Vector, bodies: seq<Mass>) {
    forall b :: b in bodies ==> GravityDefined(m, shipPos, b)
  }

  /** The contributions of the bodies, summed in list order. */
  function GravitySum(m: Functions, shipPos: Vector, bodies: seq<Mass>): Vector
    requires AllDefined(m, shipPos, bodies)
    decreases |bodies|
  {
    if |bodies| == 0 then Zero
    else
      var n := |bodies| - 1;
      Sum(GravitySum(m, shipPos, bodies[..n]), BodyGravity(m, shipPos, bodies[n]))
  }

  /** `sun && sun.GM`: the sun is present and its GM is non-zero. */
  predicate SunPulls(sun: Option<Mass>) {
    sun.Some? && sun.value.GM != 0.0
  }

  /** The total `computeTotalGravity` returns: every planet, then the sun when it pulls. */
  function TotalGravity(m: Functions, shipPos: Vector, bodies: seq<Mass>, sun: Option<Mass>): Vector
    requires AllDefined(m, shipPos, bodies)
    requires SunPulls(sun) ==> GravityDefined(m, shipPos, sun.value)
  {
    var planets := GravitySum(m, shipPos, bodies);
    if SunPulls(sun) then Sum(planets, BodyGravity(m, shipPos, sun.value)) else planets
  }

  /** Every element left after removing index j was in the list. */
  lemma RemovedElements<T>(s: seq<T>, j: nat)
    requires j < |s|
    ensures forall x :: x in s[..j] + s[j + 1..] ==> x in s
  {
    forall x | x in s[..j] + s[j + 1..]
      ensures x in s
    {
      var rest := s[..j] + s[j + 1..];
      var k :| 0 <= k < |rest| && rest[k] == x;
      if k < j {
        assert s[k] == x;
      } else {
        assert s[k + 1] == x;
      }
    }
  }

  /** Definedness carries over to any list whose bodies come from a defined one. */
  lemma AllDefinedSubset(m: Functions, shipPos: Vector, whole: seq<Mass>, part: seq<Mass>)
    requires AllDefined(m, shipPos, whole)
    requires forall x :: x in part ==> x in whole
    ensures AllDefined(m, shipPos, part)
  {
  }

  lemma SumSwap(a: Vector, b: Vector, c: Vector)
    ensures Sum(Sum(a, b), c) == Sum(Sum(a, c), b)
  {
  }

  /** Taking one body out of the list and adding its contribution last gives the same sum. */
  lemma {:induction false} GravitySumRemove(m: Functions, shipPos: Vector, bodies: seq<Mass>, j: nat)
    requires AllDefined(m, shipPos, bodies) && j < |bodies|
    ensures AllDefined(m, shipPos, bodies[..j] + bodies[j + 1..])
    ensures GravitySum(m, shipPos, bodies)
         == Sum(GravitySum(m, shipPos, bodies[..j] + bodies[j + 1..]), BodyGravity(m, shipPos, bodies[j]))
    decreases |bodies|
  {
    var n := |bodies| - 1;
    var rest := bodies[..j] + bodies[j + 1..];
    RemovedElements(bodies, j);
    AllDefinedSubset(m, shipPos, bodies, rest);
    if j == n {
      assert rest == bodies[..n];
    } else {
      var init := bodies[..n];
      AllDefinedSubset(m, shipPos, bodies, init);
      GravitySumRemove(m, shipPos, init, j);
      var initRest := init[..j] + init[j + 1..];
      assert rest == initRest + [bodies[n]];
      assert rest[..|rest| - 1] == initRest;
      assert init[j] == bodies[j];
      SumSwap(GravitySum(m, shipPos, initRest), BodyGravity(m, shipPos, bodies[j]), BodyGravity(m, shipPos, bodies[n]));
    }
  }

  /** The sum does not depend on the order of the bodies. */
  lemma {:induction false} GravitySumPermutation(m: Functions, shipPos: Vector, a: seq<Mass>, b: seq<Mass>)
    requires multiset(a) == multiset(b)
    requires AllDefined(m, shipPos, a)
    ensures AllDefined(m, shipPos, b)
    ensures GravitySum(m, shipPos, a) == GravitySum(m, shipPos, b)
    decreases |a|
  {
    assert forall c :: c in b ==> c in a by {
      forall c | c in b
        ensures c in a
      {
        assert c in multiset(b);
      }
    }
    if |a| == 0 {
      assert |b| == |multiset(b)| == 0;
    } else {
      var n := |a| - 1;
      var last := a[n];
      assert a == a[..n] + [last];
      assert last in multiset(b);
      var j :| 0 <= j < |b| && b[j] == last;
      GravitySumRemove(m, shipPos, b, j);
      var rest := b[..j] + b[j + 1..];
      MultisetRemove(a, b, j);
      assert forall c :: c in a[..n] ==> c in a;
      GravitySumPermutation(m, shipPos, a[..n], rest);
    }
  }

  /** Removing the same element from two permutations of each other leaves permutations. */
  lemma MultisetRemove<T>(a: seq<T>, b: seq<T>, j: nat)
    requires multiset(a) == multiset(b)
    requires 0 < |a| && j < |b| && b[j] == a[|a| - 1]
    ensures multiset(a[..|a| - 1]) == multiset(b[..j] + b[j + 1..])
  {
    var n := |a| - 1;
    assert a == a[..n] + [a[n]];
    assert multiset(a) == multiset(a[..n]) + multiset{a[n]};
    assert b == b[..j] + [b[j]] + b[j + 1..];
    assert multiset(b) == multiset(b[..j]) + multiset{b[j]} + multiset(b[j + 1..]);
    var rest := b[..j] + b[j + 1..];
    assert multiset(rest) == multiset(b[..j]) + multiset(b[j + 1..]);
    assert multiset(a[..n]) + multiset{a[n]} == multiset(rest) + multiset{a[n]};
    assert forall x :: multiset(a[..n])[x] == multiset(rest)[x] by {
      forall x
        ensures multiset(a[..n])[x] == multiset(rest)[x]
      {
        assert (multiset(a[..n]) + multiset{a[n]})[x] == (multiset(rest) + multiset{a[n]})[x];
      }
    }
  }

  /** `computeTotalGravity` gives the same result for any reordering of the planets. */
  lemma TotalGravityOrderIndependent(m: Functions, shipPos: Vector, a: seq<Mass>, b: seq<Mass>, sun: Option<Mass>)
    requires multiset(a) == multiset(b)
    requires AllDefined(m, shipPos, a)
    requires SunPulls(sun) ==> GravityDefined(m, shipPos, sun.value)
    ensures AllDefined(m, shipPos, b)
    ensures TotalGravity(m, shipPos, a, sun) == TotalGravity(m, shipPos, b, sun)
  {
    GravitySumPermutation(m, shipPos, a, b);
  }

  /** A planet as a gravitating body; a planet always has a radius. */
  function MassOf(p: Planet): Mass
    reads p
  {
    Mass(p.position, Some(p.radius), p.GM)
  }

  function Masses(planets: seq<Planet>): (ms: seq<Mass>)
    reads planets
    ensures |ms| == |planets|
    ensures forall i :: 0 <= i < |planets| ==> ms[i] == MassOf(planets[i])
  {
    seq(|planets|, i reads planets requires 0 <= i < |planets| => MassOf(planets[i]))
  }

  /**
   * `computeTotalGravity(shipPos, planets, sun)`: accumulates every
   * planet's contribution in list order, then the sun's when it pulls.
   */
  method ComputeTotalGravity(m: Functions, shipPos: Vector, planets: seq<Planet>, sun: Option<Mass>)
    returns (total: Vector)
    requires AllDefined(m, shipPos, Masses(planets))
    requires SunPulls(sun) ==> GravityDefined(m, shipPos, sun.value)
    ensures total == TotalGravity(m, shipPos, Masses(planets), sun)
  {
    ghost var ms := Masses(planets);
    total := Zero;
    var i := 0;
    while i < |planets|
      invariant 0 <= i <= |planets|
      invariant AllDefined(m, shipPos, ms[..i])
      invariant total == GravitySum(m, shipPos, ms[..i])
    {
      var g := BodyGravity(m, shipPos, MassOf(planets[i]));
      assert ms[..i + 1][..i] == ms[..i];
      assert forall c :: c in ms[..i + 1] ==> c in ms;
      total := Sum(total, g);
      i := i + 1;
    }
    assert ms[..i] == ms;
    if sun.Some? && sun.value.GM != 0.0 {
      var g := BodyGravity(m, shipPos, sun.value);
      total := Sum(total, g);
    }
  }

  // ---------------------------------------------------------------
  // Drag
  // ---------------------------------------------------------------

  /** `Math.max(0, 1 - drag·dt)` with drag = dragStrength·tAtmo. */
  function Damping(dragStrength: real, tAtmo: real, dt: real): (f: real)
    ensures f >= 0.0
    ensures dragStrength * tAtmo * dt >= 0.0 ==> f <= 1.0
  {
    Max(0.0, 1.0 - dragStrength * tAtmo * dt)
  }

  /**
   * The velocity after `applyDrag`: unchanged outside the atmosphere;
   * otherwise scaled by a non-negative factor, so never reversed, and never
   * longer when drag·dt ≥ 0.
   */
  function Dragged(v: Vector, dragStrength: real, tAtmo: real, dt: real): (w: Vector)
    ensures tAtmo <= 0.0 ==> w == v
    ensures Dot(w, v) >= 0.0
    ensures dragStrength * tAtmo * dt >= 0.0 ==> LenSq(w) <= LenSq(v)
  {
    if tAtmo <= 0.0 then
      LenSqNonNegative(v);
      v
    else
      var f := Damping(dragStrength, tAtmo, dt);
      DampedVector(v, f);
      Scale(v, f)
  }

  lemma DampedVector(v: Vector, f: real)
    requires f >= 0.0
    ensures Dot(Scale(v, f), v) >= 0.0
    ensures f <= 1.0 ==> LenSq(Scale(v, f)) <= LenSq(v)
  {
    LenSqNonNegative(v);
    DotScale(v, f, v);
    ProductNonNegative(f, LenSq(v));
    LenSqScale(v, f);
    if f <= 1.0 {
      var l := LenSq(v);
      assert f * f <= 1.0 by {
        assert f * f <= f * 1.0;
      }
      assert l - f * f * l == (1.0 - f * f) * l;
      ProductNonNegative(1.0 - f * f, l);
    }
  }

  /** `applyDrag(velocity, tAtmo, planet, dt)` on the velocity object itself. */
  method ApplyDrag(velocity: Vec3, tAtmo: real, planet: Planet, dt: real)
    modifies velocity
    ensures velocity.Value() == Dragged(old(velocity.Value()), planet.dragStrength, tAtmo, dt)
  {
    if tAtmo <= 0.0 {
      return;
    }
    var damp := Damping(planet.dragStrength, tAtmo, dt);
    velocity.Mul(damp);
  }

  // ---------------------------------------------------------------
  // Glide cushion
  // ---------------------------------------------------------------

  /** Adds back the inward radial component along u, if there is one. */
  function CancelInward(v: Vector, u: Vector): (w: Vector)
    ensures LenSq(u) == 1.0 ==> Dot(w, u) >= 0.0
    ensures LenSq(u) == 1.0 ==> Difference(w, Scale(u, Dot(w, u))) == Difference(v, Scale(u, Dot(v, u)))
  {
    var vRad := Dot(v, u);
    if vRad < 0.0 then
      var w := Sum(v, Scale(u, -vRad));
      DotSum(v, Scale(u, -vRad), u);
      DotScale(u, -vRad, u);
      w
    else v
  }

  /** The outward direction `d.clone().norm()` from the planet centre to the ship. */
  function Outward(m: Functions, shipPos: Vector, planetPos: Vector): Vector {
    Normalized(m, Difference(shipPos, planetPos))
  }

  /** Whether the ship is below the cushion height above the surface. */
  predicate BelowCushion(m: Functions, shipPos: Vector, planetPos: Vector, radius: real, cushionHeight: real) {
    Length(m, Difference(shipPos, planetPos)) - radius < cushionHeight
  }

  /** Where the cushion puts the ship: radius + cushionHeight out along the outward direction. */
  function CushionPosition(m: Functions, shipPos: Vector, planetPos: Vector, radius: real, cushionHeight: real): Vector {
    Sum(planetPos, Scale(Outward(m, shipPos, planetPos), radius + cushionHeight))
  }

  /** The velocity after the cushion: inward radial motion cancelled, then damped by 0.998. */
  function CushionVelocity(m: Functions, vel: Vector, shipPos: Vector, planetPos: Vector): Vector {
    Scale(CancelInward(vel, Outward(m, shipPos, planetPos)), 0.998)
  }

  /**
   * Away from the exact centre (r > 1e-9) the ship ends exactly
   * radius + cushionHeight from the centre, and its radial velocity is no
   * longer inward.
   */
  lemma CushionOutcome(m: Functions, shipPos: Vector, vel: Vector, planetPos: Vector, radius: real, cushionHeight: real)
    requires SqrtLaw(m)
    requires Length(m, Difference(shipPos, planetPos)) > VecEpsilon
    requires radius + cushionHeight >= 0.0
    ensures Length(m, Difference(CushionPosition(m, shipPos, planetPos, radius, cushionHeight), planetPos))
         == radius + cushionHeight
    ensures Dot(CushionVelocity(m, vel, shipPos, planetPos), Outward(m, shipPos, planetPos)) >= 0.0
  {
    var u := Outward(m, shipPos, planetPos);
    var h := radius + cushionHeight;
    NormalizedIsUnit(m, Difference(shipPos, planetPos));
    var p := CushionPosition(m, shipPos, planetPos, radius, cushionHeight);
    assert Difference(p, planetPos) == Scale(u, h);
    LengthScale(m, u, h);
    var w := CancelInward(vel, u);
    DotScale(w, 0.998, u);
    ProductNonNegative(0.998, Dot(w, u));
  }

  /**
   * At the exact centre the outward direction is the zero vector, so the
   * cushion leaves the ship at the centre, deep below the surface.
   */
  lemma CushionAtCentre(m: Functions, planetPos: Vector, radius: real, cushionHeight: real)
    requires SqrtLaw(m)
    ensures Outward(m, planetPos, planetPos) == Zero
    ensures CushionPosition(m, planetPos, planetPos, radius, cushionHeight) == planetPos
  {
    assert Difference(planetPos, planetPos) == Zero;
    NormalizedZero(m);
    assert Outward(m, planetPos, planetPos) == Zero;
    assert Scale(Zero, radius + cushionHeight) == Zero;
  }

  /** `applyGlideCushion(ship, planet, cushionHeight)` */
  method ApplyGlideCushion(m: Functions, ship: Ship, planet: Planet, cushionHeight: real)
    modifies ship`pos, ship`vel
    ensures BelowCushion(m, old(ship.pos), planet.position, planet.radius, cushionHeight) ==>
              && ship.pos == CushionPosition(m, old(ship.pos), planet.position, planet.radius, cushionHeight)
              && ship.vel == CushionVelocity(m, old(ship.vel), old(ship.pos), planet.position)
    ensures !BelowCushion(m, old(ship.pos), planet.position, planet.radius, cushionHeight) ==>
              ship.pos == old(ship.pos) && ship.vel == old(ship.vel)
  {
    var d := Difference(ship.pos, planet.position);
    var r := Length(m, d);
    var altitude := r - planet.radius;
    if altitude < cushionHeight {
      var dirOut := Normalized(m, d);
      ship.pos := Sum(planet.position, Scale(dirOut, planet.radius + cushionHeight));
      var vRad := Dot(ship.vel, dirOut);
      if vRad < 0.0 {
        ship.vel := Sum(ship.vel, Scale(dirOut, -vRad));
      }
      ship.vel := Scale(ship.vel, 0.998);
    }
  }

  // ---------------------------------------------------------------
  // Integration
  // ---------------------------------------------------------------

  /** The speed cap: with maxSpeed > 0, a faster velocity is scaled down to exactly maxSpeed. */
  function CappedVelocity(m: Functions, v: Vector, maxSpeed: real): (w: Vector)
    ensures maxSpeed <= 0.0 || Length(m, v) <= maxSpeed ==> w == v
    ensures SqrtLaw(m) && maxSpeed > 0.0 ==> Length(m, w) <= maxSpeed
  {
    var speed := Length(m, v);
    if maxSpeed > 0.0 && speed > maxSpeed then
      ScaledToSpeed(m, v, maxSpeed);
      Scale(v, maxSpeed / speed)
    else v
  }

  lemma ScaledToSpeed(m: Functions, v: Vector, maxSpeed: real)
    requires 0.0 < maxSpeed < Length(m, v)
    ensures SqrtLaw(m) ==> Length(m, Scale(v, maxSpeed / Length(m, v))) == maxSpeed
  {
    if SqrtLaw(m) {
      var k := maxSpeed / Length(m, v);
      LengthScale(m, v, k);
      assert k > 0.0 && k * Length(m, v) == maxSpeed;
    }
  }

  /** `integrate(ship, accel, dt, maxSpeed)` */
  method Integrate(m: Functions, ship: Ship, accel: Vector, dt: real, maxSpeed: real)
    modifies ship`vel, ship`pos
    ensures ship.vel == CappedVelocity(m, Sum(old(ship.vel), Scale(accel, dt)), maxSpeed)
    ensures ship.pos == Sum(old(ship.pos), Scale(ship.vel, dt))
    ensures SqrtLaw(m) && maxSpeed > 0.0 ==> Length(m, ship.vel) <= maxSpeed
  {
    ship.vel := Sum(ship.vel, Scale(accel, dt));
    if maxSpeed > 0.0 {
      var speed := Length(m, ship.vel);
      if speed > maxSpeed {
        ship.vel := Scale(ship.vel, maxSpeed / speed);
      }
    }
    ship.pos := Sum(ship.pos, Scale(ship.vel, dt));
  }
}
