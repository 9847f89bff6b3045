/**
 * Planets and the nearest-planet locator (src/world/universe.js).
 */
module Universe {
  import opened Options
  import opened Elementary
  import opened Vectors

  datatype PlanetColors = PlanetColors(surface: string, sky: string, halo: string)

  /** The defaults `createPlanet` falls back on. */
  datatype PlanetDefaults = PlanetDefaults(
    radius: real,
    atmosphereRadius: real,
    GM: real,
    colors: PlanetColors,
    dragStrength: real)

  datatype ColorOptions = ColorOptions(surface: Option<string>, sky: Option<string>, halo: Option<string>)
  datatype PhysicsOptions = PhysicsOptions(dragStrength: Option<real>)

  /** The options object; `None` is a missing (null or undefined) property. */
  datatype PlanetOptions = PlanetOptions(
    position: Option<Vector>,
    radius: Option<real>,
    atmosphereRadius: Option<real>,
    GM: Option<real>,
    colors: Option<ColorOptions>,
    physics: Option<PhysicsOptions>)

  /** The record `createPlanet` returns. */
  datatype PlanetFields = PlanetFields(
    position: Vector,
    radius: real,
    atmosphereRadius: real,
    GM: real,
    colors: PlanetColors,
    dragStrength: real)

  const DefaultPosition: Vector := Vector(0.0, 0.0, 20000.0)

  const NoOptions: PlanetOptions := PlanetOptions(None, None, None, None, None, None)

  /** `options.colors?.f` is absent when `colors` itself is missing, as if every field were. */
  const NoColors: ColorOptions := ColorOptions(None, None, None)
  const NoPhysics: PhysicsOptions := PhysicsOptions(None)

  /**
   * `createPlanet(options, defaults)`. Every field uses `??`, so a present
   * 0 is kept; only `position` uses `||`, which for an object is the same
   * as presence.
   */
  function CreatePlanet(o: PlanetOptions, d: PlanetDefaults): PlanetFields {
    var c := o.colors.GetOr(NoColors);
    PlanetFields(
      o.position.GetOr(DefaultPosition),
      o.radius.GetOr(d.radius),
      o.atmosphereRadius.GetOr(d.atmosphereRadius),
      o.GM.GetOr(d.GM),
      PlanetColors(
        c.surface.GetOr(d.colors.surface),
        c.sky.GetOr(d.colors.sky),
        c.halo.GetOr(d.colors.halo)),
      o.physics.GetOr(NoPhysics).dragStrength.GetOr(d.dragStrength))
  }

  /** With no options at all, every field is the default and the position is (0, 0, 20000). */
  lemma CreatePlanetDefaults(d: PlanetDefaults)
    ensures CreatePlanet(NoOptions, d)
         == PlanetFields(DefaultPosition, d.radius, d.atmosphereRadius, d.GM, d.colors, d.dragStrength)
  {
  }

  /** A present option always wins, including a present 0 or empty string. */
  lemma CreatePlanetOverrides(p: Vector, radius: real, atmo: real, gm: real,
                              c: PlanetColors, drag: real, d: PlanetDefaults)
    ensures CreatePlanet(PlanetOptions(Some(p), Some(radius), Some(atmo), Some(gm),
                           Some(ColorOptions(Some(c.surface), Some(c.sky), Some(c.halo))),
                           Some(PhysicsOptions(Some(drag)))), d)
         == PlanetFields(p, radius, atmo, gm, c, drag)
  {
  }

  /** Each field independently: a present option is taken, a missing one defaults. */
  lemma CreatePlanetFieldwise(o: PlanetOptions, d: PlanetDefaults)
    ensures CreatePlanet(o, d).position == (if o.position.Some? then o.position.value else DefaultPosition)
    ensures CreatePlanet(o, d).radius == (if o.radius.Some? then o.radius.value else d.radius)
    ensures CreatePlanet(o, d).atmosphereRadius
         == (if o.atmosphereRadius.Some? then o.atmosphereRadius.value else d.atmosphereRadius)
    ensures CreatePlanet(o, d).GM == (if o.GM.Some? then o.GM.value else d.GM)
    ensures CreatePlanet(o, d).colors.surface
         == (if o.colors.Some? && o.colors.value.surface.Some? then o.colors.value.surface.value else d.colors.surface)
    ensures CreatePlanet(o, d).colors.sky
         == (if o.colors.Some? && o.colors.value.sky.Some? then o.colors.value.sky.value else d.colors.sky)
    ensures CreatePlanet(o, d).colors.halo
         == (if o.colors.Some? && o.colors.value.halo.Some? then o.colors.value.halo.value else d.colors.halo)
    ensures CreatePlanet(o, d).dragStrength
         == (if o.physics.Some? && o.physics.value.dragStrength.Some? then o.physics.value.dragStrength.value
             else d.dragStrength)
  {
  }

  /**
   * A planet object. Only `position` changes after creation (the orbit
   * update writes it).
   */
  class Planet {
    const name: string
    var position: Vector
    const radius: real
    const atmosphereRadius: real
    const GM: real
    const colors: PlanetColors
    const dragStrength: real

    constructor (name0: string, f: PlanetFields)
      ensures name == name0 && Fields() == f
    {
      name := name0;
      position := f.position;
      radius := f.radius;
      atmosphereRadius := f.atmosphereRadius;
      GM := f.GM;
      colors := f.colors;
      dragStrength := f.dragStrength;
    }

    function Fields(): PlanetFields
      reads this
    {
      PlanetFields(position, radius, atmosphereRadius, GM, colors, dragStrength)
    }
  }

  /**
   * `tAtmo`, the clamped atmosphere factor at centre distance r. The
   * division needs a non-empty atmosphere shell (IEEE division by zero is
   * not modelled).
   */
  function AtmosphereFactor(radius: real, atmosphereRadius: real, r: real): (t: real)
    requires atmosphereRadius != radius
    ensures 0.0 <= t <= 1.0
  {
    Clamp((atmosphereRadius - r) / (atmosphereRadius - radius), 0.0, 1.0)
  }

  /** Full atmosphere at or below the surface, none at or beyond its edge. */
  lemma AtmosphereFactorEnds(radius: real, atmosphereRadius: real, r: real)
    requires radius < atmosphereRadius
    ensures r <= radius ==> AtmosphereFactor(radius, atmosphereRadius, r) == 1.0
    ensures atmosphereRadius <= r ==> AtmosphereFactor(radius, atmosphereRadius, r) == 0.0
    ensures radius <= r <= atmosphereRadius ==>
              AtmosphereFactor(radius, atmosphereRadius, r)
              == (atmosphereRadius - r) / (atmosphereRadius - radius)
  {
    var w := atmosphereRadius - radius;
    var x := atmosphereRadius - r;
    QuotientDifference(x, w, w);
    assert w / w == 1.0;
    if r <= radius {
      QuotientNonNegative(x - w, w);
    }
    if atmosphereRadius <= r {
      QuotientNonNegative(-x, w);
      QuotientDifference(0.0, x, w);
    }
    if radius <= r <= atmosphereRadius {
      QuotientNonNegative(x, w);
      QuotientNonNegative(w - x, w);
      QuotientDifference(w, x, w);
    }
  }

  /** The factor never grows with distance. */
  lemma AtmosphereFactorMonotone(radius: real, atmosphereRadius: real, r1: real, r2: real)
    requires radius < atmosphereRadius
    requires r1 <= r2
    ensures AtmosphereFactor(radius, atmosphereRadius, r2) <= AtmosphereFactor(radius, atmosphereRadius, r1)
  {
    var w := atmosphereRadius - radius;
    QuotientDifference(atmosphereRadius - r1, atmosphereRadius - r2, w);
    QuotientNonNegative(r2 - r1, w);
  }

  /** The distance from the ship to a planet's centre, `Vec3.sub(planet.position, shipPos).len()`. */
  function CentreDistance(m: Functions, p: Planet, shipPos: Vector): real
    reads p
  {
    Length(m, Difference(p.position, shipPos))
  }

  /** The record `nearestPlanetInfo` returns. */
  datatype NearestInfo = NearestInfo(planet: Planet, d: Vector, r: real, altitude: real, tAtmo: real)

  /** What `nearestPlanetInfo` requires so that `tAtmo` is a number. */
  ghost predicate ShellsNonEmpty(planets: seq<Planet>)
    reads set i | 0 <= i < |planets| :: planets[i]
  {
    forall i :: 0 <= i < |planets| ==> planets[i].atmosphereRadius != planets[i].radius
  }

  /**
   * `nearestPlanetInfo(shipPos, planets)`: null for no planets; otherwise
   * the first planet of smallest centre distance, its offset, distance,
   * unclamped altitude and atmosphere factor.
   */
  method NearestPlanetInfo(m: Functions, shipPos: Vector, planets: seq<Planet>)
    returns (info: Option<NearestInfo>)
    requires ShellsNonEmpty(planets)
    ensures info.None? <==> |planets| == 0
    ensures info.Some? ==>
      exists i :: 0 <= i < |planets| && info.value.planet == planets[i]
        && (forall j :: 0 <= j < |planets| ==>
              CentreDistance(m, planets[i], shipPos) <= CentreDistance(m, planets[j], shipPos))
        && (forall j :: 0 <= j < i ==>
              CentreDistance(m, planets[i], shipPos) < CentreDistance(m, planets[j], shipPos))
    ensures info.Some? ==>
      var n := info.value;
      && n.d == Difference(n.planet.position, shipPos)
      && n.r == CentreDistance(m, n.planet, shipPos)
      && n.altitude == n.r - n.planet.radius
      && n.tAtmo == AtmosphereFactor(n.planet.radius, n.planet.atmosphereRadius, n.r)
  {
    if |planets| == 0 {
      return None;
    }
    var best := 0;
    var minDist := CentreDistance(m, planets[0], shipPos);
    var k := 1;
    while k < |planets|
      invariant 1 <= k <= |planets|
      invariant 0 <= best < k
      invariant minDist == CentreDistance(m, planets[best], shipPos)
      invariant forall j :: 0 <= j < k ==> minDist <= CentreDistance(m, planets[j], shipPos)
      invariant forall j :: 0 <= j < best ==> minDist < CentreDistance(m, planets[j], shipPos)
    {
      var r := CentreDistance(m, planets[k], shipPos);
      if r < minDist {
        minDist := r;
        best := k;
      }
      k := k + 1;
    }
    var p := planets[best];
    var d := Difference(p.position, shipPos);
    info := Some(NearestInfo(p, d, minDist, minDist - p.radius,
                             AtmosphereFactor(p.radius, p.atmosphereRadius, minDist)));
  }
}
