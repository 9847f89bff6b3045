/**
 * Atmospheric effects of src/rendering/effects.js: the particle systems
 * (debris, rain, snow, sandstorm) that follow the camera, the lightning
 * flash state machine and the aurora clock.
 */
module Effects {
  import opened Options
  import opened Elementary
  import opened Vectors
  import opened Random

  // ---------------------------------------------------------------
  // Configuration
  // ---------------------------------------------------------------

  /** A missing property is `None`; a present object is always truthy. */
  datatype DebrisConfig = DebrisConfig(count: Option<int>, speed: Option<(real, real)>)
  datatype RainConfig = RainConfig(intensity: Option<real>, streakLength: Option<real>)
  datatype SnowConfig = SnowConfig(count: Option<int>)
  datatype SandstormConfig = SandstormConfig(intensity: Option<real>, windSpeed: Option<real>, windAngle: Option<real>)
  datatype LightningConfig = LightningConfig(frequency: Option<real>, flashDuration: Option<real>)
  datatype AuroraConfig = AuroraConfig(bandCount: Option<int>, colors: Option<seq<string>>, waveSpeed: Option<real>)

  datatype EffectsConfig = EffectsConfig(
    debris: Option<DebrisConfig>,
    rain: Option<RainConfig>,
    snow: Option<SnowConfig>,
    sandstorm: Option<SandstormConfig>,
    lightning: Option<LightningConfig>,
    aurora: Option<AuroraConfig>)

  /** The configuration `{}`: no effect enabled. */
  const NoEffects: EffectsConfig := EffectsConfig(None, None, None, None, None, None)

  /** How many times `for (let i = 0; i < n; i++)` runs. */
  function Loops(n: int): (r: nat)
    ensures n >= 0 ==> r == n
    ensures n < 0 ==> r == 0
  {
    if n < 0 then 0 else n
  }

  /** `cfg.count || 150` */
  function DebrisCount(cfg: DebrisConfig): int {
    OrInt(cfg.count, 150)
  }

  /** `Math.floor((cfg.intensity || 0.5) · 400)` */
  function RainCount(cfg: RainConfig): int {
    (OrReal(cfg.intensity, 0.5) * 400.0).Floor
  }

  /** `cfg.count || 200` */
  function SnowCount(cfg: SnowConfig): int {
    OrInt(cfg.count, 200)
  }

  /** `Math.floor((cfg.intensity || 0.5) · 300)` */
  function SandstormCount(cfg: SandstormConfig): int {
    (OrReal(cfg.intensity, 0.5) * 300.0).Floor
  }

  /** `cfg.bandCount || 5` */
  function BandCount(cfg: AuroraConfig): int {
    OrInt(cfg.bandCount, 5)
  }

  /** `cfg.colors?.length || 2`: a missing or empty palette counts as two colours. */
  function ColourCycle(cfg: AuroraConfig): (n: nat)
    ensures n > 0
    ensures cfg.colors.Some? && |cfg.colors.value| > 0 ==> n == |cfg.colors.value|
    ensures cfg.colors.None? || |cfg.colors.value| == 0 ==> n == 2
  {
    if cfg.colors.Some? && |cfg.colors.value| > 0 then |cfg.colors.value| else 2
  }

  /**
   * The counts of an empty sub-configuration: 150 debris, 200 drops,
   * 200 flakes, 150 grains and 5 bands; a zero count or intensity falls
   * back the same way.
   */
  lemma DefaultCounts(rainIntensity: Option<real>, sandIntensity: Option<real>, debris: Option<int>, snow: Option<int>,
                      bands: Option<int>)
    requires rainIntensity.None? || rainIntensity == Some(0.0)
    requires sandIntensity.None? || sandIntensity == Some(0.0)
    requires debris.None? || debris == Some(0)
    requires snow.None? || snow == Some(0)
    requires bands.None? || bands == Some(0)
    ensures DebrisCount(DebrisConfig(debris, None)) == 150
    ensures RainCount(RainConfig(rainIntensity, None)) == 200
    ensures SnowCount(SnowConfig(snow)) == 200
    ensures SandstormCount(SandstormConfig(sandIntensity, None, None)) == 150
    ensures BandCount(AuroraConfig(bands, None, None)) == 5
  {
    assert (0.5 * 400.0).Floor == 200;
    assert (0.5 * 300.0).Floor == 150;
  }

  /** An intensity of i ≥ 0 asks for ⌊400·i⌋ drops and ⌊300·i⌋ grains; a negative one for none. */
  lemma IntensityCounts(i: real)
    requires i != 0.0
    ensures i >= 0.0 ==> Loops(RainCount(RainConfig(Some(i), None))) == (i * 400.0).Floor
    ensures i < 0.0 ==> Loops(RainCount(RainConfig(Some(i), None))) == 0
    ensures i < 0.0 ==> Loops(SandstormCount(SandstormConfig(Some(i), None, None))) == 0
  {
    if i < 0.0 {
      assert i * 400.0 < 0.0 && i * 300.0 < 0.0;
    }
  }

  // ---------------------------------------------------------------
  // Particles and their creation
  // ---------------------------------------------------------------

  datatype Debris = Debris(pos: Vector, vel: Vector, size: real, alpha: real)
  datatype Drop = Drop(pos: Vector, speed: real, length: real, alpha: real)
  datatype Flake = Flake(pos: Vector, vel: Vector, size: real, sparklePhase: real, sparkleSpeed: real)
  datatype Grain = Grain(pos: Vector, speed: real, length: real, alpha: real)
  datatype Band = Band(offset: real, amplitude: real, frequency: real, colorIndex: int)

  /** Every coordinate of p lies in [−h, h). */
  predicate InBox(p: Vector, h: real) {
    -h <= p.x < h && -h <= p.y < h && -h <= p.z < h
  }

  /** Where `createDebrisParticle` puts a particle when its draws lie in [0, 1). */
  predicate DebrisFresh(p: Debris) {
    InBox(p.pos, 500.0) && 1.0 <= p.size < 2.5 && 0.3 <= p.alpha < 0.8
  }

  /** A drop as `createRainParticle` makes it: the configured streak, and for draws in [0, 1) its box and speed. */
  predicate DropFresh(cfg: RainConfig, p: Drop) {
    && p.length == OrReal(cfg.streakLength, 40.0)
    && -400.0 <= p.pos.x < 400.0 && 0.0 <= p.pos.y < 800.0 && -400.0 <= p.pos.z < 400.0
    && 800.0 <= p.speed < 1200.0
  }

  /** A flake as `createSnowParticle` makes it for draws in [0, 1): in its box, falling at 40 to 80. */
  predicate FlakeFresh(p: Flake) {
    InBox(p.pos, 600.0) && -80.0 <= p.vel.y < -40.0
  }

  /** A grain as `createSandstormParticle` makes it for draws in [0, 1). */
  predicate GrainFresh(p: Grain) {
    -500.0 <= p.pos.x < 500.0 && -200.0 <= p.pos.y < 200.0 && -500.0 <= p.pos.z < 500.0
  }

  /** Band i takes palette colour i mod the palette length, cycling through the palette. */
  predicate BandColour(cfg: AuroraConfig, i: nat, b: Band) {
    b.colorIndex == i % ColourCycle(cfg)
  }

  /** The amplitude and frequency ranges of a band for draws in [0, 1). */
  predicate BandFresh(b: Band) {
    0.1 <= b.amplitude < 0.3 && 1.0 <= b.frequency < 3.0
  }

  /** `createDebrisParticle(cfg)`, reading its eight draws from position k. */
  function NewDebris(cfg: DebrisConfig, draw: nat -> real, k: nat): (p: Debris)
    ensures UnitStream(draw) ==> DebrisFresh(p)
  {
    var speed := cfg.speed.GetOr((50.0, 150.0));
    Debris(
      Vector(RandRange(-500.0, 500.0, draw(k)), RandRange(-500.0, 500.0, draw(k + 1)), RandRange(-500.0, 500.0, draw(k + 2))),
      Vector(RandRange(-speed.1, speed.1, draw(k + 3)) * 0.3,
             RandRange(-speed.0, speed.0, draw(k + 4)) * 0.2,
             RandRange(-speed.1, speed.1, draw(k + 5)) * 0.3),
      RandRange(1.0, 2.5, draw(k + 6)),
      RandRange(0.3, 0.8, draw(k + 7)))
  }

  /** `createRainParticle(cfg)`, reading its five draws from position k. */
  function NewDrop(cfg: RainConfig, draw: nat -> real, k: nat): (p: Drop)
    ensures p.length == OrReal(cfg.streakLength, 40.0)
    ensures UnitStream(draw) ==> DropFresh(cfg, p)
  {
    Drop(
      Vector(RandRange(-400.0, 400.0, draw(k)), RandRange(0.0, 800.0, draw(k + 1)), RandRange(-400.0, 400.0, draw(k + 2))),
      RandRange(800.0, 1200.0, draw(k + 3)),
      OrReal(cfg.streakLength, 40.0),
      RandRange(0.2, 0.5, draw(k + 4)))
  }

  /** `createSnowParticle(cfg)`, reading its nine draws from position k. */
  function NewFlake(cfg: SnowConfig, draw: nat -> real, k: nat): (p: Flake)
    ensures UnitStream(draw) ==> FlakeFresh(p)
  {
    Flake(
      Vector(RandRange(-600.0, 600.0, draw(k)), RandRange(-600.0, 600.0, draw(k + 1)), RandRange(-600.0, 600.0, draw(k + 2))),
      Vector(RandRange(-20.0, 20.0, draw(k + 3)), RandRange(-80.0, -40.0, draw(k + 4)), RandRange(-20.0, 20.0, draw(k + 5))),
      RandRange(1.0, 3.0, draw(k + 6)),
      draw(k + 7) * Pi * 2.0,
      RandRange(2.0, 5.0, draw(k + 8)))
  }

  /** `createSandstormParticle(cfg)`, reading its six draws from position k. */
  function NewGrain(cfg: SandstormConfig, draw: nat -> real, k: nat): (p: Grain)
    ensures UnitStream(draw) ==> GrainFresh(p)
  {
    var windSpeed := OrReal(cfg.windSpeed, 200.0);
    Grain(
      Vector(RandRange(-500.0, 500.0, draw(k)), RandRange(-200.0, 200.0, draw(k + 1)), RandRange(-500.0, 500.0, draw(k + 2))),
      RandRange(windSpeed * 0.7, windSpeed * 1.3, draw(k + 3)),
      RandRange(15.0, 35.0, draw(k + 4)),
      RandRange(0.15, 0.4, draw(k + 5)))
  }

  /** Aurora band i, reading its three draws from position k. */
  function NewBand(i: nat, cfg: AuroraConfig, draw: nat -> real, k: nat): (b: Band)
    ensures BandColour(cfg, i, b)
    ensures UnitStream(draw) ==> BandFresh(b)
  {
    Band(draw(k) * Pi * 2.0, RandRange(0.1, 0.3, draw(k + 1)), RandRange(1.0, 3.0, draw(k + 2)), i % ColourCycle(cfg))
  }

  // ---------------------------------------------------------------
  // Wrapping around the camera
  // ---------------------------------------------------------------

  /** `Math.sign` */
  function Sign(x: real): real {
    if x > 0.0 then 1.0 else if x < 0.0 then -1.0 else 0.0
  }

  /** The jitter `randRange(−50, 50)` added when a particle is wrapped. */
  const Jitter: real := 50.0

  /**
   * `if (Math.abs(v − c) > wrapDist) v = c − sign(v − c)·wrapDist + randRange(−50, 50)`:
   * a coordinate that drifted too far reappears on the opposite side of the
   * camera, reading one draw only when it wraps.
   */
  function WrapJittered(v: real, c: real, wrapDist: real, draw: nat -> real, k: nat): (r: (real, nat))
    requires wrapDist >= Jitter
    ensures Abs(v - c) <= wrapDist ==> r == (v, k)
    ensures Abs(v - c) > wrapDist ==> r.1 == k + 1
    ensures UnitStream(draw) && Abs(v - c) > wrapDist && v > c ==>
              -wrapDist - Jitter <= r.0 - c < -wrapDist + Jitter
    ensures UnitStream(draw) && Abs(v - c) > wrapDist && v < c ==>
              wrapDist - Jitter <= r.0 - c < wrapDist + Jitter
    ensures UnitStream(draw) ==> Abs(r.0 - c) <= wrapDist + Jitter
  {
    var d := v - c;
    if Abs(d) > wrapDist then (c - Sign(d) * wrapDist + RandRange(-Jitter, Jitter, draw(k)), k + 1)
    else (v, k)
  }

  /** The sandstorm's wrap: the same rule without jitter, so a wrapped grain sits exactly wrapDist away. */
  function WrapExact(v: real, c: real, wrapDist: real): (r: real)
    requires wrapDist >= 0.0
    ensures Abs(v - c) <= wrapDist ==> r == v
    ensures Abs(v - c) > wrapDist && v > c ==> r == c - wrapDist
    ensures Abs(v - c) > wrapDist && v < c ==> r == c + wrapDist
  {
    var d := v - c;
    if Abs(d) > wrapDist then c - Sign(d) * wrapDist else v
  }

  // ---------------------------------------------------------------
  // One frame for one particle
  // ---------------------------------------------------------------

  const DebrisWrap: real := 500.0
  const RainWrap: real := 400.0
  const SnowWrap: real := 600.0
  const SandWrap: real := 500.0

  /** One debris particle in `updateDebris`: move, then wrap each axis around the camera. */
  function DebrisStep(p: Debris, dt: real, C: Vector, draw: nat -> real, k: nat): (r: (Debris, nat))
    ensures r.0.vel == p.vel && r.0.size == p.size && r.0.alpha == p.alpha
    ensures k <= r.1 <= k + 3
    ensures UnitStream(draw) ==> NearCamera(r.0.pos, C, DebrisWrap + Jitter)
  {
    var moved := Sum(p.pos, Scale(p.vel, dt));
    var (x, k1) := WrapJittered(moved.x, C.x, DebrisWrap, draw, k);
    var (y, k2) := WrapJittered(moved.y, C.y, DebrisWrap, draw, k1);
    var (z, k3) := WrapJittered(moved.z, C.z, DebrisWrap, draw, k2);
    (p.(pos := Vector(x, y, z)), k3)
  }

  /** Every axis of p is within h of the camera position. */
  predicate NearCamera(p: Vector, C: Vector, h: real) {
    Abs(p.x - C.x) <= h && Abs(p.y - C.y) <= h && Abs(p.z - C.z) <= h
  }

  /** How far a drop falls in one frame: `p.y − p.speed·dt`. */
  function Fallen(p: Drop, dt: real): real {
    p.pos.y - p.speed * dt
  }

  /**
   * One rain drop in `updateRain`: fall, wrap x and z around the camera,
   * and respawn a drop more than 400 below the camera at exactly 400 above
   * it, at a fresh random x and z.
   */
  function RainStep(p: Drop, dt: real, C: Vector, draw: nat -> real, k: nat): (r: (Drop, nat))
    ensures r.0.speed == p.speed && r.0.length == p.length && r.0.alpha == p.alpha
    ensures Fallen(p, dt) - C.y < -RainWrap ==> r.0.pos.y == C.y + RainWrap
    ensures Fallen(p, dt) - C.y >= -RainWrap ==> r.0.pos.y == Fallen(p, dt)
    ensures UnitStream(draw) ==>
              Abs(r.0.pos.x - C.x) <= RainWrap + Jitter && Abs(r.0.pos.z - C.z) <= RainWrap + Jitter
    ensures k <= r.1 <= k + 4
  {
    var y := Fallen(p, dt);
    var (x, k1) := WrapJittered(p.pos.x, C.x, RainWrap, draw, k);
    var (z, k2) := WrapJittered(p.pos.z, C.z, RainWrap, draw, k1);
    if y - C.y < -RainWrap then
      var x' := C.x + RandRange(-RainWrap, RainWrap, draw(k2));
      var z' := C.z + RandRange(-RainWrap, RainWrap, draw(k2 + 1));
      (p.(pos := Vector(x', C.y + RainWrap, z')), k2 + 2)
    else (p.(pos := Vector(x, y, z)), k2)
  }

  /** Where a flake drifts in one frame, with its sway, before wrapping. */
  function Drifted(m: Functions, p: Flake, dt: real): Vector {
    Vector(p.pos.x + p.vel.x * dt + m.sin(p.sparklePhase) * 5.0 * dt,
           p.pos.y + p.vel.y * dt,
           p.pos.z + p.vel.z * dt + m.cos(p.sparklePhase * 0.7) * 5.0 * dt)
  }

  /** The sparkle phase after one frame: `sparklePhase + sparkleSpeed·dt`. */
  function Sparkled(p: Flake, dt: real): real {
    p.sparklePhase + p.sparkleSpeed * dt
  }

  /**
   * One flake in `updateSnow`: drift and sway, advance the sparkle phase,
   * wrap x and z, and respawn a flake more than 600 below the camera at
   * exactly 600 above it.
   */
  function SnowStep(m: Functions, p: Flake, dt: real, C: Vector, draw: nat -> real, k: nat): (r: (Flake, nat))
    ensures r.0.vel == p.vel && r.0.size == p.size && r.0.sparkleSpeed == p.sparkleSpeed
    ensures r.0.sparklePhase == Sparkled(p, dt)
    ensures Drifted(m, p, dt).y - C.y < -SnowWrap ==> r.0.pos.y == C.y + SnowWrap
    ensures Drifted(m, p, dt).y - C.y >= -SnowWrap ==> r.0.pos.y == Drifted(m, p, dt).y
    ensures UnitStream(draw) ==>
              Abs(r.0.pos.x - C.x) <= SnowWrap + Jitter && Abs(r.0.pos.z - C.z) <= SnowWrap + Jitter
    ensures k <= r.1 <= k + 4
  {
    var moved := Drifted(m, p, dt);
    var phase := Sparkled(p, dt);
    var (x, k1) := WrapJittered(moved.x, C.x, SnowWrap, draw, k);
    var (z, k2) := WrapJittered(moved.z, C.z, SnowWrap, draw, k1);
    if moved.y - C.y < -SnowWrap then
      var x' := C.x + RandRange(-SnowWrap, SnowWrap, draw(k2));
      var z' := C.z + RandRange(-SnowWrap, SnowWrap, draw(k2 + 1));
      (p.(pos := Vector(x', C.y + SnowWrap, z'), sparklePhase := phase), k2 + 2)
    else (p.(pos := Vector(x, moved.y, z), sparklePhase := phase), k2)
  }

  /** The wind direction (cos a, sin a) for `cfg.windAngle || 0`. */
  function Wind(m: Functions, cfg: SandstormConfig): (real, real) {
    var a := OrReal(cfg.windAngle, 0.0);
    (m.cos(a), m.sin(a))
  }

  /** Where a grain is blown in one frame, with the random vertical drift of draw k. */
  function Blown(m: Functions, cfg: SandstormConfig, p: Grain, dt: real, u: real): Vector {
    var (wx, wz) := Wind(m, cfg);
    Vector(p.pos.x + wx * p.speed * dt, p.pos.y + RandRange(-10.0, 10.0, u) * dt, p.pos.z + wz * p.speed * dt)
  }

  /**
   * One grain in `updateSandstorm`: blown by the wind with a random
   * vertical drift, then x and z wrap to exactly 500 from the camera and a
   * grain more than 200 off vertically is put back within 100.
   */
  function SandStep(m: Functions, cfg: SandstormConfig, p: Grain, dt: real, C: Vector, draw: nat -> real, k: nat)
    : (r: (Grain, nat))
    ensures r.0.speed == p.speed && r.0.length == p.length && r.0.alpha == p.alpha
    ensures Abs(r.0.pos.x - C.x) <= SandWrap && Abs(r.0.pos.z - C.z) <= SandWrap
    ensures UnitStream(draw) ==> Abs(r.0.pos.y - C.y) <= SandWrap * 0.4
    ensures k + 1 <= r.1 <= k + 2
  {
    var moved := Blown(m, cfg, p, dt, draw(k));
    var x := WrapExact(moved.x, C.x, SandWrap);
    var z := WrapExact(moved.z, C.z, SandWrap);
    if Abs(moved.y - C.y) > SandWrap * 0.4 then
      var y := C.y + RandRange(-100.0, 100.0, draw(k + 1));
      (p.(pos := Vector(x, y, z)), k + 2)
    else (p.(pos := Vector(x, moved.y, z)), k + 1)
  }

  // ---------------------------------------------------------------
  // One frame for a whole particle list
  // ---------------------------------------------------------------

  /**
   * `updateDebris`: particles i.. are stepped in order after `done`, each
   * reading its draws where the previous one stopped.
   */
  function DebrisPass(ps: seq<Debris>, dt: real, C: Vector, draw: nat -> real, i: nat, done: seq<Debris>, k: nat)
    : (r: (seq<Debris>, nat))
    requires i <= |ps| && |done| == i
    ensures |r.0| == |ps| && r.0[..i] == done && r.1 >= k
    decreases |ps| - i
  {
    if i == |ps| then (done, k)
    else
      var st := DebrisStep(ps[i], dt, C, draw, k);
      DebrisPass(ps, dt, C, draw, i + 1, done + [st.0], st.1)
  }

  /** One more step of the pass: particle i is stepped where the previous one left the stream. */
  lemma DebrisPassNext(ps: seq<Debris>, dt: real, C: Vector, draw: nat -> real, i: nat, done: seq<Debris>, k: nat)
    requires i < |ps| && |done| == i
    ensures var st := DebrisStep(ps[i], dt, C, draw, k);
            DebrisPass(ps, dt, C, draw, i, done, k) == DebrisPass(ps, dt, C, draw, i + 1, done + [st.0], st.1)
  {
  }

  /** After `updateDebris`, with draws in [0, 1), every particle is within 550 of the camera on each axis. */
  lemma {:induction false} DebrisPassNear(ps: seq<Debris>, dt: real, C: Vector, draw: nat -> real, i: nat, done: seq<Debris>, k: nat)
    requires i <= |ps| && |done| == i
    requires UnitStream(draw)
    requires forall j :: 0 <= j < i ==> NearCamera(done[j].pos, C, DebrisWrap + Jitter)
    ensures forall j :: 0 <= j < |ps| ==> NearCamera(DebrisPass(ps, dt, C, draw, i, done, k).0[j].pos, C, DebrisWrap + Jitter)
    decreases |ps| - i
  {
    if i < |ps| {
      var st := DebrisStep(ps[i], dt, C, draw, k);
      var done' := done + [st.0];
      assert forall j :: 0 <= j < i + 1 ==> NearCamera(done'[j].pos, C, DebrisWrap + Jitter);
      assert DebrisPass(ps, dt, C, draw, i, done, k) == DebrisPass(ps, dt, C, draw, i + 1, done', st.1);
      DebrisPassNear(ps, dt, C, draw, i + 1, done', st.1);
    }
  }

  /** `updateRain` over drops i.. after `done`. */
  function RainPass(ps: seq<Drop>, dt: real, C: Vector, draw: nat -> real, i: nat, done: seq<Drop>, k: nat)
    : (r: (seq<Drop>, nat))
    requires i <= |ps| && |done| == i
    ensures |r.0| == |ps| && r.0[..i] == done && r.1 >= k
    decreases |ps| - i
  {
    if i == |ps| then (done, k)
    else
      var st := RainStep(ps[i], dt, C, draw, k);
      RainPass(ps, dt, C, draw, i + 1, done + [st.0], st.1)
  }

  /** One more step of the pass: particle i is stepped where the previous one left the stream. */
  lemma RainPassNext(ps: seq<Drop>, dt: real, C: Vector, draw: nat -> real, i: nat, done: seq<Drop>, k: nat)
    requires i < |ps| && |done| == i
    ensures var st := RainStep(ps[i], dt, C, draw, k);
            RainPass(ps, dt, C, draw, i, done, k) == RainPass(ps, dt, C, draw, i + 1, done + [st.0], st.1)
  {
  }

  /** After `updateRain`, every drop that fell more than 400 below the camera is at exactly 400 above it. */
  lemma {:induction false} RainPassRespawns(ps: seq<Drop>, dt: real, C: Vector, draw: nat -> real, i: nat, done: seq<Drop>, k: nat)
    requires i <= |ps| && |done| == i
    requires forall j :: 0 <= j < i && Fallen(ps[j], dt) - C.y < -RainWrap ==> done[j].pos.y == C.y + RainWrap
    ensures var r := RainPass(ps, dt, C, draw, i, done, k).0;
            forall j :: 0 <= j < |ps| && Fallen(ps[j], dt) - C.y < -RainWrap ==> r[j].pos.y == C.y + RainWrap
    decreases |ps| - i
  {
    if i < |ps| {
      var st := RainStep(ps[i], dt, C, draw, k);
      var done' := done + [st.0];
      assert forall j :: 0 <= j < i + 1 && Fallen(ps[j], dt) - C.y < -RainWrap ==> done'[j].pos.y == C.y + RainWrap;
      assert RainPass(ps, dt, C, draw, i, done, k) == RainPass(ps, dt, C, draw, i + 1, done', st.1);
      RainPassRespawns(ps, dt, C, draw, i + 1, done', st.1);
    }
  }

  /** `updateSnow` over flakes i.. after `done`. */
  function SnowPass(m: Functions, ps: seq<Flake>, dt: real, C: Vector, draw: nat -> real, i: nat, done: seq<Flake>, k: nat)
    : (r: (seq<Flake>, nat))
    requires i <= |ps| && |done| == i
    ensures |r.0| == |ps| && r.0[..i] == done && r.1 >= k
    decreases |ps| - i
  {
    if i == |ps| then (done, k)
    else
      var st := SnowStep(m, ps[i], dt, C, draw, k);
      SnowPass(m, ps, dt, C, draw, i + 1, done + [st.0], st.1)
  }

  /** One more step of the pass: particle i is stepped where the previous one left the stream. */
  lemma SnowPassNext(m: Functions, ps: seq<Flake>, dt: real, C: Vector, draw: nat -> real, i: nat, done: seq<Flake>, k: nat)
    requires i < |ps| && |done| == i
    ensures var st := SnowStep(m, ps[i], dt, C, draw, k);
            SnowPass(m, ps, dt, C, draw, i, done, k) == SnowPass(m, ps, dt, C, draw, i + 1, done + [st.0], st.1)
  {
  }

  /** `updateSandstorm` over grains i.. after `done`. */
  function SandPass(m: Functions, cfg: SandstormConfig, ps: seq<Grain>, dt: real, C: Vector, draw: nat -> real,
                    i: nat, done: seq<Grain>, k: nat): (r: (seq<Grain>, nat))
    requires i <= |ps| && |done| == i
    ensures |r.0| == |ps| && r.0[..i] == done && r.1 >= k + |ps| - i
    decreases |ps| - i
  {
    if i == |ps| then (done, k)
    else
      var st := SandStep(m, cfg, ps[i], dt, C, draw, k);
      SandPass(m, cfg, ps, dt, C, draw, i + 1, done + [st.0], st.1)
  }

  /** One more step of the pass: particle i is stepped where the previous one left the stream. */
  lemma SandPassNext(m: Functions, cfg: SandstormConfig, ps: seq<Grain>, dt: real, C: Vector, draw: nat -> real, i: nat, done: seq<Grain>, k: nat)
    requires i < |ps| && |done| == i
    ensures var st := SandStep(m, cfg, ps[i], dt, C, draw, k);
            SandPass(m, cfg, ps, dt, C, draw, i, done, k) == SandPass(m, cfg, ps, dt, C, draw, i + 1, done + [st.0], st.1)
  {
  }

  /** A grain at most 500 from the camera in x and in z. */
  predicate InSandBox(g: Grain, C: Vector) {
    Abs(g.pos.x - C.x) <= SandWrap && Abs(g.pos.z - C.z) <= SandWrap
  }

  /** After `updateSandstorm` every grain is within 500 of the camera in x and z. */
  lemma {:induction false} SandPassInBox(m: Functions, cfg: SandstormConfig, ps: seq<Grain>, dt: real, C: Vector,
                                         draw: nat -> real, i: nat, done: seq<Grain>, k: nat)
    requires i <= |ps| && |done| == i
    requires forall j :: 0 <= j < i ==> InSandBox(done[j], C)
    ensures forall j :: 0 <= j < |ps| ==> InSandBox(SandPass(m, cfg, ps, dt, C, draw, i, done, k).0[j], C)
    decreases |ps| - i
  {
    if i < |ps| {
      var st := SandStep(m, cfg, ps[i], dt, C, draw, k);
      var done' := done + [st.0];
      assert forall j :: 0 <= j < i + 1 ==> InSandBox(done'[j], C);
      assert SandPass(m, cfg, ps, dt, C, draw, i, done, k) == SandPass(m, cfg, ps, dt, C, draw, i + 1, done', st.1);
      SandPassInBox(m, cfg, ps, dt, C, draw, i + 1, done', st.1);
    }
  }

  // ---------------------------------------------------------------
  // Lightning
  // ---------------------------------------------------------------

  /** The lightning record: 0 waiting, 1 bright flash, 2 dark aftermath. */
  datatype Flash = Flash(active: bool, timer: real, flashPhase: int, flashTimer: real)

  const Calm: Flash := Flash(false, 0.0, 0, 0.0)

  /** `active` holds exactly while a flash is under way, and the phase is one of 0, 1, 2. */
  predicate FlashValid(s: Flash) {
    (s.active <==> s.flashPhase != 0) && 0 <= s.flashPhase <= 2
  }

  /** `cfg.frequency || 0.02` */
  function Frequency(cfg: LightningConfig): real {
    OrReal(cfg.frequency, 0.02)
  }

  /** `cfg.flashDuration || 0.15` */
  function Duration(cfg: LightningConfig): real {
    OrReal(cfg.flashDuration, 0.15)
  }

  /** `Math.random() < frequency·tAtmo·dt·60`: the draw u starts a flash. */
  predicate Strikes(u: real, frequency: real, tAtmo: real, dt: real) {
    u < frequency * tAtmo * dt * 60.0
  }

  /** The draws `updateLightning` reads: one while waiting in a thick enough atmosphere. */
  function FlashDraws(s: Flash, tAtmo: real): nat {
    if tAtmo >= 0.1 && s.flashPhase == 0 then 1 else 0
  }

  /**
   * `updateLightning` on the record s, with u the value `Math.random()`
   * returns if it is called.
   */
  function NextFlash(s: Flash, dt: real, cfg: LightningConfig, tAtmo: real, u: real): (r: Flash)
    // too thin an atmosphere stops any flash
    ensures tAtmo < 0.1 ==> !r.active && r.flashPhase == 0 && r.timer == s.timer && r.flashTimer == s.flashTimer
    // the invariant active ⇔ flashPhase ≠ 0 is kept
    ensures FlashValid(s) ==> FlashValid(r)
    // the only moves are 0 → 1, 1 → 2 and 2 → 0, besides the reset
    ensures r.flashPhase == s.flashPhase
         || (s.flashPhase == 0 && r.flashPhase == 1)
         || (s.flashPhase == 1 && r.flashPhase == 2)
         || (s.flashPhase == 2 && r.flashPhase == 0)
         || (tAtmo < 0.1 && r.flashPhase == 0)
    // entering the flash or the aftermath restarts the flash timer
    ensures r.flashPhase != s.flashPhase && r.flashPhase != 0 ==> r.flashTimer == 0.0
    // when each move happens
    ensures tAtmo >= 0.1 && s.flashPhase == 0 ==>
              r.timer == s.timer + dt && (r.flashPhase == 1 <==> Strikes(u, Frequency(cfg), tAtmo, dt))
    ensures tAtmo >= 0.1 && s.flashPhase == 1 ==>
              (r.flashPhase == 2 <==> s.flashTimer + dt > Duration(cfg) * 0.3)
    ensures tAtmo >= 0.1 && s.flashPhase == 2 ==>
              r.flashTimer == s.flashTimer + dt && (r.flashPhase == 0 <==> s.flashTimer + dt > Duration(cfg) * 0.7)
  {
    if tAtmo < 0.1 then s.(active := false, flashPhase := 0)
    else if s.flashPhase == 0 then
      var waiting := s.(timer := s.timer + dt);
      if Strikes(u, Frequency(cfg), tAtmo, dt) then waiting.(flashPhase := 1, flashTimer := 0.0, active := true)
      else waiting
    else if s.flashPhase == 1 then
      var t := s.flashTimer + dt;
      if t > Duration(cfg) * 0.3 then s.(flashPhase := 2, flashTimer := 0.0) else s.(flashTimer := t)
    else if s.flashPhase == 2 then
      var t := s.flashTimer + dt;
      if t > Duration(cfg) * 0.7 then s.(flashTimer := t, flashPhase := 0, active := false) else s.(flashTimer := t)
    else s
  }

  /** The lightning object `updateLightning` mutates. */
  class Lightning {
    var active: bool
    var timer: real
    var flashPhase: int
    var flashTimer: real

    constructor ()
      ensures State() == Calm
    {
      active, timer, flashPhase, flashTimer := false, 0.0, 0, 0.0;
    }

    function State(): Flash
      reads this
    {
      Flash(active, timer, flashPhase, flashTimer)
    }

    ghost predicate Valid()
      reads this
    {
      FlashValid(State())
    }

    /** `updateLightning(lightning, dt, cfg, tAtmo)` */
    method Update(dt: real, cfg: LightningConfig, tAtmo: real, rng: Rng)
      modifies this, rng`cursor
      ensures State() == NextFlash(old(State()), dt, cfg, tAtmo, rng.draw(old(rng.cursor)))
      ensures rng.cursor == old(rng.cursor) + FlashDraws(old(State()), tAtmo)
      ensures old(Valid()) ==> Valid()
    {
      if tAtmo < 0.1 {
        active := false;
        flashPhase := 0;
        return;
      }
      var frequency := Frequency(cfg);
      var flashDuration := Duration(cfg);
      if flashPhase == 0 {
        timer := timer + dt;
        var u := rng.Next();
        if Strikes(u, frequency, tAtmo, dt) {
          flashPhase := 1;
          flashTimer := 0.0;
          active := true;
        }
      } else if flashPhase == 1 {
        flashTimer := flashTimer + dt;
        if flashTimer > flashDuration * 0.3 {
          flashPhase := 2;
          flashTimer := 0.0;
        }
      } else if flashPhase == 2 {
        flashTimer := flashTimer + dt;
        if flashTimer > flashDuration * 0.7 {
          flashPhase := 0;
          active := false;
        }
      }
    }
  }

  // ---------------------------------------------------------------
  // The effects object
  // ---------------------------------------------------------------

  /** A snapshot of everything `updateEffects` may change. */
  datatype Scene = Scene(
    debris: seq<Debris>,
    rain: seq<Drop>,
    snow: seq<Flake>,
    sandstorm: seq<Grain>,
    flash: Flash,
    auroraPhase: real,
    bands: seq<Band>)

  /** How far the aurora clock advances in a frame: dt·(waveSpeed || 0.5). */
  function AuroraAdvance(cfg: EffectsConfig, dt: real): real {
    if cfg.aurora.Some? then dt * OrReal(cfg.aurora.value.waveSpeed, 0.5) else 0.0
  }

  /** The debris stage of `updateEffects`: only the debris list changes. */
  function DebrisStage(s: Scene, cfg: EffectsConfig, dt: real, C: Vector, draw: nat -> real, k: nat): (r: (Scene, nat))
    ensures r.0 == s.(debris := r.0.debris) && |r.0.debris| == |s.debris| && r.1 >= k
    ensures cfg.debris.None? ==> r == (s, k)
  {
    if cfg.debris.Some? && |s.debris| > 0 then
      var p := DebrisPass(s.debris, dt, C, draw, 0, [], k);
      (s.(debris := p.0), p.1)
    else (s, k)
  }

  /** The rain stage of `updateEffects`: only the rain list changes. */
  function RainStage(s: Scene, cfg: EffectsConfig, dt: real, C: Vector, draw: nat -> real, k: nat): (r: (Scene, nat))
    ensures r.0 == s.(rain := r.0.rain) && |r.0.rain| == |s.rain| && r.1 >= k
    ensures cfg.rain.None? ==> r == (s, k)
  {
    if cfg.rain.Some? && |s.rain| > 0 then
      var p := RainPass(s.rain, dt, C, draw, 0, [], k);
      (s.(rain := p.0), p.1)
    else (s, k)
  }

  /** The snow stage of `updateEffects`: only the snow list changes. */
  function SnowStage(s: Scene, cfg: EffectsConfig, m: Functions, dt: real, C: Vector, draw: nat -> real, k: nat)
    : (r: (Scene, nat))
    ensures r.0 == s.(snow := r.0.snow) && |r.0.snow| == |s.snow| && r.1 >= k
    ensures cfg.snow.None? ==> r == (s, k)
  {
    if cfg.snow.Some? && |s.snow| > 0 then
      var p := SnowPass(m, s.snow, dt, C, draw, 0, [], k);
      (s.(snow := p.0), p.1)
    else (s, k)
  }

  /** The sandstorm stage of `updateEffects`: only the sandstorm list changes, one draw or more per grain. */
  function SandStage(s: Scene, cfg: EffectsConfig, m: Functions, dt: real, C: Vector, draw: nat -> real, k: nat)
    : (r: (Scene, nat))
    ensures r.0 == s.(sandstorm := r.0.sandstorm) && |r.0.sandstorm| == |s.sandstorm|
    ensures cfg.sandstorm.Some? ==> r.1 >= k + |s.sandstorm|
    ensures cfg.sandstorm.None? ==> r == (s, k)
  {
    if cfg.sandstorm.Some? && |s.sandstorm| > 0 then
      var p := SandPass(m, cfg.sandstorm.value, s.sandstorm, dt, C, draw, 0, [], k);
      (s.(sandstorm := p.0), p.1)
    else (s, k)
  }

  /** The lightning stage of `updateEffects`: only the flash record changes, and stays valid. */
  function FlashStage(s: Scene, cfg: EffectsConfig, tAtmo: real, dt: real, draw: nat -> real, k: nat): (r: (Scene, nat))
    ensures r.0 == s.(flash := r.0.flash) && r.1 >= k
    ensures FlashValid(s.flash) ==> FlashValid(r.0.flash)
    ensures cfg.lightning.None? ==> r == (s, k)
  {
    if cfg.lightning.Some? then
      (s.(flash := NextFlash(s.flash, dt, cfg.lightning.value, tAtmo, draw(k))), k + FlashDraws(s.flash, tAtmo))
    else (s, k)
  }

  /**
   * `updateEffects` on a snapshot: each configured, non-empty particle list
   * in turn, then lightning, then the aurora clock, the draws threaded
   * through in that order.
   */
  function UpdateScene(s: Scene, cfg: EffectsConfig, m: Functions, dt: real, C: Vector, tAtmo: real,
                       draw: nat -> real, k: nat): (r: (Scene, nat))
    ensures |r.0.debris| == |s.debris| && |r.0.rain| == |s.rain|
    ensures |r.0.snow| == |s.snow| && |r.0.sandstorm| == |s.sandstorm|
    ensures r.0.bands == s.bands
    ensures r.0.auroraPhase == s.auroraPhase + AuroraAdvance(cfg, dt)
    ensures FlashValid(s.flash) ==> FlashValid(r.0.flash)
    ensures cfg == NoEffects ==> r == (s, k)
    ensures r.1 >= k
  {
    var d := DebrisStage(s, cfg, dt, C, draw, k);
    var rn := RainStage(d.0, cfg, dt, C, draw, d.1);
    var sn := SnowStage(rn.0, cfg, m, dt, C, draw, rn.1);
    var g := SandStage(sn.0, cfg, m, dt, C, draw, sn.1);
    var f := FlashStage(g.0, cfg, tAtmo, dt, draw, g.1);
    (f.0.(auroraPhase := f.0.auroraPhase + AuroraAdvance(cfg, dt)), f.1)
  }

  /** The object `createPlanetEffects` returns. */
  class Effects {
    const config: EffectsConfig
    var debris: seq<Debris>
    var rain: seq<Drop>
    var snow: seq<Flake>
    var sandstorm: seq<Grain>
    const lightning: Lightning
    var auroraPhase: real
    var bands: seq<Band>

    /** Empty particle lists, calm lightning and the aurora clock at 0. */
    constructor (cfg: EffectsConfig)
      ensures config == cfg && fresh(lightning)
      ensures State() == Scene([], [], [], [], Calm, 0.0, [])
    {
      config := cfg;
      debris, rain, snow, sandstorm := [], [], [], [];
      lightning := new Lightning();
      auroraPhase := 0.0;
      bands := [];
    }

    function State(): Scene
      reads this, lightning
    {
      Scene(debris, rain, snow, sandstorm, lightning.State(), auroraPhase, bands)
    }

    ghost predicate Valid()
      reads lightning
    {
      lightning.Valid()
    }

    /** `updateDebris(effects.debris, dt, cam)`, run when the configuration has debris and the list is not empty. */
    method UpdateDebris(dt: real, C: Vector, rng: Rng)
      modifies this`debris, rng`cursor
      ensures (State(), rng.cursor) == DebrisStage(old(State()), config, dt, C, rng.draw, old(rng.cursor))
    {
      if config.debris.Some? && |debris| > 0 {
        var draw, k := rng.draw, rng.cursor;
        var ps := debris;
        var done := [];
        var i := 0;
        while i < |ps|
          invariant 0 <= i <= |ps| && |done| == i && k == rng.cursor
          invariant DebrisPass(ps, dt, C, draw, 0, [], old(rng.cursor))
                 == DebrisPass(ps, dt, C, draw, i, done, k)
        {
          var st := DebrisStep(ps[i], dt, C, draw, k);
          DebrisPassNext(ps, dt, C, draw, i, done, k);
          done := done + [st.0];
          rng.Skip(st.1 - k);
          k := st.1;
          i := i + 1;
        }
        debris := done;
      }
    }

    /** `updateRain(effects.rain, dt, cam, cfg.rain)`, run when the configuration has rain and the list is not empty. */
    method UpdateRain(dt: real, C: Vector, rng: Rng)
      modifies this`rain, rng`cursor
      ensures (State(), rng.cursor) == RainStage(old(State()), config, dt, C, rng.draw, old(rng.cursor))
    {
      if config.rain.Some? && |rain| > 0 {
        var draw, k := rng.draw, rng.cursor;
        var ps := rain;
        var done := [];
        var i := 0;
        while i < |ps|
          invariant 0 <= i <= |ps| && |done| == i && k == rng.cursor
          invariant RainPass(ps, dt, C, draw, 0, [], old(rng.cursor))
                 == RainPass(ps, dt, C, draw, i, done, k)
        {
          var st := RainStep(ps[i], dt, C, draw, k);
          RainPassNext(ps, dt, C, draw, i, done, k);
          done := done + [st.0];
          rng.Skip(st.1 - k);
          k := st.1;
          i := i + 1;
        }
        rain := done;
      }
    }

    /** `updateSnow(effects.snow, dt, cam, cfg.snow)`, run when the configuration has snow and the list is not empty. */
    method UpdateSnow(m: Functions, dt: real, C: Vector, rng: Rng)
      modifies this`snow, rng`cursor
      ensures (State(), rng.cursor) == SnowStage(old(State()), config, m, dt, C, rng.draw, old(rng.cursor))
    {
      if config.snow.Some? && |snow| > 0 {
        var draw, k := rng.draw, rng.cursor;
        var ps := snow;
        var done := [];
        var i := 0;
        while i < |ps|
          invariant 0 <= i <= |ps| && |done| == i && k == rng.cursor
          invariant SnowPass(m, ps, dt, C, draw, 0, [], old(rng.cursor))
                 == SnowPass(m, ps, dt, C, draw, i, done, k)
        {
          var st := SnowStep(m, ps[i], dt, C, draw, k);
          SnowPassNext(m, ps, dt, C, draw, i, done, k);
          done := done + [st.0];
          rng.Skip(st.1 - k);
          k := st.1;
          i := i + 1;
        }
        snow := done;
      }
    }

    /** `updateSandstorm(effects.sandstorm, dt, cam, cfg.sandstorm)`, run when the configuration has sandstorm and the list is not empty. */
    method UpdateSandstorm(m: Functions, dt: real, C: Vector, rng: Rng)
      modifies this`sandstorm, rng`cursor
      ensures (State(), rng.cursor) == SandStage(old(State()), config, m, dt, C, rng.draw, old(rng.cursor))
    {
      if config.sandstorm.Some? && |sandstorm| > 0 {
        var cfg := config.sandstorm.value;
        var draw, k := rng.draw, rng.cursor;
        var ps := sandstorm;
        var done := [];
        var i := 0;
        while i < |ps|
          invariant 0 <= i <= |ps| && |done| == i && k == rng.cursor
          invariant SandPass(m, cfg, ps, dt, C, draw, 0, [], old(rng.cursor))
                 == SandPass(m, cfg, ps, dt, C, draw, i, done, k)
        {
          var st := SandStep(m, cfg, ps[i], dt, C, draw, k);
          SandPassNext(m, cfg, ps, dt, C, draw, i, done, k);
          done := done + [st.0];
          rng.Skip(st.1 - k);
          k := st.1;
          i := i + 1;
        }
        sandstorm := done;
      }
    }

    /** The body of `updateEffects` for a present effects object. */
    method Update(m: Functions, dt: real, C: Vector, tAtmo: real, rng: Rng)
      modifies this, lightning, rng`cursor
      ensures (State(), rng.cursor)
           == UpdateScene(old(State()), config, m, dt, C, tAtmo, rng.draw, old(rng.cursor))
      ensures old(Valid()) ==> Valid()
    {
      ghost var s0, k0 := State(), rng.cursor;
      UpdateDebris(dt, C, rng);
      ghost var d := (State(), rng.cursor);
      UpdateRain(dt, C, rng);
      ghost var rn := (State(), rng.cursor);
      UpdateSnow(m, dt, C, rng);
      ghost var sn := (State(), rng.cursor);
      UpdateSandstorm(m, dt, C, rng);
      ghost var g := (State(), rng.cursor);
      UpdateFlash(dt, tAtmo, rng);
      ghost var f := (State(), rng.cursor);
      AdvanceAurora(dt);
      assert (State(), rng.cursor) == (f.0.(auroraPhase := f.0.auroraPhase + AuroraAdvance(config, dt)), f.1);
    }

    /** `updateLightning(effects.lightning, dt, cfg.lightning, tAtmo)`, run when the configuration has lightning. */
    method UpdateFlash(dt: real, tAtmo: real, rng: Rng)
      modifies lightning, rng`cursor
      ensures (State(), rng.cursor) == FlashStage(old(State()), config, tAtmo, dt, rng.draw, old(rng.cursor))
      ensures old(Valid()) ==> Valid()
    {
      if config.lightning.Some? {
        lightning.Update(dt, config.lightning.value, tAtmo, rng);
      }
    }

    /** `effects.auroraPhase += dt·(cfg.aurora.waveSpeed || 0.5)`, run when the configuration has an aurora. */
    method AdvanceAurora(dt: real)
      modifies this`auroraPhase
      ensures State() == old(State()).(auroraPhase := old(auroraPhase) + AuroraAdvance(config, dt))
    {
      if config.aurora.Some? {
        auroraPhase := auroraPhase + AuroraAdvance(config, dt);
      }
    }
  }

  /** `updateEffects(effects, dt, cam, planet, tAtmo)`: nothing happens for null effects. */
  method UpdateEffects(e: Option<Effects>, m: Functions, dt: real, C: Vector, tAtmo: real, rng: Rng)
    modifies rng`cursor, if e.Some? then {e.value, e.value.lightning} else {}
    ensures e.None? ==> rng.cursor == old(rng.cursor)
    ensures e.Some? ==>
      (e.value.State(), rng.cursor)
      == UpdateScene(old(e.value.State()), e.value.config, m, dt, C, tAtmo, rng.draw, old(rng.cursor))
  {
    if e.None? {
      return;
    }
    e.value.Update(m, dt, C, tAtmo, rng);
  }

  // ---------------------------------------------------------------
  // Creation
  // ---------------------------------------------------------------

  /** How many particles the debris loop of `createPlanetEffects` makes for c. */
  function DebrisTotal(c: EffectsConfig): nat {
    if c.debris.Some? then Loops(DebrisCount(c.debris.value)) else 0
  }

  /** How many drops the rain loop makes for c. */
  function RainTotal(c: EffectsConfig): nat {
    if c.rain.Some? then Loops(RainCount(c.rain.value)) else 0
  }

  /** How many flakes the snow loop makes for c. */
  function SnowTotal(c: EffectsConfig): nat {
    if c.snow.Some? then Loops(SnowCount(c.snow.value)) else 0
  }

  /** How many grains the sandstorm loop makes for c. */
  function SandstormTotal(c: EffectsConfig): nat {
    if c.sandstorm.Some? then Loops(SandstormCount(c.sandstorm.value)) else 0
  }

  /** How many bands the aurora loop makes for c. */
  function BandTotal(c: EffectsConfig): nat {
    if c.aurora.Some? then Loops(BandCount(c.aurora.value)) else 0
  }

  /**
   * The debris loop of `createPlanetEffects`: one particle per pass, 8 draws
   * apiece, every one of them fresh when the draws lie in [0, 1).
   */
  method SpawnDebris(c: EffectsConfig, rng: Rng) returns (ps: seq<Debris>)
    modifies rng`cursor
    ensures |ps| == DebrisTotal(c) && rng.cursor == old(rng.cursor) + 8 * |ps|
    ensures rng.Uniform() ==> forall p <- ps :: DebrisFresh(p)
  {
    ps := [];
    if c.debris.Some? {
      var cfg := c.debris.value;
      var count := DebrisCount(cfg);
      var i := 0;
      while i < count
        invariant 0 <= i <= Loops(count) && |ps| == i
        invariant rng.cursor == old(rng.cursor) + 8 * i
        invariant rng.Uniform() ==> forall p <- ps :: DebrisFresh(p)
      {
        var p := NewDebris(cfg, rng.draw, rng.cursor);
        ps := ps + [p];
        rng.Skip(8);
        i := i + 1;
      }
    }
  }

  /**
   * The rain loop of `createPlanetEffects`: one particle per pass, 5 draws
   * apiece, every one of them fresh when the draws lie in [0, 1).
   */
  method SpawnRain(c: EffectsConfig, rng: Rng) returns (ps: seq<Drop>)
    modifies rng`cursor
    ensures |ps| == RainTotal(c) && rng.cursor == old(rng.cursor) + 5 * |ps|
    ensures rng.Uniform() && c.rain.Some? ==> forall p <- ps :: DropFresh(c.rain.value, p)
  {
    ps := [];
    if c.rain.Some? {
      var cfg := c.rain.value;
      var count := RainCount(cfg);
      var i := 0;
      while i < count
        invariant 0 <= i <= Loops(count) && |ps| == i
        invariant rng.cursor == old(rng.cursor) + 5 * i
        invariant rng.Uniform() ==> forall p <- ps :: DropFresh(cfg, p)
      {
        var p := NewDrop(cfg, rng.draw, rng.cursor);
        ps := ps + [p];
        rng.Skip(5);
        i := i + 1;
      }
    }
  }

  /**
   * The snow loop of `createPlanetEffects`: one particle per pass, 9 draws
   * apiece, every one of them fresh when the draws lie in [0, 1).
   */
  method SpawnSnow(c: EffectsConfig, rng: Rng) returns (ps: seq<Flake>)
    modifies rng`cursor
    ensures |ps| == SnowTotal(c) && rng.cursor == old(rng.cursor) + 9 * |ps|
    ensures rng.Uniform() ==> forall p <- ps :: FlakeFresh(p)
  {
    ps := [];
    if c.snow.Some? {
      var cfg := c.snow.value;
      var count := SnowCount(cfg);
      var i := 0;
      while i < count
        invariant 0 <= i <= Loops(count) && |ps| == i
        invariant rng.cursor == old(rng.cursor) + 9 * i
        invariant rng.Uniform() ==> forall p <- ps :: FlakeFresh(p)
      {
        var p := NewFlake(cfg, rng.draw, rng.cursor);
        ps := ps + [p];
        rng.Skip(9);
        i := i + 1;
      }
    }
  }

  /**
   * The sandstorm loop of `createPlanetEffects`: one particle per pass, 6 draws
   * apiece, every one of them fresh when the draws lie in [0, 1).
   */
  method SpawnSandstorm(c: EffectsConfig, rng: Rng) returns (ps: seq<Grain>)
    modifies rng`cursor
    ensures |ps| == SandstormTotal(c) && rng.cursor == old(rng.cursor) + 6 * |ps|
    ensures rng.Uniform() ==> forall p <- ps :: GrainFresh(p)
  {
    ps := [];
    if c.sandstorm.Some? {
      var cfg := c.sandstorm.value;
      var count := SandstormCount(cfg);
      var i := 0;
      while i < count
        invariant 0 <= i <= Loops(count) && |ps| == i
        invariant rng.cursor == old(rng.cursor) + 6 * i
        invariant rng.Uniform() ==> forall p <- ps :: GrainFresh(p)
      {
        var p := NewGrain(cfg, rng.draw, rng.cursor);
        ps := ps + [p];
        rng.Skip(6);
        i := i + 1;
      }
    }
  }

  /**
   * The aurora loop: band i takes colour i of the palette, cycling, and
   * three draws.
   */
  method SpawnBands(c: EffectsConfig, rng: Rng) returns (bs: seq<Band>)
    modifies rng`cursor
    ensures |bs| == BandTotal(c) && rng.cursor == old(rng.cursor) + 3 * |bs|
    ensures c.aurora.Some? ==> forall j :: 0 <= j < |bs| ==> BandColour(c.aurora.value, j, bs[j])
    ensures rng.Uniform() ==> forall b <- bs :: BandFresh(b)
  {
    bs := [];
    if c.aurora.Some? {
      var cfg := c.aurora.value;
      var count := BandCount(cfg);
      var i := 0;
      while i < count
        invariant 0 <= i <= Loops(count) && |bs| == i
        invariant rng.cursor == old(rng.cursor) + 3 * i
        invariant forall j :: 0 <= j < i ==> BandColour(cfg, j, bs[j])
        invariant rng.Uniform() ==> forall b <- bs :: BandFresh(b)
      {
        var b := NewBand(i, cfg, rng.draw, rng.cursor);
        bs := bs + [b];
        rng.Skip(3);
        i := i + 1;
      }
    }
  }

  /**
   * `createPlanetEffects(planet, effectsConfig)`: null for a missing
   * configuration; otherwise the particle lists of the configured effects,
   * each filled with its count of particles, and the aurora bands, the
   * draws read in that order.
   */
  method CreatePlanetEffects(config: Option<EffectsConfig>, rng: Rng) returns (e: Option<Effects>)
    modifies rng`cursor
    ensures e.None? <==> config.None?
    ensures config.None? ==> rng.cursor == old(rng.cursor)
    ensures e.Some? ==>
      var fx := e.value;
      && fresh(fx) && fresh(fx.lightning) && fx.config == config.value
      && fx.lightning.State() == Calm && fx.auroraPhase == 0.0
    ensures e.Some? ==>
      var c, fx := config.value, e.value;
      && |fx.debris| == DebrisTotal(c) && |fx.rain| == RainTotal(c) && |fx.snow| == SnowTotal(c)
      && |fx.sandstorm| == SandstormTotal(c) && |fx.bands| == BandTotal(c)
      && rng.cursor == old(rng.cursor) + 8 * DebrisTotal(c) + 5 * RainTotal(c) + 9 * SnowTotal(c)
                                       + 6 * SandstormTotal(c) + 3 * BandTotal(c)
    ensures config == Some(NoEffects) ==>
      var fx := e.value;
      fx.debris == [] && fx.rain == [] && fx.snow == [] && fx.sandstorm == [] && fx.bands == []
    ensures e.Some? && config.value.aurora.Some? ==>
      forall j :: 0 <= j < |e.value.bands| ==> BandColour(config.value.aurora.value, j, e.value.bands[j])
    ensures e.Some? && rng.Uniform() ==>
      var c, fx := config.value, e.value;
      && (forall p <- fx.debris :: DebrisFresh(p))
      && (c.rain.Some? ==> forall p <- fx.rain :: DropFresh(c.rain.value, p))
      && (forall p <- fx.snow :: FlakeFresh(p))
      && (forall p <- fx.sandstorm :: GrainFresh(p))
      && (forall b <- fx.bands :: BandFresh(b))
  {
    if config.None? {
      return None;
    }
    var c := config.value;
    var debris := SpawnDebris(c, rng);
    var rain := SpawnRain(c, rng);
    var snow := SpawnSnow(c, rng);
    var sandstorm := SpawnSandstorm(c, rng);
    var bands := SpawnBands(c, rng);
    var fx := new Effects(c);
    fx.debris, fx.rain, fx.snow, fx.sandstorm, fx.bands := debris, rain, snow, sandstorm, bands;
    e := Some(fx);
  }
}
