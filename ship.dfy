/**
 * The ship record and its flight controls (src/simulation/ship.js).
 *
 * The ship is one mutable object. Its `pos`, `vel` and `q` hold `Vec3` and
 * `Quat` objects in the simulator; here they hold the values those objects
 * contain, and every operation that replaces or mutates them assigns the
 * field.
 */
module ShipControl {
  import opened Elementary
  import opened Vectors

  /** `config.ship` */
  datatype ShipConfig = ShipConfig(
    startPosition: Vector,
    cruiseSpeed: real,
    turboSpeed: real,
    speedResponse: real,
    brakeResponse: real,
    cushionHeight: real,
    initialThrust: real)

  /** `config.controls` */
  datatype Controls = Controls(
    mouseSensitivity: real,
    rotationSmoothing: real,
    rollRate: real,
    rollSmoothing: real,
    thrustWheelStep: real)

  datatype Config = Config(ship: ShipConfig, controls: Controls)

  /** `ship.lookVelocity`, a plain `{x, y}` record. */
  datatype Look = Look(x: real, y: real)

  /** The ship's body axes before rotation. */
  const Forward: Vector := Vector(0.0, 0.0, 1.0)
  const Up: Vector := Vector(0.0, 1.0, 0.0)
  const Right: Vector := Vector(1.0, 0.0, 0.0)

  /** Roll is applied only above this roll speed. */
  const RollThreshold: real := 0.001
  /** Look velocity is applied only above this speed ... */
  const LookThreshold: real := 0.0001
  /** ... and is stopped outright below this one. */
  const LookStop: real := 0.01

  // ---------------------------------------------------------------
  // Throttle
  // ---------------------------------------------------------------

  /** The throttle after one wheel notch: `clamp(thrustSet - delta·step, 0, 1)`. */
  function WheelThrust(thrustSet: real, delta: real, step: real): (t: real)
    ensures 0.0 <= t <= 1.0
    ensures 0.0 <= thrustSet - delta * step <= 1.0 ==> t == thrustSet - delta * step
    ensures thrustSet - delta * step <= 0.0 ==> t == 0.0
    ensures 1.0 <= thrustSet - delta * step ==> t == 1.0
  {
    Clamp(thrustSet - delta * step, 0.0, 1.0)
  }

  /** The throttle for number key n: `clamp(n / 9, 0, 1)`; 9 is full, 0 is off. */
  function PresetThrust(n: real): (t: real)
    ensures 0.0 <= t <= 1.0
    ensures 0.0 <= n <= 9.0 ==> t == n / 9.0
    ensures n >= 9.0 ==> t == 1.0
    ensures n <= 0.0 ==> t == 0.0
  {
    Clamp(n / 9.0, 0.0, 1.0)
  }

  // ---------------------------------------------------------------
  // Speed
  // ---------------------------------------------------------------

  /** The commanded speed: turbo while W is held (whatever S does), 0 while only S is held, otherwise the throttle setting. */
  function TargetSpeed(keys: set<string>, thrustSet: real, c: ShipConfig): (v: real)
    ensures "KeyW" in keys ==> v == c.turboSpeed
    ensures "KeyW" !in keys && "KeyS" in keys ==> v == 0.0
    ensures "KeyW" !in keys && "KeyS" !in keys ==> v == thrustSet * c.cruiseSpeed
  {
    if "KeyW" in keys then c.turboSpeed
    else if "KeyS" in keys then 0.0
    else thrustSet * c.cruiseSpeed
  }

  /** With a throttle in [0, 1] and cruise ≤ turbo, the target lies in [0, turbo]. */
  lemma TargetSpeedRange(keys: set<string>, thrustSet: real, c: ShipConfig)
    requires 0.0 <= thrustSet <= 1.0
    requires 0.0 <= c.cruiseSpeed <= c.turboSpeed
    ensures 0.0 <= TargetSpeed(keys, thrustSet, c) <= c.turboSpeed
  {
    var v := TargetSpeed(keys, thrustSet, c);
    if "KeyW" in keys {
      assert v == c.turboSpeed;
    } else if "KeyS" in keys {
      assert v == 0.0;
    } else {
      assert v == thrustSet * c.cruiseSpeed;
      assert thrustSet * c.cruiseSpeed <= 1.0 * c.cruiseSpeed;
    }
  }

  /** The response rate: the brake response exactly when the target is 0. */
  function ResponseRate(target: real, c: ShipConfig): (r: real)
    ensures target == 0.0 ==> r == c.brakeResponse
    ensures target != 0.0 ==> r == c.speedResponse
  {
    if target == 0.0 then c.brakeResponse else c.speedResponse
  }

  /**
   * A zero throttle with neither W nor S held also selects the brake
   * response, since the test is on the target speed, not on the S key.
   */
  lemma IdleThrottleBrakes(keys: set<string>, c: ShipConfig)
    requires "KeyW" !in keys
    ensures ResponseRate(TargetSpeed(keys, 0.0, c), c) == c.brakeResponse
  {
    assert TargetSpeed(keys, 0.0, c) == 0.0;
  }

  /** `1 - Math.exp(-dt·rate)`, the fraction of the gap closed in one frame. */
  function Smoothing(m: Functions, dt: real, rate: real): (k: real)
    ensures ExpLaw(m) && dt * rate >= 0.0 ==> 0.0 <= k < 1.0
  {
    var x := -dt * rate;
    assert x == -(dt * rate);
    1.0 - m.exp(x)
  }

  /** `q.rotateVec(v).norm()`: a body axis in world space. */
  function AxisOf(m: Functions, q: Quaternion, v: Vector): Vector {
    Normalized(m, RotateVec(q, v))
  }

  /** A unit orientation turns a unit body axis into a unit world axis. */
  lemma AxisIsUnit(m: Functions, q: Quaternion, v: Vector)
    requires SqrtLaw(m)
    requires QLenSq(q) == 1.0 && LenSq(v) == 1.0
    ensures LenSq(AxisOf(m, q, v)) == 1.0
    ensures Length(m, AxisOf(m, q, v)) == 1.0
  {
    var w := RotateVec(q, v);
    RotateVecPreservesLength(q, v);
    SqrtOne(m);
    assert Length(m, w) == 1.0;
    NormalizedIsUnit(m, w);
  }

  /**
   * The velocity `updateShipSpeed` leaves, along a forward axis f: the
   * forward component moves towards the target by the fraction k, the
   * lateral remainder is damped by 1 - k/2.
   */
  function StepAlong(f: Vector, vel: Vector, target: real, k: real): Vector {
    var current := Dot(vel, f);
    var lateral := Difference(vel, Scale(f, current));
    Sum(Scale(f, Lerp(current, target, k)), Scale(lateral, 1.0 - k * 0.5))
  }

  /** The same step along the ship's own forward axis. */
  function SpeedStep(m: Functions, q: Quaternion, vel: Vector, target: real, k: real): Vector {
    StepAlong(AxisOf(m, q, Forward), vel, target, k)
  }

  /**
   * Along a unit axis, the new forward speed is exactly
   * lerp(old forward speed, target, k), and the new lateral velocity is the
   * old lateral velocity times 1 - k/2.
   */
  lemma StepAlongDecomposes(f: Vector, vel: Vector, target: real, k: real)
    requires LenSq(f) == 1.0
    ensures var v := StepAlong(f, vel, target, k);
            && Dot(v, f) == Lerp(Dot(vel, f), target, k)
            && Difference(v, Scale(f, Dot(v, f)))
               == Scale(Difference(vel, Scale(f, Dot(vel, f))), 1.0 - k * 0.5)
  {
    var current := Dot(vel, f);
    var lateral := Difference(vel, Scale(f, current));
    DotDifference(vel, Scale(f, current), f);
    DotScale(f, current, f);
    assert Dot(lateral, f) == 0.0;
    var c := 1.0 - k * 0.5;
    var n := Lerp(current, target, k);
    DotSum(Scale(f, n), Scale(lateral, c), f);
    DotScale(f, n, f);
    DotScale(lateral, c, f);
    var v := StepAlong(f, vel, target, k);
    assert Dot(v, f) == n;
  }

  /** For a unit orientation, the same holds along the ship's forward axis. */
  lemma SpeedStepDecomposes(m: Functions, q: Quaternion, vel: Vector, target: real, k: real)
    requires SqrtLaw(m) && QLenSq(q) == 1.0
    ensures var f := AxisOf(m, q, Forward);
            var v := SpeedStep(m, q, vel, target, k);
            && Dot(v, f) == Lerp(Dot(vel, f), target, k)
            && Difference(v, Scale(f, Dot(v, f)))
               == Scale(Difference(vel, Scale(f, Dot(vel, f))), 1.0 - k * 0.5)
  {
    AxisIsUnit(m, q, Forward);
    StepAlongDecomposes(AxisOf(m, q, Forward), vel, target, k);
  }

  /** Within one frame (k in [0, 1)) the forward speed ends between its old value and the target. */
  lemma SpeedStepApproachesTarget(m: Functions, q: Quaternion, vel: Vector, target: real, k: real)
    requires SqrtLaw(m) && QLenSq(q) == 1.0
    requires 0.0 <= k <= 1.0
    ensures var f := AxisOf(m, q, Forward);
            var v := SpeedStep(m, q, vel, target, k);
            Min(Dot(vel, f), target) <= Dot(v, f) <= Max(Dot(vel, f), target)
  {
    SpeedStepDecomposes(m, q, vel, target, k);
  }

  // ---------------------------------------------------------------
  // Orientation
  // ---------------------------------------------------------------

  /** +1 for E, -1 for Q, 0 for both or neither. */
  function RollInput(keys: set<string>): (r: real)
    ensures -1.0 <= r <= 1.0
    ensures r == 0.0 <==> ("KeyE" in keys <==> "KeyQ" in keys)
  {
    (if "KeyE" in keys then 1.0 else 0.0) - (if "KeyQ" in keys then 1.0 else 0.0)
  }

  /** A turn of roll·rollRate·dt about the ship's forward axis, renormalised. */
  function RollTurn(m: Functions, q: Quaternion, roll: real, rollRate: real, dt: real): Quaternion {
    var qRoll := FromAxisAngle(m, AxisOf(m, q, Forward), roll * rollRate * dt);
    QNormalized(m, QMul(qRoll, q))
  }

  /** The orientation after the roll step, given the already smoothed roll speed. */
  function Rolled(m: Functions, q: Quaternion, roll: real, rollRate: real, dt: real): Quaternion {
    if Abs(roll) > RollThreshold then RollTurn(m, q, roll, rollRate, dt) else q
  }

  /** `Math.sqrt(lookVelocity.x² + lookVelocity.y²)` */
  function LookSpeed(m: Functions, l: Look): real {
    m.sqrt(LookLenSq(l))
  }

  function LookLenSq(l: Look): real {
    l.x * l.x + l.y * l.y
  }

  /** The orientation after the yaw (about the up axis) and pitch (about the right axis) step. */
  function Looked(m: Functions, q: Quaternion, dx: real, dy: real, sensitivity: real): Quaternion {
    var qYaw := FromAxisAngle(m, AxisOf(m, q, Up), dx * sensitivity);
    var qPitch := FromAxisAngle(m, AxisOf(m, q, Right), -dy * sensitivity);
    QNormalized(m, QMul(qPitch, QMul(qYaw, q)))
  }

  /** The orientation `updateShipOrientation` leaves, from the new roll speed and the old look velocity. */
  function Oriented(m: Functions, q: Quaternion, roll: real, l: Look, dt: real, c: Controls): Quaternion {
    var q1 := Rolled(m, q, roll, c.rollRate, dt);
    if LookSpeed(m, l) > LookThreshold then Looked(m, q1, l.x, l.y, c.mouseSensitivity) else q1
  }

  /**
   * The look velocity `updateShipOrientation` leaves: untouched at look
   * speed ≤ 1e-4, stopped below 0.01, otherwise damped by the smoothing.
   */
  function LookAfter(m: Functions, l: Look, smoothing: real): (r: Look)
    ensures LookSpeed(m, l) <= LookThreshold ==> r == l
    ensures LookThreshold < LookSpeed(m, l) < LookStop ==> r == Look(0.0, 0.0)
    ensures LookStop <= LookSpeed(m, l) ==> r == ScaleLook(l, smoothing)
  {
    var s := LookSpeed(m, l);
    if s > LookThreshold then
      if s < LookStop then Look(0.0, 0.0) else ScaleLook(l, smoothing)
    else l
  }

  /** The look velocity multiplied by the smoothing factor. */
  function ScaleLook(l: Look, k: real): Look {
    Look(l.x * k, l.y * k)
  }

  /** Damping by a factor in [0, 1] does not raise the look speed. */
  lemma ScaleLookSlower(m: Functions, l: Look, k: real)
    requires SqrtLaw(m)
    requires 0.0 <= k <= 1.0
    ensures LookSpeed(m, ScaleLook(l, k)) <= LookSpeed(m, l)
  {
    var s0 := LookLenSq(l);
    var s1 := LookLenSq(ScaleLook(l, k));
    var kk := k * k;
    assert kk <= 1.0 by {
      assert k * k <= k * 1.0;
    }
    assert s1 == kk * s0;
    assert s0 >= 0.0;
    assert s0 - s1 == (1.0 - kk) * s0;
    ProductNonNegative(1.0 - kk, s0);
    ProductNonNegative(kk, s0);
    SqrtMonotone(m, s1, s0);
  }

  /** Stopping never raises the look speed. */
  lemma StopSlower(m: Functions, l: Look)
    requires SqrtLaw(m)
    ensures LookSpeed(m, Look(0.0, 0.0)) <= LookSpeed(m, l)
  {
    assert LookLenSq(l) >= 0.0;
    SqrtMonotone(m, LookLenSq(Look(0.0, 0.0)), LookLenSq(l));
  }

  /** With a smoothing factor in [0, 1], a frame never increases the look speed. */
  lemma LookSpeedNeverGrows(m: Functions, l: Look, smoothing: real)
    requires SqrtLaw(m)
    requires 0.0 <= smoothing <= 1.0
    ensures LookSpeed(m, LookAfter(m, l, smoothing)) <= LookSpeed(m, l)
  {
    var s := LookSpeed(m, l);
    if s > LookThreshold {
      if s < LookStop {
        StopSlower(m, l);
      } else {
        ScaleLookSlower(m, l, smoothing);
      }
    }
  }

  /** The roll step keeps a unit orientation a unit quaternion. */
  lemma RolledIsUnit(m: Functions, q: Quaternion, roll: real, rollRate: real, dt: real)
    requires SqrtLaw(m) && PythagoreanLaw(m)
    requires QLenSq(q) == 1.0
    ensures QLenSq(Rolled(m, q, roll, rollRate, dt)) == 1.0
  {
    if Abs(roll) > RollThreshold {
      var qRoll := FromAxisAngle(m, AxisOf(m, q, Forward), roll * rollRate * dt);
      assert RollTurn(m, q, roll, rollRate, dt) == QNormalized(m, QMul(qRoll, q));
      TurnTimesUnit(m, q, Forward, roll * rollRate * dt, q);
      QNormalizedOfUnit(m, QMul(qRoll, q));
    }
  }

  /** A turn about a world axis obtained from a unit orientation is a unit quaternion. */
  lemma TurnIsUnit(m: Functions, q: Quaternion, axis: Vector, angle: real)
    requires SqrtLaw(m) && PythagoreanLaw(m)
    requires QLenSq(q) == 1.0 && LenSq(axis) == 1.0
    ensures QLenSq(FromAxisAngle(m, AxisOf(m, q, axis), angle)) == 1.0
  {
    AxisIsUnit(m, q, axis);
    FromAxisAngleIsUnit(m, AxisOf(m, q, axis), angle);
  }

  /** Such a turn composed with a unit quaternion is a unit quaternion. */
  lemma TurnTimesUnit(m: Functions, q: Quaternion, axis: Vector, angle: real, r: Quaternion)
    requires SqrtLaw(m) && PythagoreanLaw(m)
    requires QLenSq(q) == 1.0 && LenSq(axis) == 1.0 && QLenSq(r) == 1.0
    ensures QLenSq(QMul(FromAxisAngle(m, AxisOf(m, q, axis), angle), r)) == 1.0
  {
    TurnIsUnit(m, q, axis, angle);
    QMulLenSq(FromAxisAngle(m, AxisOf(m, q, axis), angle), r);
  }

  /** So does the look step. */
  lemma LookedIsUnit(m: Functions, q: Quaternion, dx: real, dy: real, sensitivity: real)
    requires SqrtLaw(m) && PythagoreanLaw(m)
    requires QLenSq(q) == 1.0
    ensures QLenSq(Looked(m, q, dx, dy, sensitivity)) == 1.0
  {
    forall angle
      ensures QLenSq(FromAxisAngle(m, AxisOf(m, q, Up), angle)) == 1.0
      ensures QLenSq(FromAxisAngle(m, AxisOf(m, q, Right), angle)) == 1.0
    {
      TurnIsUnit(m, q, Up, angle);
      TurnIsUnit(m, q, Right, angle);
    }
    forall a, b {:trigger QMul(a, b)} | QLenSq(a) == 1.0 && QLenSq(b) == 1.0
      ensures QLenSq(QMul(a, b)) == 1.0
    {
      QMulLenSq(a, b);
    }
    forall p {:trigger QNormalized(m, p)} | QLenSq(p) == 1.0
      ensures QNormalized(m, p) == p
    {
      QNormalizedOfUnit(m, p);
    }
  }

  /** `updateShipOrientation` keeps the orientation a unit quaternion. */
  lemma OrientedIsUnit(m: Functions, q: Quaternion, roll: real, l: Look, dt: real, c: Controls)
    requires SqrtLaw(m) && PythagoreanLaw(m)
    requires QLenSq(q) == 1.0
    ensures QLenSq(Oriented(m, q, roll, l, dt, c)) == 1.0
  {
    RolledIsUnit(m, q, roll, c.rollRate, dt);
    LookedIsUnit(m, Rolled(m, q, roll, c.rollRate, dt), l.x, l.y, c.mouseSensitivity);
  }

  /** From a roll speed in [-1, 1], one frame of smoothing towards the key input stays in [-1, 1]. */
  lemma RollSpeedBounded(m: Functions, roll: real, keys: set<string>, dt: real, c: Controls)
    requires ExpLaw(m) && dt * c.rollSmoothing >= 0.0
    requires -1.0 <= roll <= 1.0
    ensures -1.0 <= Lerp(roll, RollInput(keys), Smoothing(m, dt, c.rollSmoothing)) <= 1.0
  {
    var k := Smoothing(m, dt, c.rollSmoothing);
    var r := RollInput(keys);
    assert Min(roll, r) <= Lerp(roll, r, k) <= Max(roll, r);
  }

  // ---------------------------------------------------------------
  // Mouse look impulse
  // ---------------------------------------------------------------

  function Pow(s: real, n: nat): real {
    if n == 0 then 1.0 else s * Pow(s, n - 1)
  }

  /** The look velocity summed over n frames, starting at v and damped by s each frame. */
  function DampedTotal(v: real, s: real, n: nat): real
    decreases n
  {
    if n == 0 then 0.0 else v + DampedTotal(v * s, s, n - 1)
  }

  /** The geometric sum in closed form: (1 - s)·(v + v·s + … + v·sⁿ⁻¹) = v·(1 - sⁿ). */
  lemma {:induction false} DampedTotalClosed(v: real, s: real, n: nat)
    ensures (1.0 - s) * DampedTotal(v, s, n) == v * (1.0 - Pow(s, n))
    decreases n
  {
    if n > 0 {
      DampedTotalClosed(v * s, s, n - 1);
      var t := DampedTotal(v * s, s, n - 1);
      var p := Pow(s, n - 1);
      assert (1.0 - s) * t == (v * s) * (1.0 - p);
      assert (1.0 - s) * (v + t) == v - v * s + (1.0 - s) * t;
      assert Pow(s, n) == s * p;
    }
  }

  lemma {:induction false} DampedTotalOfZero(s: real, n: nat)
    ensures DampedTotal(0.0, s, n) == 0.0
    decreases n
  {
    if n > 0 {
      assert 0.0 * s == 0.0;
      DampedTotalOfZero(s, n - 1);
    }
  }

  /**
   * Scaling an impulse dx by 1 - s makes the look rotation it causes over n
   * frames of damping sum to dx·(1 - sⁿ), which tends to dx for s in [0, 1)
   * (ignoring the hard stop at small speeds).
   */
  lemma MouseImpulseTotal(dx: real, s: real, n: nat)
    ensures DampedTotal(dx * (1.0 - s), s, n) == dx * (1.0 - Pow(s, n))
  {
    var v := dx * (1.0 - s);
    if s == 1.0 {
      assert v == 0.0;
      DampedTotalOfZero(s, n);
      PowOfOne(n);
    } else {
      DampedTotalClosed(v, s, n);
      var t := DampedTotal(v, s, n);
      var e := dx * (1.0 - Pow(s, n));
      assert (1.0 - s) * (t - e) == 0.0;
      NonZeroFactor(1.0 - s, t - e);
    }
  }

  lemma NonZeroFactor(a: real, b: real)
    requires a != 0.0 && a * b == 0.0
    ensures b == 0.0
  {
    assert b == (a * b) / a;
  }

  lemma {:induction false} PowOfOne(n: nat)
    ensures Pow(1.0, n) == 1.0
    decreases n
  {
    if n > 0 {
      PowOfOne(n - 1);
    }
  }

  // ---------------------------------------------------------------
  // The ship
  // ---------------------------------------------------------------

  class Ship {
    var pos: Vector
    var vel: Vector
    var q: Quaternion
    var thrustSet: real
    var rollCurrent: real
    var lookVelocity: Look

    /** What every control operation preserves: a throttle in [0, 1] and a unit orientation. */
    ghost predicate Valid()
      reads this
    {
      0.0 <= thrustSet <= 1.0 && QLenSq(q) == 1.0
    }

    /** `createShip(config)` */
    constructor (config: Config)
      ensures pos == config.ship.startPosition
      ensures vel == Vector(0.0, 0.0, config.ship.initialThrust * config.ship.cruiseSpeed)
      ensures q == Identity
      ensures thrustSet == config.ship.initialThrust
      ensures rollCurrent == 0.0 && lookVelocity == Look(0.0, 0.0)
      ensures 0.0 <= config.ship.initialThrust <= 1.0 ==> Valid()
    {
      var c := config.ship;
      pos := c.startPosition;
      vel := Vector(0.0, 0.0, c.initialThrust * c.cruiseSpeed);
      q := Identity;
      thrustSet := c.initialThrust;
      rollCurrent := 0.0;
      lookVelocity := Look(0.0, 0.0);
    }

    /** `adjustThrust(ship, delta, config)` */
    method AdjustThrust(delta: real, c: Controls)
      modifies this`thrustSet
      ensures thrustSet == WheelThrust(old(thrustSet), delta, c.thrustWheelStep)
      ensures old(QLenSq(q)) == 1.0 ==> Valid()
    {
      thrustSet := Clamp(thrustSet - delta * c.thrustWheelStep, 0.0, 1.0);
    }

    /** `setThrustPreset(ship, n)` */
    method SetThrustPreset(n: real)
      modifies this`thrustSet
      ensures thrustSet == PresetThrust(n)
      ensures old(QLenSq(q)) == 1.0 ==> Valid()
    {
      thrustSet := Clamp(n / 9.0, 0.0, 1.0);
    }

    /** `handleMouseLook(ship, dx, dy, config)`: adds the scaled impulse; nothing else changes. */
    method HandleMouseLook(dx: real, dy: real, c: Controls)
      modifies this`lookVelocity
      ensures lookVelocity == Look(old(lookVelocity.x) + dx * (1.0 - c.rotationSmoothing),
                                   old(lookVelocity.y) + dy * (1.0 - c.rotationSmoothing))
    {
      lookVelocity := Look(lookVelocity.x + dx * (1.0 - c.rotationSmoothing),
                           lookVelocity.y + dy * (1.0 - c.rotationSmoothing));
    }

    /** `updateShipSpeed(ship, keys, dt, config)` */
    method UpdateShipSpeed(m: Functions, keys: set<string>, dt: real, c: ShipConfig)
      modifies this`vel
      ensures var target := TargetSpeed(keys, thrustSet, c);
              vel == SpeedStep(m, q, old(vel), target, Smoothing(m, dt, ResponseRate(target, c)))
    {
      var forward := AxisOf(m, q, Forward);
      var targetSpeed;
      if "KeyW" in keys {
        targetSpeed := c.turboSpeed;
      } else if "KeyS" in keys {
        targetSpeed := 0.0;
      } else {
        targetSpeed := thrustSet * c.cruiseSpeed;
      }
      assert targetSpeed == TargetSpeed(keys, thrustSet, c);
      var currentForwardSpeed := Dot(vel, forward);
      var response := if targetSpeed == 0.0 then c.brakeResponse else c.speedResponse;
      var k := Smoothing(m, dt, response);
      ghost var step := StepAlong(forward, vel, targetSpeed, k);
      var newForwardSpeed := Lerp(currentForwardSpeed, targetSpeed, k);
      var forwardVel := Scale(forward, currentForwardSpeed);
      var lateralVel := Difference(vel, forwardVel);
      lateralVel := Scale(lateralVel, 1.0 - k * 0.5);
      vel := Sum(Scale(forward, newForwardSpeed), lateralVel);
      assert vel == step;
    }

    /** `updateShipOrientation(ship, keys, dt, config)` */
    method UpdateShipOrientation(m: Functions, keys: set<string>, dt: real, c: Controls)
      modifies this`rollCurrent, this`q, this`lookVelocity
      ensures rollCurrent == Lerp(old(rollCurrent), RollInput(keys), Smoothing(m, dt, c.rollSmoothing))
      ensures q == Oriented(m, old(q), rollCurrent, old(lookVelocity), dt, c)
      ensures lookVelocity == LookAfter(m, old(lookVelocity), c.rotationSmoothing)
      ensures SqrtLaw(m) && PythagoreanLaw(m) && old(Valid()) ==> Valid()
    {
      var rollInput := RollInput(keys);
      var k := Smoothing(m, dt, c.rollSmoothing);
      var roll := Lerp(rollCurrent, rollInput, k);
      rollCurrent := roll;

      if Abs(roll) > RollThreshold {
        q := RollTurn(m, q, roll, c.rollRate, dt);
      }

      var look := lookVelocity;
      var lookSpeed := LookSpeed(m, look);
      if lookSpeed > LookThreshold {
        q := Looked(m, q, look.x, look.y, c.mouseSensitivity);
        lookVelocity := ScaleLook(look, c.rotationSmoothing);
        if lookSpeed < LookStop {
          lookVelocity := Look(0.0, 0.0);
        }
      }

      if SqrtLaw(m) && PythagoreanLaw(m) && old(Valid()) {
        OrientedIsUnit(m, old(q), rollCurrent, old(lookVelocity), dt, c);
      }
    }
  }
}
