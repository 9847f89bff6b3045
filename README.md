# spaceglider core in Dafny

A Dafny model of the simulation core of spaceglider, a browser space-flight
game. The ship flies through a system of planets and moons on Keplerian
orbits. It feels the softened gravity of every body, is slowed by
atmospheric drag, and is kept off the ground by a glide cushion. A star
field, weather particles and lightning are drawn around the camera.

The modules follow the source files:

| module | file | source |
|---|---|---|
| `Options` | options.dfy | JavaScript's `??` and `||` defaulting |
| `Elementary` | elementary.dfy | `Math.sqrt/sin/cos/tan/atan2/exp`, kept uninterpreted, and the laws the proofs assume about them |
| `Random` | random.dfy | `Math.random()` as a stream of draws with a cursor |
| `Vectors` | vectors.dfy | src/core/math.js |
| `Universe` | universe.dfy | src/world/universe.js |
| `Orbits` | orbits.dfy | src/simulation/orbits.js |
| `ShipControl` | ship.dfy | src/simulation/ship.js |
| `Physics` | physics.dfy | src/simulation/physics.js |
| `Camera` | camera.dfy | src/rendering/camera.js (colours and projection) |
| `Effects` | effects.dfy | src/rendering/effects.js (creation and update, not drawing) |
| `Stars` | stars.dfy | src/rendering/stars.js (creation and wrap-around, not drawing) |

Numbers are `real`. Transcendental functions are the fields of an
`Elementary.Functions` record passed as a parameter. A property that needs
one of them assumes only a named law: `SqrtLaw` (√x ≥ 0 and √x·√x = x for
x ≥ 0), `PythagoreanLaw` (sin² + cos² = 1), `ExpLaw` (exp is positive and at
most 1 on non-positive arguments) or `ZeroAngleLaw` (sin 0 = 0, cos 0 = 1 and atan2(0, x) = 0 for x > 0).

`Math.random()` is a `Random.Rng` object. It holds a fixed stream
`draw: nat -> real` and a cursor that advances by one per call.
`Uniform()` says that every draw lies in [0, 1).

The mutable JavaScript objects are classes whose methods update their
fields in place:

- `Vec3` and `Quat` in `Vectors`.
- The planet in `Universe.Planet`; `updateOrbits` writes its `position`.
- The orbital state in `Orbits.OrbitalState`.
- The ship in `ShipControl.Ship`.
- The lightning record in `Effects.Lightning`.
- The effects object in `Effects.Effects`.

Each method is proved against a specification function of the old state,
and the properties are proved about those functions.

## Model

| member | source | states |
|---|---|---|
| Vectors.Clamp | src/core/math.js:1-3 | The result lies in [a, b] when a ≤ b; it is v when v is in range, a below the range and b above it |
| Vectors.Lerp | src/core/math.js:5-7 | lerp(a, b, 0) = a and lerp(a, b, 1) = b; for t in [0, 1] the result lies between a and b |
| Vectors.RandRangeBounds | src/core/math.js:9-11 | For a draw in [0, 1), randRange(a, b) lies in [a, b) (in (b, a] when b < a), and is a when a = b |
| Vectors.Cross | src/core/math.js:71-77 | The cross product is orthogonal to both arguments: a·(a×b) = 0 and b·(a×b) = 0 |
| Vectors.DotSum | src/core/math.js:67-69 | The dot product is additive in its first argument |
| Vectors.DotScale | src/core/math.js:67-69 | The dot product is homogeneous in its first argument |
| Vectors.LengthLaw | src/core/math.js:45-47 | `len()` is non-negative and its square is x² + y² + z² |
| Vectors.LengthScale | src/core/math.js:45-47 | \|s·a\| = \|s\|·\|a\| |
| Vectors.NormalizedIsUnit | src/core/math.js:49-53 | `norm` of a vector longer than 1e-9 has length 1 and points in the vector's own direction |
| Vectors.NormalizedZero | src/core/math.js:49-53 | `norm` leaves the zero vector unchanged |
| Vectors.NormalizedAtMostUnit | src/core/math.js:49-53 | Whatever `norm` does, the length afterwards is at most 1 |
| Vectors.QMul | src/core/math.js:106-113 | Quat(0,0,0,1) is a two-sided identity of `Quat.mul` |
| Vectors.QMulLenSq | src/core/math.js:106-113 | The Hamilton product multiplies squared lengths, so the product of unit quaternions is a unit quaternion |
| Vectors.QNormalizedSpec | src/core/math.js:92-104 | `Quat.norm` leaves a quaternion of length ≤ 1e-12 unchanged and makes any other a unit quaternion |
| Vectors.QNormalizedOfUnit | src/core/math.js:92-104 | A unit quaternion is left unchanged by `norm` |
| Vectors.RotateVec | src/core/math.js:122-137 | `rotateVec` by the identity quaternion returns v |
| Vectors.RotateVecPreservesLength | src/core/math.js:122-137 | Rotating by a unit quaternion preserves the squared length |
| Vectors.FromAxisAngleZero | src/core/math.js:115-120 | A zero angle gives the identity rotation about any axis |
| Vectors.FromAxisAngleIsUnit | src/core/math.js:115-120 | About an axis longer than 1e-9, `fromAxisAngle` gives a unit quaternion |
| Vectors.Vec3.constructor | src/core/math.js:14-18 | The new object holds the given components |
| Vectors.Vec3.Clone | src/core/math.js:20-22 | `clone` returns a fresh object with the same components |
| Vectors.Vec3.Add | src/core/math.js:24-29 | In-place `add` leaves exactly the components static `Vec3.add` returns |
| Vectors.Vec3.Sub | src/core/math.js:31-36 | In-place `sub` leaves exactly the components static `Vec3.sub` returns |
| Vectors.Vec3.Mul | src/core/math.js:38-43 | In-place `mul` leaves exactly the components static `Vec3.mul` returns |
| Vectors.Vec3.Norm | src/core/math.js:49-53 | In-place `norm` leaves the normalised value; a vector of length ≤ 1e-9 is unchanged |
| Vectors.Vec3.AddNew | src/core/math.js:55-57 | Static `add` returns a fresh object holding the sum and leaves both arguments unchanged |
| Vectors.Vec3.SubNew | src/core/math.js:59-61 | Static `sub` returns a fresh object holding the difference and leaves both arguments unchanged |
| Vectors.Vec3.MulNew | src/core/math.js:63-65 | Static `mul` returns a fresh scaled object and leaves its argument unchanged |
| Vectors.Vec3.CrossNew | src/core/math.js:71-77 | Static `cross` returns a fresh object holding the cross product and leaves both arguments unchanged |
| Vectors.Quat.constructor | src/core/math.js:81-86 | The new object holds the given components |
| Vectors.Quat.Clone | src/core/math.js:88-90 | `clone` returns a fresh object with the same components |
| Vectors.Quat.Norm | src/core/math.js:92-104 | In-place `norm` leaves the normalised value; a quaternion of length ≤ 1e-12 is unchanged |
| Universe.CreatePlanetDefaults | src/world/universe.js:3-19 | With no options every field is the default and the position is (0, 0, 20000) |
| Universe.CreatePlanetOverrides | src/world/universe.js:3-19 | A present option always wins, including a present 0 or empty string |
| Universe.CreatePlanetFieldwise | src/world/universe.js:5-17 | Each field independently comes from the options when present and from the defaults otherwise: position (else (0, 0, 20000)), radius, atmosphereRadius, GM, each colour field even when `colors` is present but lacks it, and dragStrength even when `physics` is present but lacks it |
| Universe.Planet.constructor | src/world/universe.js:4-18 | A planet object holds its name and the fields `createPlanet` produced |
| Universe.AtmosphereFactor | src/world/universe.js:46-50 | `tAtmo` lies in [0, 1] |
| Universe.AtmosphereFactorEnds | src/world/universe.js:46-50 | With atmosphereRadius > radius, tAtmo is 1 at or below the surface, 0 at or beyond the atmosphere's edge, and the linear ratio in between |
| Universe.AtmosphereFactorMonotone | src/world/universe.js:46-50 | tAtmo never grows with the distance from the centre |
| Universe.NearestPlanetInfo | src/world/universe.js:29-53 | Null exactly for an empty list. Otherwise the chosen planet has the least centre distance, and every earlier planet is strictly farther, so the first wins ties. d, r, altitude = r − radius (unclamped) and tAtmo are those of the chosen planet |
| Orbits.ReduceAnomaly | src/simulation/orbits.js:15-16 | The reduced mean anomaly lies in [0, 2π); an anomaly already in [0, 2π) is unchanged |
| Orbits.RemainderBounds | src/simulation/orbits.js:15 | JavaScript's `M % 2π` keeps the sign of M: it lies in [0, 2π) for M ≥ 0 and in (−2π, 0] for M < 0, and differs from M by whole turns |
| Orbits.ReduceAnomalyCongruent | src/simulation/orbits.js:15-16 | The reduced anomaly denotes the same angle as M |
| Orbits.ReduceAnomalyPeriodic | src/simulation/orbits.js:15-16 | Adding whole turns to M does not change the reduced anomaly |
| Orbits.KeplerDefinedForEllipse | src/simulation/orbits.js:26 | For \|e\| < 1 the Newton denominator 1 − e·cos E is positive at every E |
| Orbits.NewtonStructure | src/simulation/orbits.js:25-29 | The loop applies between 1 and the iteration budget of corrections. Every correction before the last was at least 1e-8 in magnitude, and a loop that stops early stops right after the first correction below 1e-8 |
| Orbits.KeplerSolveStructure | src/simulation/orbits.js:13-32 | `solveKepler` starts at π when e > 0.8 and at the reduced anomaly otherwise, and applies 1 to 10 corrections with the early-stop rule |
| Orbits.SolveKepler | src/simulation/orbits.js:13-32 | The loop computes exactly the eccentric anomaly the specification function describes |
| Orbits.OrbitalPosition | src/simulation/orbits.js:42-83 | The returned position minus the parent position is the orbital offset (xOrbit, yOrbit·sin inc, yOrbit·cos inc) |
| Orbits.OffsetXIgnoresInclination | src/simulation/orbits.js:67-75 | The x component of the offset does not depend on the inclination |
| Orbits.TiltLength | src/simulation/orbits.js:67-75 | Tilting by the inclination keeps the length of the in-plane point |
| Orbits.InPlaneLength | src/simulation/orbits.js:55-63 | The in-plane point (r cos ν, r sin ν) lies at distance \|r\| from the focus |
| Orbits.OffsetLength | src/simulation/orbits.js:42-83 | The offset's length is \|a·(1 − e·cos E)\|, whatever the inclination |
| Orbits.CircularOrbitRadius | src/simulation/orbits.js:42-83 | With e = 0 the body stays at distance \|a\| from its parent |
| Orbits.FocalDistanceBounds | src/simulation/orbits.js:59 | For \|e\| ≤ 1, \|r\| lies between \|a\|(1 − \|e\|) and \|a\|(1 + \|e\|) |
| Orbits.OffsetBounded | src/simulation/orbits.js:42-83 | For \|e\| ≤ 1 the distance to the parent lies between the periapsis and apoapsis distances |
| Orbits.StartsAtPeriapsis | src/simulation/orbits.js:42-83 | With start angle 0 and 0 ≤ e ≤ 0.8, a body at time 0 is at periapsis, a·(1 − e) along x |
| Orbits.RegistryContents | src/simulation/orbits.js:96-104 | The lookup has one entry per configured name, each at the origin with no previous position and with parentName = orbit.parent |
| Orbits.RegistryLastWins | src/simulation/orbits.js:97-104 | A later configuration with the same name replaces an earlier one |
| Orbits.OrbitalState.constructor | src/simulation/orbits.js:92-111 | `initializeOrbits` fills the lookup in a loop, equal to the registry of the configurations, and keeps the sun position with the clock at 0 |
| Orbits.Advance | src/simulation/orbits.js:138-141 | An update stores the old position as prevPosition and keeps the name, orbit and parent |
| Orbits.SunStep | src/simulation/orbits.js:127-144 | One step of the first loop keeps every orbit evaluable |
| Orbits.SunPass | src/simulation/orbits.js:126-145 | The first loop keeps every orbit evaluable |
| Orbits.MoonStep | src/simulation/orbits.js:149-170 | One step of the second loop keeps every orbit evaluable |
| Orbits.MoonPass | src/simulation/orbits.js:148-171 | The second loop keeps every orbit evaluable |
| Orbits.SunPassKeys | src/simulation/orbits.js:126-145 | The first loop keeps the set of names in the lookup |
| Orbits.MoonPassKeys | src/simulation/orbits.js:148-171 | The second loop keeps the set of names in the lookup |
| Orbits.SunPassEntry | src/simulation/orbits.js:126-145 | The first loop moves exactly the sun-orbiting bodies whose name it visits, to their orbital position around the sun, storing the old position; every other entry is unchanged |
| Orbits.MoonPassEntry | src/simulation/orbits.js:148-171 | The second loop moves exactly the visited moons whose parent resolves, around the parent's current position; moons with an unresolved parent and bodies not visited are unchanged |
| Orbits.UpdatedLookupEntry | src/simulation/orbits.js:121-172 | After `updateOrbits` a sun orbiter is at its position around the sun. A moon of such a planet is placed around the parent's new position from the same call. prevPosition is the position before the call. Unknown and unresolved bodies are unchanged |
| Orbits.PlanetMirrorsBody | src/simulation/orbits.js:140-170 | Each planet object ends at its lookup entry's new position when the body moves: always for a sun-orbiter or a moon of a sun-orbiter, and, when no name repeats, for every moon whose parent resolves (a moon of a moon too); an object nothing writes keeps its old position |
| Orbits.OrbitalState.UpdateOrbits | src/simulation/orbits.js:121-172 | The clock advances by exactly dt; the lookup and every planet object end as the two passes specify |
| Orbits.OrbitalState.RunSunPass | src/simulation/orbits.js:126-145 | The first loop leaves the lookup and the planet objects as the sun-pass function specifies |
| Orbits.OrbitalState.UpdateSunOrbiter | src/simulation/orbits.js:127-144 | One iteration of the first loop: skip unless the body orbits the sun; otherwise update the entry and copy its position into the planet |
| Orbits.OrbitalState.RunMoonPass | src/simulation/orbits.js:148-171 | The second loop leaves the lookup and the planet objects as the moon-pass function specifies |
| Orbits.OrbitalState.UpdateMoon | src/simulation/orbits.js:149-170 | One iteration of the second loop: skip a sun orbiter, an unknown body or one whose parent does not resolve |
| Orbits.PlanetVelocity | src/simulation/orbits.js:181-193 | Zero for an unknown name, a missing prevPosition or dt ≤ 0. Otherwise velocity·dt = position − prevPosition |
| Orbits.VelocityAfterUpdate | src/simulation/orbits.js:181-193 | Right after an update, a sun orbiter's velocity times dt is its displacement over that update |
| Orbits.OrbitalState.GetPlanetVelocity | src/simulation/orbits.js:181-193 | The method returns the velocity the specification function describes |
| Physics.SofteningRadius | src/simulation/physics.js:9 | The softening radius is the body's radius when present and 500 otherwise |
| Physics.Softening | src/simulation/physics.js:10 | The softening term (0.25·radius)² is never negative |
| Physics.SofteningValues | src/simulation/physics.js:9-10 | A body of radius R is softened by R²/16, and one without a radius by 15625 |
| Physics.SoftenedIsDefined | src/simulation/physics.js:11 | A positive softening makes the denominator r² + softening non-zero at every ship position |
| Physics.PullMagnitude | src/simulation/physics.js:11 | The magnitude GM/(r² + softening) is non-negative for GM ≥ 0 and at most GM/softening |
| Physics.BodyGravityBounded | src/simulation/physics.js:4-15 | With softening > 0 and GM ≥ 0, one body's pull has length at most GM/softening |
| Physics.BodyGravityAtCentre | src/simulation/physics.js:4-15 | At the body's centre `norm` leaves the zero difference alone and the pull is the zero vector |
| Physics.BodyGravityAttracts | src/simulation/physics.js:4-15 | With GM ≥ 0 the pull never points away from the body |
| Physics.GravitySumRemove | src/simulation/physics.js:21-25 | Taking one body out of the list and adding its pull last gives the same sum |
| Physics.GravitySumPermutation | src/simulation/physics.js:21-25 | The summed pull is the same for any permutation of the bodies |
| Physics.TotalGravityOrderIndependent | src/simulation/physics.js:18-34 | `computeTotalGravity` does not depend on the order of the planets |
| Physics.ComputeTotalGravity | src/simulation/physics.js:18-34 | The loop returns the pulls of all planets summed, plus the sun's only when the sun exists and its GM is non-zero |
| Physics.Damping | src/simulation/physics.js:43-44 | The damping factor max(0, 1 − drag·dt) is never negative, and at most 1 when drag·dt ≥ 0 |
| Physics.Dragged | src/simulation/physics.js:41-46 | tAtmo ≤ 0 leaves the velocity unchanged. Drag never reverses the velocity, and with drag·dt ≥ 0 it never speeds the ship up |
| Physics.DampedVector | src/simulation/physics.js:44-45 | Scaling by a factor in [0, 1] keeps the direction and does not increase the length |
| Physics.ApplyDrag | src/simulation/physics.js:41-46 | The velocity object ends as the drag function specifies |
| Physics.CancelInward | src/simulation/physics.js:60-63 | Along a unit direction, the radial component afterwards is ≥ 0 and the tangential component is unchanged |
| Physics.CushionOutcome | src/simulation/physics.js:53-65 | Below the cushion and away from the exact centre, the ship ends at distance radius + cushionHeight and its radial velocity is ≥ 0 after the 0.998 damping |
| Physics.CushionAtCentre | src/simulation/physics.js:49-58 | At the exact centre the outward direction is zero and the ship stays at the centre |
| Physics.ApplyGlideCushion | src/simulation/physics.js:48-67 | At or above the cushion height nothing changes; below it the position and velocity are those the cushion functions give |
| Physics.CappedVelocity | src/simulation/physics.js:72-77 | With maxSpeed ≤ 0, or at or under the cap, the velocity is unchanged; with maxSpeed > 0 the speed afterwards is at most maxSpeed |
| Physics.ScaledToSpeed | src/simulation/physics.js:74-76 | A velocity over the cap is scaled to exactly maxSpeed |
| Physics.Integrate | src/simulation/physics.js:69-80 | The velocity gains accel·dt and is capped, and with maxSpeed > 0 its speed is at most maxSpeed. The position then advances by the new velocity times dt |
| ShipControl.WheelThrust | src/simulation/ship.js:106-112 | The throttle after a wheel notch lies in [0, 1] and is thrustSet − delta·step clamped |
| ShipControl.PresetThrust | src/simulation/ship.js:114-116 | The preset throttle lies in [0, 1] and is n/9 clamped: 9 gives 1 and 0 gives 0 |
| ShipControl.TargetSpeed | src/simulation/ship.js:76-84 | turboSpeed while W is held, even with S; 0 with only S; otherwise thrustSet·cruiseSpeed |
| ShipControl.TargetSpeedRange | src/simulation/ship.js:76-84 | With a throttle in [0, 1] and 0 ≤ cruise ≤ turbo, the target lies in [0, turbo] |
| ShipControl.ResponseRate | src/simulation/ship.js:91 | brakeResponse exactly when the target is 0, speedResponse otherwise |
| ShipControl.IdleThrottleBrakes | src/simulation/ship.js:76-91 | With W not held and the throttle at 0, the brake response is used |
| ShipControl.Smoothing | src/simulation/ship.js:92 | The factor 1 − exp(−dt·rate) lies in [0, 1) for dt·rate ≥ 0 |
| ShipControl.AxisIsUnit | src/simulation/ship.js:74 | A unit orientation turns a unit body axis into a unit world axis |
| ShipControl.StepAlongDecomposes | src/simulation/ship.js:87-103 | Along a unit axis the new forward speed is lerp(old forward speed, target, k), and the lateral velocity is the old one times 1 − k/2 |
| ShipControl.SpeedStepDecomposes | src/simulation/ship.js:73-104 | The same decomposition holds along the ship's own forward axis for a unit orientation |
| ShipControl.SpeedStepApproachesTarget | src/simulation/ship.js:87-93 | For k in [0, 1] the new forward speed lies between the old forward speed and the target |
| ShipControl.RollInput | src/simulation/ship.js:19 | The roll input lies in [−1, 1] and is 0 exactly when E and Q are both held or both released |
| ShipControl.RollSpeedBounded | src/simulation/ship.js:19-23 | A roll speed in [−1, 1] stays in [−1, 1] after smoothing towards the input |
| ShipControl.LookAfter | src/simulation/ship.js:34-60 | Look speed ≤ 1e-4 leaves lookVelocity untouched; below 0.01 it ends at (0, 0); otherwise it is damped by the smoothing factor |
| ShipControl.LookSpeedNeverGrows | src/simulation/ship.js:51-59 | With a smoothing factor in [0, 1], a frame never increases the look speed |
| ShipControl.RolledIsUnit | src/simulation/ship.js:25-32 | The roll step keeps the orientation a unit quaternion |
| ShipControl.LookedIsUnit | src/simulation/ship.js:36-49 | The yaw-and-pitch step keeps the orientation a unit quaternion |
| ShipControl.OrientedIsUnit | src/simulation/ship.js:17-61 | `updateShipOrientation` keeps the orientation a unit quaternion |
| ShipControl.DampedTotalClosed | src/simulation/ship.js:67-70 | The look velocity summed over n damped frames satisfies (1 − s)·total = v·(1 − sⁿ) |
| ShipControl.MouseImpulseTotal | src/simulation/ship.js:67-70 | An impulse dx scaled by 1 − s adds up to dx·(1 − sⁿ) of look velocity over n frames, approaching dx as the source's comment describes |
| ShipControl.Ship.constructor | src/simulation/ship.js:3-15 | `createShip`: the start position, velocity (0, 0, initialThrust·cruiseSpeed), the identity orientation, thrustSet = initialThrust, no roll and no look velocity; the ship invariant holds for an initial thrust in [0, 1] |
| ShipControl.Ship.AdjustThrust | src/simulation/ship.js:106-112 | Only thrustSet changes, to the wheel throttle; the ship invariant holds afterwards |
| ShipControl.Ship.SetThrustPreset | src/simulation/ship.js:114-116 | Only thrustSet changes, to the preset throttle; the ship invariant holds afterwards |
| ShipControl.Ship.HandleMouseLook | src/simulation/ship.js:63-71 | lookVelocity gains dx·(1 − smoothing) and dy·(1 − smoothing); nothing else changes |
| ShipControl.Ship.UpdateShipSpeed | src/simulation/ship.js:73-104 | Only the velocity changes, to the speed step for the selected target and response |
| ShipControl.Ship.UpdateShipOrientation | src/simulation/ship.js:17-61 | The roll speed is smoothed towards the input. The orientation and look velocity end as the specification functions give. A unit orientation with a throttle in [0, 1] stays so |
| Camera.RemoveFirst | src/rendering/camera.js:4 | `replace("#", "")` removes only the first `#`: the text shrinks by one when it has one and is unchanged otherwise |
| Camera.Slice | src/rendering/camera.js:5-7 | `slice(a, b)` is the substring when b is within the text, and never longer than b − a |
| Camera.ParseTwoDigits | src/rendering/camera.js:5-7 | parseInt of two hexadecimal digits is their byte value |
| Camera.ParseNoDigits | src/rendering/camera.js:5-7 | parseInt of text starting with anything but white space, a sign or a hexadecimal digit is NaN |
| Camera.RgbToObjTriplet | src/rendering/camera.js:3-9 | `rrggbb` and `#rrggbb` both read as the three bytes, each in 0..255 |
| Camera.SecondHashKept | src/rendering/camera.js:4-5 | Only the first `#` is removed: the red channel of `##rrggbb` is NaN |
| Camera.HexColourRoundTrip | src/rendering/camera.js:3-9 | Writing three bytes as `#rrggbb` and reading them back gives the same bytes |
| Camera.Round | src/rendering/camera.js:12-14 | `Math.round` is the nearest integer, halves rounded up |
| Camera.ChannelByte | src/rendering/camera.js:12-14 | A channel is rounded and clamped into 0..255 |
| Camera.ChannelByteOfByte | src/rendering/camera.js:12-14 | A byte value is rendered as itself |
| Camera.DecimalRoundTrip | src/rendering/camera.js:15 | A channel's decimal text reads back as its value |
| Camera.ObjToRgbClamped | src/rendering/camera.js:11-16 | A finite colour is printed `rgb(r,g,b)` with each component rounded and clamped into 0..255 |
| Camera.ParsedColourRendered | src/rendering/camera.js:3-16 | Round trip: objToRgb(rgbToObj(`#rrggbb`)) prints exactly the three parsed bytes |
| Camera.HexColourRendered | src/rendering/camera.js:3-16 | Bytes written as `#rrggbb`, parsed and rendered print the same bytes |
| Camera.RgbTextRoundTrip | src/rendering/camera.js:15 | The `rgb(r,g,b)` text objToRgb prints reads back as the same three numbers |
| Camera.MixChannel | src/rendering/camera.js:22-24 | A mixed channel is NaN exactly when either input is, and otherwise lerp of the inputs |
| Camera.MixRgbEnds | src/rendering/camera.js:18-26 | For two well-formed colours, mixRgb(a, b, 0) renders a and mixRgb(a, b, 1) renders b |
| Camera.MixRgbMalformed | src/rendering/camera.js:18-26 | A red channel that fails to parse in either colour stays NaN in the mix, whatever t is |
| Camera.NaNRedRendered | src/rendering/camera.js:12-15 | A NaN red channel is printed `rgb(NaN` |
| Camera.MulRgbByOne | src/rendering/camera.js:28-31 | mulRgb(h, 1) renders h unchanged, NaN channels included |
| Camera.MulRgbByZero | src/rendering/camera.js:28-31 | mulRgb(h, 0) of a well-formed colour is `rgb(0,0,0)` |
| Camera.ProjectPoint | src/rendering/camera.js:55-69 | Null exactly when the camera-space depth is ≤ nearPlane; otherwise zCam is that depth, and positive |
| Camera.CameraPositionHidden | src/rendering/camera.js:55-64 | The camera's own position is never projected when nearPlane ≥ 0 |
| Camera.StraightAheadCentred | src/rendering/camera.js:55-69 | With orthonormal axes, a point straight ahead beyond the near plane projects to the screen centre at its distance |
| Effects.Loops | src/rendering/effects.js:38 | `for (i = 0; i < n; i++)` runs n times, and not at all for negative n |
| Effects.ColourCycle | src/rendering/effects.js:78 | `colors?.length \|\| 2` is the palette length, or 2 for a missing or empty palette |
| Effects.DefaultCounts | src/rendering/effects.js:38-72 | A missing or zero setting falls back: 150 debris, 200 drops, 200 flakes, 150 grains and 5 bands |
| Effects.IntensityCounts | src/rendering/effects.js:46-63 | An intensity i ≥ 0 asks for ⌊400·i⌋ drops; a negative one makes no drops and no grains |
| Effects.NewDebris | src/rendering/effects.js:87-99 | With draws in [0, 1) a debris particle starts inside the 500-box, with size in [1, 2.5) and alpha in [0.3, 0.8) |
| Effects.NewDrop | src/rendering/effects.js:101-110 | A drop has the configured streak length (40 by default); with draws in [0, 1) it starts in its box at speed [800, 1200) |
| Effects.NewFlake | src/rendering/effects.js:112-124 | With draws in [0, 1) a flake starts inside the 600-box, falling at 40 to 80 |
| Effects.NewGrain | src/rendering/effects.js:126-136 | With draws in [0, 1) a grain starts inside its box |
| Effects.NewBand | src/rendering/effects.js:74-79 | Band i takes colour i mod the palette length; with draws in [0, 1) its amplitude is in [0.1, 0.3) and frequency in [1, 3) |
| Effects.WrapJittered | src/rendering/effects.js:190 | A coordinate within wrapDist is kept and reads no draw. One beyond reads one draw and reappears on the opposite side, within 50 of wrapDist |
| Effects.WrapExact | src/rendering/effects.js:262-264 | The sandstorm wrap puts a coordinate beyond wrapDist exactly wrapDist away on the opposite side |
| Effects.DebrisStep | src/rendering/effects.js:179-193 | A debris particle keeps its velocity, size and alpha, reads at most 3 draws, and with draws in [0, 1) ends within 550 of the camera on each axis |
| Effects.RainStep | src/rendering/effects.js:198-214 | A drop falls by speed·dt. One more than 400 below the camera respawns exactly 400 above it. With draws in [0, 1), x and z end within 450 of the camera |
| Effects.SnowStep | src/rendering/effects.js:219-240 | A flake drifts and advances its sparkle phase by sparkleSpeed·dt. One more than 600 below the camera respawns exactly 600 above it. With draws in [0, 1), x and z end within 650 of the camera |
| Effects.SandStep | src/rendering/effects.js:250-265 | A grain is blown by the wind and ends within 500 of the camera in x and z, and, with draws in [0, 1), within 200 vertically |
| Effects.DebrisPassNear | src/rendering/effects.js:177-194 | After `updateDebris`, with draws in [0, 1), every particle is within 550 of the camera on each axis |
| Effects.RainPassRespawns | src/rendering/effects.js:196-215 | After `updateRain` every drop that fell more than 400 below the camera is exactly 400 above it |
| Effects.SandPassInBox | src/rendering/effects.js:243-266 | After `updateSandstorm` every grain is within 500 of the camera in x and z |
| Effects.NextFlash | src/rendering/effects.js:268-302 | tAtmo < 0.1 resets to inactive phase 0. The only moves are 0→1 on the draw, 1→2 after 0.3·duration and 2→0 after 0.7·duration. Entering a flash phase resets flashTimer. active ⇔ phase ≠ 0 is kept |
| Effects.Lightning.constructor | src/rendering/effects.js:18-23 | The lightning starts inactive in phase 0 with both timers at 0 |
| Effects.Lightning.Update | src/rendering/effects.js:268-302 | The record ends as the transition function gives for the next draw. One draw is read only while waiting in a thick enough atmosphere. The invariant is kept |
| Effects.DebrisStage | src/rendering/effects.js:147-149 | The debris stage changes only the debris list, keeps its length, and does nothing without a debris configuration |
| Effects.RainStage | src/rendering/effects.js:152-154 | The rain stage changes only the rain list, keeps its length, and does nothing without a rain configuration |
| Effects.SnowStage | src/rendering/effects.js:157-159 | The snow stage changes only the snow list, keeps its length, and does nothing without a snow configuration |
| Effects.SandStage | src/rendering/effects.js:162-164 | The sandstorm stage changes only the grain list, keeps its length, and reads at least one draw per grain |
| Effects.FlashStage | src/rendering/effects.js:167-169 | The lightning stage changes only the flash record, keeps it valid, and does nothing without a lightning configuration |
| Effects.UpdateScene | src/rendering/effects.js:141-175 | One frame keeps every list's length and the aurora bands, advances the aurora phase by dt·(waveSpeed \|\| 0.5), keeps the lightning valid, and changes nothing for an empty configuration |
| Effects.Effects.constructor | src/rendering/effects.js:10-33 | Empty particle lists, calm lightning and the aurora phase at 0 |
| Effects.Effects.UpdateDebris | src/rendering/effects.js:177-194 | The debris loop leaves the state and the cursor as the debris stage specifies |
| Effects.Effects.UpdateRain | src/rendering/effects.js:196-215 | The rain loop leaves the state and the cursor as the rain stage specifies |
| Effects.Effects.UpdateSnow | src/rendering/effects.js:217-241 | The snow loop leaves the state and the cursor as the snow stage specifies |
| Effects.Effects.UpdateSandstorm | src/rendering/effects.js:243-266 | The sandstorm loop leaves the state and the cursor as the sandstorm stage specifies |
| Effects.Effects.UpdateFlash | src/rendering/effects.js:167-169 | The lightning record ends as the lightning stage specifies and stays valid |
| Effects.Effects.AdvanceAurora | src/rendering/effects.js:172-174 | Only the aurora phase changes, by dt·(waveSpeed \|\| 0.5) when an aurora is configured |
| Effects.Effects.Update | src/rendering/effects.js:144-174 | The effects object ends as the frame function specifies, and the lightning stays valid |
| Effects.UpdateEffects | src/rendering/effects.js:141-175 | Null effects read no draws and change nothing; otherwise the frame function applies |
| Effects.SpawnDebris | src/rendering/effects.js:36-41 | count \|\| 150 particles, eight draws each, every one fresh for draws in [0, 1) |
| Effects.SpawnRain | src/rendering/effects.js:44-50 | ⌊(intensity \|\| 0.5)·400⌋ drops, five draws each, every one fresh for draws in [0, 1) |
| Effects.SpawnSnow | src/rendering/effects.js:53-58 | count \|\| 200 flakes, nine draws each, every one fresh for draws in [0, 1) |
| Effects.SpawnSandstorm | src/rendering/effects.js:61-67 | ⌊(intensity \|\| 0.5)·300⌋ grains, six draws each, every one fresh for draws in [0, 1) |
| Effects.SpawnBands | src/rendering/effects.js:70-81 | bandCount \|\| 5 bands, band i coloured i mod the palette length, three draws each |
| Effects.CreatePlanetEffects | src/rendering/effects.js:7-84 | Null exactly for a missing configuration, reading no draws. Otherwise the configured counts of fresh particles and bands, calm lightning and phase 0. `{}` gives every list empty |
| Stars.WrapAxis | src/rendering/stars.js:32-33 | A coordinate moves by 0 or ±2h, and only when its offset is outside [−h, h]. An offset within 3h ends within h |
| Stars.WrapPoint | src/rendering/stars.js:31-38 | A point already within h of the centre is unchanged; one within 3h ends within h on every axis |
| Stars.WrapFixesExactlyTheCube | src/rendering/stars.js:31-38 | With h > 0, `wrapStar` leaves a star where it is exactly when it is within h on every axis |
| Stars.WrapIdempotent | src/rendering/stars.js:31-38 | Within 3h of the centre, wrapping twice is wrapping once |
| Stars.WrapStar | src/rendering/stars.js:31-38 | The six checks in place leave the position the wrap function gives |
| Stars.NewStar | src/rendering/stars.js:17-24 | A star reads four draws; with draws in [0, 1) it lies within \|halfSize\| of the layer centre and its size between sizeMin and sizeMax |
| Stars.FillLayer | src/rendering/stars.js:15-25 | A layer gets exactly L.count fresh stars (none for a negative count), every one placed |
| Stars.CreateStarLayers | src/rendering/stars.js:4-29 | One layer per configured layer, in order, with its configuration and L.count stars, four draws per star; with draws in [0, 1) every star lies within halfSize of startPosition·parallax with its size in range |

## Left out

- Floating point: everything is over `real`. NaN appears only where the colour code shows it (`Camera.Num`); Infinity, rounding error and overflow are not modelled.
- Transcendental functions are uninterpreted. Numeric convergence of the Kepler solve and orbit closure are not proved; only the loop's structure is.
- Universe.NearestPlanetInfo: requires atmosphereRadius ≠ radius for every planet, which is stronger than the source needs: it divides by that difference only for the chosen planet.
- Camera.ProjectPoint: requires nearPlane ≥ 0, so the depth it divides by is positive.
- Orbits.OrbitalState.UpdateOrbits: requires the planet objects in the array to be distinct objects. Names may repeat. The same object listed twice is not modelled.
- Orbits.PlanetMirrorsBody: states the mirror for a moon of a moon only when no name repeats. With a repeated name the source breaks it: for names [A, B, A], where A is a moon of B and B a moon of a planet, planets[0] is placed around B's old position while the lookup ends with A around B's new one.
- Orbits: the `parent` field is `null` or a name (`ParentRef`). A missing `parent` property is carried as `Undefined` and such a body is moved by neither loop.
- Orbits.OrbitalPosition and the orbit lemmas require a non-zero period and a never-vanishing Newton denominator. Those are the conditions under which the source computes a number.
- `Math.random()` is a fixed stream of draws read through a cursor. Which value each draw takes is not modelled; bounds hold when draws lie in [0, 1).
- Effects.SpawnDebris, Effects.SpawnRain, Effects.SpawnSnow, Effects.SpawnSandstorm, Effects.SpawnBands and Effects.CreatePlanetEffects state counts, draws read and value ranges of the new particles, not their exact coordinates.
- Stars.CreateStarLayers: states counts, draws and ranges, not the exact coordinates of each star. Layers are returned as a configuration plus stars rather than a spread copy of the layer object.
- Particles, ship positions and velocities are values held in sequences and fields. Aliasing between shared `Vec3` objects is not modelled (the source's `ship.vel.add` on a shared vector, for instance). Only `Vec3`, `Quat` and star positions are objects updated in place.
- Fractional counts: particle and star counts are integers. A fractional `count` from the configuration is not modelled.
- `createCamera` and `createUniverse` are not modelled (object assembly from canvas and configuration). `main.js` (the animation loop, events and the `dt` clamp) is not part of this model. Nor are the `draw*` functions and the rendering files.
- The nearest-planet locator picks the smallest centre distance, with the first planet winning ties. It gives no priority to atmosphere depth.
- A moon whose parent does not resolve is skipped during the update.
- `updateOrbits` applies no parent-velocity frame correction.
- Camera.RemoveFirst, Camera.Slice and the colour parser index a Dafny `string` by Unicode scalar value. JavaScript's `replace` and `slice` count UTF-16 code units, so a colour text holding a character outside the Basic Multilingual Plane is indexed differently; that case is not modelled.
- Vectors.Vec3.constructor and Vectors.Quat.constructor take every component explicitly. The default arguments of math.js (zero vector, identity quaternion) are not modelled. The in-place methods do not return `this`, so chained calls are written as separate statements; the core's only chain, `Quat.mul(...).norm()`, is covered by `QMul` and `QNormalized`.
