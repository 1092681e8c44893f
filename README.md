# Solar-system simulation core in Dafny

This project models the simulation classes of a three.js solar-system viewer
and proves properties about them. The viewer has four simulation classes:

- `StarField` builds a seeded, procedurally generated sky. A small linear
  congruential generator steps `state := (state * 9301 + 49297) % 233280` and
  draws `state / 233280`. Each star takes four draws, in the order azimuth,
  polar angle, size and palette colour. The results go into three flat
  buffers: positions, sizes and colours. `update` advances a twinkle clock.
- `CelestialBody` is the base of every body. It fills in default values and
  spins the body's mesh about the y axis by `2π / (rotationPeriod * 3600)`
  radians per second. A period of 0 means the body does not spin. `getInfo`
  merges the body's fields with its info record.
- `Planet` extends `CelestialBody` with a circular orbit in the x-z plane, an
  accumulated orbit angle, a one-shot orbit line and one level of moons.
- `Sun` overrides the spin. It turns only for a positive period, and counts
  that period in days rather than hours. It also carries a point light whose
  intensity defaults to 2.

## How the source is represented

- The source's files map to these modules:
  - `JsMath.dfy` holds two modules: `Wrappers` for the Option and Result types, and `JsMath` for the JavaScript arithmetic the classes rely on.
  - `StarField.dfy` holds two modules: `Lcg` for the generator and `Stars` for the star field.
  - `CelestialBody.dfy` holds `Bodies`.
  - `Planet.dfy` holds `Planets`.
  - `Sun.dfy` holds `Suns`.
- Inheritance becomes composition. A `Planet` or `Sun` holds a `body: CelestialBody`.
  - `Planet.Update` calls `body.Update`, which is the `super.update` call.
  - `Sun.Update` writes the body's orientation itself, because the override does not call `super`.
- Fields the source updates in place are `var` fields of classes: the twinkle clock, the orientation (`mesh.rotation.y`), the orbit angle, the position (`group.position`), the moon list and the orbit line.
- The three star buffers are `array<real>`. The constructor fills them in place, one star at a time.
- The source's `%` keeps the sign of the dividend, so it is written out as `JsRem`. Dafny's own `%` never goes negative.
- A JavaScript number that may become Infinity or NaN is a `Number`, which is `Finite(value)` or `NonFinite`. That happens to the orbit angle: nothing rejects an orbit period of 0, so the orbit speed `2π / 0` is Infinity.
- `Math.sin`, `Math.cos` and `Math.acos` cannot be seen, so a `Trig` value passes them in.
- A construction that would throw is a `Result`. The source throws a `TypeError` when a palette index misses the palette.

## Model

| member | source | states |
|---|---|---|
| JsMath.JsRem | src/classes/StarField.ts:29 | The result is the remainder of the quotient rounded toward zero: `a == TruncQuot(a, m) * m + r`. The remainder keeps the dividend's sign. For a non-negative dividend it lies in [0, m); for a negative one it lies in (-m, 0]. |
| JsMath.Add | src/classes/Planet.ts:90 | A sum is finite exactly when both operands are. A finite sum exceeds the first operand by the second. |
| JsMath.LerpBounds | src/classes/StarField.ts:51 | Interpolating from x to y with t in [0, 1) gives at least x. It stays below y when x < y, and equals x when x = y. |
| Lcg.Next | src/classes/StarField.ts:29 | One step from a non-negative state lands in [0, 233280). Any step lands strictly between -233280 and 233280. |
| Lcg.StateStaysInRange | src/classes/StarField.ts:27-29 | From a non-negative seed every state is non-negative, and every state after the first step is below 233280. |
| Lcg.DrawInUnitInterval | src/classes/StarField.ts:27-31 | From a non-negative seed every draw lies in [0, 1). |
| Lcg.NonNegativeFrom | src/classes/StarField.ts:27-29 | Once any state is non-negative, every later state is non-negative and below 233280. |
| Lcg.DrawAboveMinusOne | src/classes/StarField.ts:29-30 | Whatever the seed, every draw lies strictly between -1 and 1. |
| Lcg.Generator.constructor | src/classes/StarField.ts:27 | The generator state starts at the seed. |
| Lcg.Generator.Rand | src/classes/StarField.ts:28-31 | The state becomes the next state of the sequence, and the result is that state over 233280. |
| Stars.HexColor | src/classes/StarField.ts:16-21 | Each channel of a palette colour lies in [0, 1]. |
| Stars.DefaultPalette | src/classes/StarField.ts:16-21 | The default palette has four entries. |
| Stars.Resolve | src/classes/StarField.ts:11-23 | Absent options take the defaults: 2000 stars, radius 500, sizes 1 to 3, the four-colour palette and seed 1. Given options pass through. |
| Stars.OmittedSeedIsOne | src/classes/StarField.ts:22 | Leaving out the seed gives the same configuration as seed 1. |
| Stars.ScaledFloorIsQuotient | src/classes/StarField.ts:54 | The colour index `floor((state / 233280) * n)` equals the integer quotient of `state * n` by 233280, for any state. |
| Stars.ScaledFloorBelow | src/classes/StarField.ts:54 | For a draw in [0, 1) and n > 0, the floored index lies in [0, n). |
| Stars.ColorIndexInPalette | src/classes/StarField.ts:54 | With a non-negative seed and a non-empty palette, every star's palette index is inside the palette. |
| Stars.FirstMiss | src/classes/StarField.ts:37-56 | Gives the first star whose palette lookup misses. It is None exactly when every lookup from the start point hits. |
| Stars.NonNegativeSeedBuilds | src/classes/StarField.ts:27-55 | With a non-negative seed, construction succeeds exactly when there are no stars or the palette is non-empty. |
| Stars.NegativeSeedMisses | src/classes/StarField.ts:27-55 | Nothing validates the seed. With seed -6, star 0's colour draw is negative, so its palette index misses and construction throws. |
| Stars.NegativeSeedLeavesAcosDomain | src/classes/StarField.ts:36-48 | With seed -5514 and any non-empty palette, construction succeeds, yet star 0's `Math.acos` argument is below -1. |
| Stars.SizeInRange | src/classes/StarField.ts:51 | With a non-negative seed, each star's size lies in [minSize, maxSize) when minSize < maxSize, and equals minSize when they are equal. |
| Stars.TwinkleRate | src/classes/StarField.ts:102 | `Math.min(speedFactor * 0.00001, 0.02)` is at most each of its two arguments and is one of them. It is non-negative for a non-negative speed. |
| Stars.TwinkleStepBounds | src/classes/StarField.ts:101-104 | For non-negative time and speed, the clock advances by between 0 and 0.02·deltaTime. From speed 2000 on, it advances by exactly 0.02·deltaTime. |
| Stars.StarField.Init | src/classes/StarField.ts:9 | A new field's clock and `uTime` start at 0. |
| Stars.StarField.Update | src/classes/StarField.ts:101-104 | The clock grows by `deltaTime * min(speedFactor * 0.00001, 0.02)`, and `uTime` equals the clock afterwards. `speedFactor` defaults to 1. |
| Stars.NewStarField | src/classes/StarField.ts:11-56 | Construction succeeds exactly when no palette lookup misses. On failure it reports the first missing star and its index. On success the new field's buffers are fresh, have lengths 3n, n and 3n, and hold exactly the specified stars, slot by slot. The clock starts at 0. |
| Stars.FillStars | src/classes/StarField.ts:37-56 | The loop stops at the first star whose palette lookup misses and reports that star and its index. If no lookup misses, every star's position, size and colour is in its slots. |
| Stars.DrawStar | src/classes/StarField.ts:39-54 | Star i consumes draws 4i+1 to 4i+4 in the order θ, φ, size, colour. It yields that star's position, size and palette index. |
| Stars.StorePosition | src/classes/StarField.ts:48 | Writing star i's position fills slots 3i to 3i+2 and keeps the earlier stars' slots. It writes no other slot. |
| Stars.StoreSize | src/classes/StarField.ts:51 | Writing star i's size fills slot i and keeps the earlier sizes. It writes no other slot. |
| Stars.StoreColor | src/classes/StarField.ts:55 | Writing star i's colour fills slots 3i to 3i+2 with its palette entry's channels and keeps the earlier stars' slots. It writes no other slot. |
| Stars.StarColorInPalette | src/classes/StarField.ts:54-55 | In a built field, every star's (r, g, b) triple is exactly a palette entry. |
| Stars.StoredSizeInRange | src/classes/StarField.ts:51 | In a built field with a non-negative seed and minSize < maxSize, every stored size lies in [minSize, maxSize). |
| Stars.Deterministic | src/classes/StarField.ts:11-56 | Two fields built from the same configuration hold identical positions, sizes and colours. |
| Bodies.RotationFullTurn | src/classes/CelestialBody.ts:39 | The period is in hours. One period's worth of seconds at speed 1 turns the body exactly 2π. |
| Bodies.RotationForward | src/classes/CelestialBody.ts:38-40 | With a positive period and non-negative time and speed, the spin never goes backwards. |
| Bodies.RotationReverses | src/classes/CelestialBody.ts:38-40 | Nothing rejects a negative period. Negating the period negates the spin. |
| Bodies.RotationAdditive | src/classes/CelestialBody.ts:39-40 | Two frames spin the body as far as one frame of their combined length. |
| Bodies.CelestialBody.constructor | src/classes/CelestialBody.ts:13-17 | Name and radius are copied. An absent rotation period becomes 0 and absent info becomes the empty record. The orientation starts at 0. |
| Bodies.CelestialBody.Update | src/classes/CelestialBody.ts:37-42 | The orientation grows by `(2π / (rotationPeriod * 3600)) * deltaTime * speedFactor`, and by nothing when the period is 0. Nothing else changes. |
| Bodies.CelestialBody.GetInfo | src/classes/CelestialBody.ts:44-51 | The keys are name, radius and rotationPeriod plus the info keys. An info entry wins over the field of the same name, and every other field shows through. |
| Suns.LightIntensity | src/classes/Sun.ts:35 | The intensity is never 0. A non-zero requested intensity is kept; an absent or zero one gives 2. |
| Suns.SunStillUnlessPositive | src/classes/Sun.ts:51 | A zero or negative period leaves the Sun still. The base class would spin a body with a negative period backwards. |
| Suns.SunTurnsInDays | src/classes/Sun.ts:52-53 | For the same positive period the Sun turns 24 times slower than the base class, because it counts days (86400 s) rather than hours (3600 s). |
| Suns.SunFullTurn | src/classes/Sun.ts:52-53 | One period's worth of seconds at speed 1 turns the Sun exactly 2π. |
| Suns.Sun.constructor | src/classes/Sun.ts:18-38 | Name, radius, rotation period and info reach the base body unchanged. The light intensity defaults as above. |
| Suns.Sun.Update | src/classes/Sun.ts:50-55 | Only the orientation changes. It grows by `(2π / (rotationPeriod * 86400)) * deltaTime * speedFactor` for a positive period, and by nothing otherwise. |
| Planets.MoonPlanetOptions | src/classes/Planet.ts:43-50 | A moon is built from its name and four numbers only: no moons, no ring, no info. |
| Planets.OrbitForward | src/classes/Planet.ts:88-90 | With a positive period and non-negative time and speed, the orbit step is finite and non-negative. |
| Planets.OrbitFullTurn | src/classes/Planet.ts:88 | The orbit period is in days. One period's worth of seconds at speed 1 advances the angle by exactly 2π. |
| Planets.OrbitAdditive | src/classes/Planet.ts:88-90 | Two frames advance the orbit angle as far as one frame of their combined length. |
| Planets.ZeroPeriodPoisons | src/classes/Planet.ts:88-90 | A zero orbit period makes the angle non-finite at the next update, and it stays non-finite after any later step. |
| Planets.OrbitPosition | src/classes/Planet.ts:92-96 | The position's y is always 0. x and z are finite exactly when the angle is, and are then `distance·cos(angle)` and `distance·sin(angle)`. |
| Planets.AdvanceTwoFrames | src/classes/Planet.ts:85-96 | Two frames in a row leave a planet's spin, angle and position as one frame of their combined length would. |
| Planets.AdvanceStaysInPlane | src/classes/Planet.ts:88-96 | After a frame the planet is on the x-z plane. With a positive period and forward time its finite angle does not decrease. |
| Planets.OrbitLineAngle | src/classes/Planet.ts:63 | The orbit line starts at angle 0 and ends at angle 2π. |
| Planets.OrbitLineEvenlySpaced | src/classes/Planet.ts:60-63 | Successive points of the orbit line are 2π/128 apart in angle. |
| Planets.OrbitPoint | src/classes/Planet.ts:64-70 | Every orbit-line point has y = 0. |
| Planets.SampleOrbit | src/classes/Planet.ts:59-71 | Sampling gives 129 points. Point i is on the orbit circle at angle 2π·i/128, from angle 0 to angle 2π. |
| Planets.Scene.Add | src/classes/Planet.ts:82 | Adding appends the object to the scene. |
| Planets.Planet.constructor | src/classes/Planet.ts:13-53 | The body gets the planet's name, radius, period and info. The orbit angle starts at 0 and there is no orbit line. There is exactly one fresh moonless moon per descriptor, in order, each with empty info. |
| Planets.Planet.CreateOrbitLine | src/classes/Planet.ts:56-83 | The first call stores the 129 sampled points and appends one line to the scene. Every later call changes nothing, so the operation is idempotent. |
| Planets.Planet.Update | src/classes/Planet.ts:85-99 | Applies the base spin, then adds the orbit step to the angle, then sets the position from the new angle. Every moon advances by its own step. Moons, orbit line and structure are kept. |
| Planets.Planet.UpdateMoons | src/classes/Planet.ts:98 | Each moon is updated exactly once with the same deltaTime and speedFactor. Its state advances by its own period and distance only. |

## Left out

- `StarField.dispose` (src/classes/StarField.ts:106-110) takes the star points out of the scene and releases GPU resources through three.js. It is not modelled: the model's `Scene` holds orbit lines only, never star points, and the GPU resources have no state here.
- The three.js objects are not modelled, because they carry no simulation state:
  - meshes, geometries and materials;
  - textures and the ring mesh (ring options are accepted and ignored);
  - the shader strings and the Sun's point light object. Only the light's intensity is modelled.
- `src/components/Scene.tsx` is not part of this model. That covers the per-frame call order, the GUI, raycasting and timing. Two of its facts bear on this model:
  - It calls `createOrbitLine` twice per planet, which `Planets.Planet.CreateOrbitLine`'s idempotence makes harmless.
  - Its `rebuildStars` leaves out the seed, which `Stars.OmittedSeedIsOne` turns into seed 1.
- Stars.NewStarField: it stores values as exact reals. The source's `Float32Array` rounds every position, size and colour channel to single precision.
- Stars.DrawStar: the draws, angles, sizes and the product `draw * colors.length` are exact reals. The source computes them as IEEE doubles.
  - The generator's states are exact integers in both, for every seed below about 9.68 * 10^11 in size (see Lcg.Next below).
  - A double rounding of the product could in principle move the floored index. `Stars.ScaledFloorIsQuotient` gives the exact integer value that the model uses.
- Stars.DrawStar: `Math.acos` is a total function on the reals here. In the source it returns NaN for an argument below -1, which a negative seed can produce. With seed -5514 the build succeeds, yet star 0's position is NaN in the source. `Stars.NegativeSeedLeavesAcosDomain` proves this case exists, but the model does not give the NaN position.
- Stars.HexColor: it gives each channel as its byte over 255. It does not model three.js colour management, which may convert the hex colour to a linear working colour space.
- `Math.sin`, `Math.cos` and `Math.acos` are uninterpreted, so nothing is proved about where a star lies on the sphere or how uniformly stars spread.
- The star count is a `nat` and the seed an `int`. The cases this leaves out are not modelled:
  - A negative count makes the source's buffer allocation throw.
  - A fractional count gives buffers truncated to a whole length. The loop then reaches a star whose `positions.set` runs past the end of the position buffer, and that call throws.
  - A fractional seed makes the generator leave the integers.
- Lcg.Next: it computes `seed * 9301 + 49297` exactly. For a seed above about 9.68 * 10^11 in size, that product exceeds 2^53, JavaScript rounds it, and the source's first state differs from the model's. Later states are below 233280 in size, so their products are exact. The seeds the program passes, 42 and the default 1, are far below that bound.
- Bodies.CelestialBody.GetInfo: it returns a map. The key order of the source's object spread is not modelled. Info values are strings or numbers only.
- Only a planet's orbit angle and position can be non-finite. The model does not represent NaN or Infinity anywhere else:
  - Inputs: radius, distance, periods, deltaTime, speedFactor and lightIntensity. The source's `NaN || 2` gives 2, and Suns.LightIntensity does not cover that case.
  - Star positions: see Stars.DrawStar above.
- Reals stand in for doubles in the spin, the orbit angle, the position, the twinkle clock and their per-frame steps. JavaScript rounds at every step, so the following exact facts hold of the model's reals, not bit for bit of the program:
  - Bodies.RotationFullTurn, Suns.SunFullTurn and Planets.OrbitFullTurn: the full turn is exactly 2π.
  - Bodies.RotationAdditive, Planets.OrbitAdditive and Planets.AdvanceTwoFrames: two frames equal one frame of their combined length.
  - Suns.SunTurnsInDays: the factor of 24 against the base class.
  - Planets.OrbitLineEvenlySpaced: the orbit line's points are exactly 2π/128 apart.
  - JsMath.LerpBounds, Stars.SizeInRange and Stars.StoredSizeInRange: an interpolated size stays in [minSize, maxSize) and equals minSize when the ends are equal. Double rounding can break this for some ends, and the `Float32Array` stores the size rounded to single precision, which can land just below minSize. With the program's sizes 1 to 3 no stored size falls below 1, because 1 is exact in single precision. The largest size, 3 - 2/233280, stays below 3 in single precision, so with sizes 1 to 3 every stored size lies in [1, 3) in the program too.
- Planets.Planet.Update: it takes the trigonometric functions as an extra first parameter. It states the moons' new state but does not record that their updates happen in order, because their states are disjoint.
