/**
 * The star field's seeded linear-congruential generator: a closure over a
 * mutable `random` state that steps `state := (state * 9301 + 49297) % 233280`
 * and returns `state / 233280`. After the first step every state is below
 * 233280 in size, so each later product stays well below 2^53 and JavaScript's
 * doubles hold it exactly. The first product is exact too when the seed is
 * below about 9.68 * 10^11 in size, which covers the seeds the program uses.
 */
module Lcg {
  import opened JsMath

  const Multiplier: int := 9301
  const Increment: int := 49297
  const Modulus: int := 233280

  /** One generator step, with JavaScript's sign-keeping remainder. */
  function Next(state: int): (s: int)
    ensures state >= 0 ==> 0 <= s < Modulus
    ensures -Modulus < s < Modulus
  {
    JsRem(state * Multiplier + Increment, Modulus)
  }

  /** The generator state after `n` draws from `seed`. */
  function StateAfter(seed: int, n: nat): int
  {
    if n == 0 then seed else Next(StateAfter(seed, n - 1))
  }

  /** The value a draw returns when it leaves the generator in `state`. */
  function Draw(state: int): real
  {
    state as real / Modulus as real
  }

  /** The `n`-th value drawn from `seed` (the first draw is `n == 1`). */
  function NthDraw(seed: int, n: nat): real
    requires n >= 1
  {
    Draw(StateAfter(seed, n))
  }

  /** From a non-negative seed the state stays non-negative, and below the modulus after the first step. */
  lemma {:induction false} StateStaysInRange(seed: int, n: nat)
    requires seed >= 0
    ensures 0 <= StateAfter(seed, n)
    ensures n >= 1 ==> StateAfter(seed, n) < Modulus
  {
    if n > 0 {
      StateStaysInRange(seed, n - 1);
    }
  }

  /** From a non-negative seed every draw lies in [0, 1). */
  lemma DrawInUnitInterval(seed: int, n: nat)
    requires seed >= 0 && n >= 1
    ensures 0.0 <= NthDraw(seed, n) < 1.0
  {
    StateStaysInRange(seed, n);
  }

  /** Once a state is non-negative, every later state is non-negative and below the modulus. */
  lemma {:induction false} NonNegativeFrom(seed: int, k: nat, n: nat)
    requires k < n && StateAfter(seed, k) >= 0
    ensures 0 <= StateAfter(seed, n) < Modulus
  {
    if k < n - 1 {
      NonNegativeFrom(seed, k, n - 1);
    }
  }

  /** Whatever the seed, every draw lies strictly between -1 and 1. */
  lemma DrawAboveMinusOne(seed: int, n: nat)
    requires n >= 1
    ensures -1.0 < NthDraw(seed, n) < 1.0
  {
  }

  /**
   * The `rand` closure: its captured `random` variable is the field
   * `state`, and each call advances it once.
   */
  class Generator {
    var state: int

    constructor (seed: int)
      ensures state == seed
    {
      state := seed;
    }

    method Rand() returns (d: real)
      modifies this
      ensures state == Next(old(state))
      ensures d == Draw(state)
    {
      state := JsRem(state * Multiplier + Increment, Modulus);
      d := state as real / Modulus as real;
    }
  }
}

/**
 * `StarField`: a point cloud whose positions, sizes and colours are filled,
 * star by star, from the seeded generator into three flat buffers, and a
 * twinkle clock advanced every frame.
 */
module Stars {
  import opened Wrappers
  import opened JsMath
  import opened Lcg

  /** A `THREE.Color`: red, green and blue channels. */
  datatype Rgb = Rgb(r: real, g: real, b: real)

  /** The constructor's options; an absent field takes its default. */
  datatype StarFieldOptions = StarFieldOptions(
    count: Option<nat>,
    radius: Option<real>,
    minSize: Option<real>,
    maxSize: Option<real>,
    colors: Option<seq<Rgb>>,
    seed: Option<int>)

  /** The options once every default has been filled in. */
  datatype Config = Config(
    count: nat,
    radius: real,
    minSize: real,
    maxSize: real,
    colors: seq<Rgb>,
    seed: int)

  /** The constructor throws (reading `.r` of `undefined`) when a palette index misses. */
  datatype BuildError = PaletteMiss(star: nat, index: int)

  /** `new THREE.Color(hex)`: the three 8-bit channels scaled to [0, 1]. */
  function HexColor(hex: int): (c: Rgb)
    requires 0 <= hex < 0x100_0000
    ensures 0.0 <= c.r <= 1.0 && 0.0 <= c.g <= 1.0 && 0.0 <= c.b <= 1.0
  {
    Rgb((hex / 0x1_0000) as real / 255.0, ((hex / 0x100) % 0x100) as real / 255.0, (hex % 0x100) as real / 255.0)
  }

  /** White, warm, blue-white and red-white. */
  function DefaultPalette(): (p: seq<Rgb>)
    ensures |p| == 4
  {
    [HexColor(0xffffff), HexColor(0xffddaa), HexColor(0xaaccff), HexColor(0xffaaaa)]
  }

  /** Destructuring with defaults: count 2000, radius 500, sizes 1 to 3, the default palette, seed 1. */
  function Resolve(options: StarFieldOptions): (cfg: Config)
    ensures options.count.None? ==> cfg.count == 2000
    ensures options.radius.None? ==> cfg.radius == 500.0
    ensures options.minSize.None? ==> cfg.minSize == 1.0
    ensures options.maxSize.None? ==> cfg.maxSize == 3.0
    ensures options.colors.None? ==> cfg.colors == DefaultPalette()
    ensures options.seed.None? ==> cfg.seed == 1
    ensures options.count.Some? ==> cfg.count == options.count.value
    ensures options.radius.Some? ==> cfg.radius == options.radius.value
    ensures options.minSize.Some? ==> cfg.minSize == options.minSize.value
    ensures options.maxSize.Some? ==> cfg.maxSize == options.maxSize.value
    ensures options.seed.Some? ==> cfg.seed == options.seed.value
    ensures options.colors.Some? ==> cfg.colors == options.colors.value
  {
    Config(
      GetOr(options.count, 2000),
      GetOr(options.radius, 500.0),
      GetOr(options.minSize, 1.0),
      GetOr(options.maxSize, 3.0),
      GetOr(options.colors, DefaultPalette()),
      GetOr(options.seed, 1))
  }

  // Star j consumes draws 4j+1 .. 4j+4: theta, phi, size, colour, in that order.

  function ThetaDraw(j: nat): nat { 4 * j + 1 }
  function PhiDraw(j: nat): nat { 4 * j + 2 }
  function SizeDraw(j: nat): nat { 4 * j + 3 }
  function ColorDraw(j: nat): nat { 4 * j + 4 }

  /** Azimuth of star j: a draw times 2π. */
  function Theta(cfg: Config, j: nat): real
  {
    NthDraw(cfg.seed, ThetaDraw(j)) * Pi * 2.0
  }

  /** Polar angle of star j: `acos(2u - 1)`. */
  function Phi(cfg: Config, trig: Trig, j: nat): real
  {
    trig.acos(2.0 * NthDraw(cfg.seed, PhiDraw(j)) - 1.0)
  }

  /** The point at azimuth theta and polar angle phi on the sphere of radius r. */
  function Spherical(r: real, trig: Trig, theta: real, phi: real): Vec3
  {
    Vec3(r * trig.sin(phi) * trig.cos(theta),
         r * trig.sin(phi) * trig.sin(theta),
         r * trig.cos(phi))
  }

  function StarPosition(cfg: Config, trig: Trig, j: nat): Vec3
  {
    Spherical(cfg.radius, trig, Theta(cfg, j), Phi(cfg, trig, j))
  }

  function StarSize(cfg: Config, j: nat): real
  {
    Lerp(cfg.minSize, cfg.maxSize, NthDraw(cfg.seed, SizeDraw(j)))
  }

  /** `Math.floor(rand() * colors.length)`. */
  function ColorIndex(cfg: Config, j: nat): int
  {
    ScaledFloor(NthDraw(cfg.seed, ColorDraw(j)), |cfg.colors|)
  }

  /** `Math.floor(u * n)`. */
  function ScaledFloor(u: real, n: nat): int
  {
    (u * n as real).Floor
  }

  /**
   * The colour index is exact integer arithmetic: `floor((state / 233280) * n)`
   * is the integer quotient of `state * n` by 233280 (rounded down, also for
   * a negative state).
   */
  lemma ScaledFloorIsQuotient(state: int, n: nat)
    ensures ScaledFloor(Draw(state), n) == (state * n) / Modulus
  {
    var q := (state * n) / Modulus;
    var rem := (state * n) % Modulus;
    assert state * n == q * Modulus + rem;
    var x := Draw(state) * n as real;
    assert x == (state * n) as real / Modulus as real;
    assert x == q as real + rem as real / Modulus as real;
    assert 0.0 <= rem as real / Modulus as real < 1.0;
  }

  /** Star j's palette lookup lands on an entry. */
  predicate PaletteHit(cfg: Config, j: nat)
  {
    0 <= ColorIndex(cfg, j) < |cfg.colors|
  }

  /** Component c (0 = x, 1 = y, 2 = z) of a vector, as laid out in a flat buffer. */
  function Component(v: Vec3, c: nat): real
    requires c < 3
  {
    if c == 0 then v.x else if c == 1 then v.y else v.z
  }

  /** Channel c (0 = r, 1 = g, 2 = b) of a colour. */
  function Channel(col: Rgb, c: nat): real
    requires c < 3
  {
    if c == 0 then col.r else if c == 1 then col.g else col.b
  }

  /** Slot k of the position buffer: component k % 3 of star k / 3. */
  function PositionSlot(cfg: Config, trig: Trig, k: nat): real
  {
    Component(StarPosition(cfg, trig, k / 3), k % 3)
  }

  /** Slot k of the colour buffer: channel k % 3 of star k / 3's palette entry. */
  function ColorSlot(cfg: Config, k: nat): real
    requires PaletteHit(cfg, k / 3)
  {
    Channel(cfg.colors[ColorIndex(cfg, k / 3)], k % 3)
  }

  /** The index of the first star whose palette lookup misses, if any does. */
  function FirstMiss(cfg: Config, from: nat): (m: Option<nat>)
    requires from <= cfg.count
    ensures m.None? <==> forall j :: from <= j < cfg.count ==> PaletteHit(cfg, j)
    ensures m.Some? ==> from <= m.value < cfg.count && !PaletteHit(cfg, m.value)
    ensures m.Some? ==> forall j :: from <= j < m.value ==> PaletteHit(cfg, j)
    decreases cfg.count - from
  {
    if from == cfg.count then None
    else if !PaletteHit(cfg, from) then Some(from)
    else FirstMiss(cfg, from + 1)
  }

  /** From a non-negative seed and a non-empty palette, no lookup ever misses. */
  lemma ColorIndexInPalette(cfg: Config, j: nat)
    requires cfg.seed >= 0 && |cfg.colors| > 0
    ensures PaletteHit(cfg, j)
  {
    DrawInUnitInterval(cfg.seed, ColorDraw(j));
    ScaledFloorBelow(NthDraw(cfg.seed, ColorDraw(j)), |cfg.colors|);
  }

  /** `Math.floor(u * n)` for u in [0, 1) is an index into n entries. */
  lemma ScaledFloorBelow(u: real, n: nat)
    requires 0.0 <= u < 1.0 && n > 0
    ensures 0 <= ScaledFloor(u, n) < n
  {
    ProductNonNegative(u, n as real);
    assert u * n as real < n as real by {
      assert n as real - u * n as real == (1.0 - u) * n as real;
      ProductPositive(1.0 - u, n as real);
    }
  }

  /** From a non-negative seed, construction succeeds exactly when there are no stars or the palette is not empty. */
  lemma NonNegativeSeedBuilds(cfg: Config)
    requires cfg.seed >= 0
    ensures FirstMiss(cfg, 0).None? <==> (cfg.count == 0 || |cfg.colors| > 0)
  {
    if |cfg.colors| > 0 {
      forall j | 0 <= j < cfg.count
        ensures PaletteHit(cfg, j)
      {
        ColorIndexInPalette(cfg, j);
      }
    } else if cfg.count > 0 {
      assert !PaletteHit(cfg, 0);
    }
  }

  /**
   * Nothing validates the seed. With seed -6 the fourth state is -128618,
   * the first colour draw is negative, and star 0's palette index is below
   * zero whatever the palette: the constructor throws.
   */
  lemma NegativeSeedMisses(cfg: Config)
    requires cfg.seed == -6 && cfg.count >= 1
    ensures FirstMiss(cfg, 0) == Some(0)
  {
    assert StateAfter(-6, 1) == -6509;
    assert StateAfter(-6, 2) == -71392;
    assert StateAfter(-6, 3) == -52815;
    assert StateAfter(-6, 4) == -128618;
    var u := NthDraw(cfg.seed, ColorDraw(0));
    assert u < 0.0;
    var n := |cfg.colors| as real;
    if n > 0.0 {
      assert u * n < 0.0;
    }
    assert !PaletteHit(cfg, 0);
  }

  /**
   * A negative seed can also build a field with a star off the sphere. With
   * seed -5514 the states run -148097, -115780, -3, 21394 and then stay
   * non-negative, so every lookup hits, yet star 0's polar draw is negative and
   * `Math.acos` gets an argument below -1.
   */
  lemma NegativeSeedLeavesAcosDomain(cfg: Config)
    requires cfg.seed == -5514 && |cfg.colors| > 0
    ensures 2.0 * NthDraw(cfg.seed, PhiDraw(0)) - 1.0 < -1.0
    ensures FirstMiss(cfg, 0).None?
  {
    assert StateAfter(-5514, 1) == -148097;
    assert StateAfter(-5514, 2) == -115780;
    assert StateAfter(-5514, 3) == -3;
    assert StateAfter(-5514, 4) == 21394;
    forall j | 0 <= j < cfg.count
      ensures PaletteHit(cfg, j)
    {
      if j > 0 {
        NonNegativeFrom(cfg.seed, 4, ColorDraw(j));
      }
      ScaledFloorBelow(NthDraw(cfg.seed, ColorDraw(j)), |cfg.colors|);
    }
  }

  /** From a non-negative seed every size lies in [minSize, maxSize) when minSize < maxSize. */
  lemma SizeInRange(cfg: Config, j: nat)
    requires cfg.seed >= 0 && cfg.minSize <= cfg.maxSize
    ensures cfg.minSize <= StarSize(cfg, j)
    ensures cfg.minSize < cfg.maxSize ==> StarSize(cfg, j) < cfg.maxSize
    ensures cfg.minSize == cfg.maxSize ==> StarSize(cfg, j) == cfg.minSize
  {
    DrawInUnitInterval(cfg.seed, SizeDraw(j));
    LerpBounds(cfg.minSize, cfg.maxSize, NthDraw(cfg.seed, SizeDraw(j)));
  }

  /** The twinkle clock's increment: `deltaTime * Math.min(speedFactor * 0.00001, 0.02)`. */
  function TwinkleStep(deltaTime: real, speedFactor: real): real
  {
    deltaTime * TwinkleRate(speedFactor)
  }

  /** `Math.min(speedFactor * 0.00001, 0.02)`: the rate never exceeds 0.02. */
  function TwinkleRate(speedFactor: real): (rate: real)
    ensures rate <= 0.02
    ensures rate <= speedFactor * 0.00001
    ensures rate == 0.02 || rate == speedFactor * 0.00001
    ensures speedFactor >= 0.0 ==> rate >= 0.0
  {
    if speedFactor * 0.00001 <= 0.02 then speedFactor * 0.00001 else 0.02
  }

  /** For non-negative time and speed the clock moves forward by at most 0.02 per unit of time, and by exactly that once the speed passes the ceiling. */
  lemma TwinkleStepBounds(deltaTime: real, speedFactor: real)
    requires deltaTime >= 0.0 && speedFactor >= 0.0
    ensures 0.0 <= TwinkleStep(deltaTime, speedFactor) <= 0.02 * deltaTime
    ensures speedFactor >= 2000.0 ==> TwinkleStep(deltaTime, speedFactor) == 0.02 * deltaTime
  {
    var rate := TwinkleRate(speedFactor);
    ProductNonNegative(deltaTime, rate);
    ProductNonNegative(deltaTime, 0.02 - rate);
    assert 0.02 * deltaTime - deltaTime * rate == deltaTime * (0.02 - rate);
  }

  class StarField {
    const count: nat
    const positions: array<real>
    const sizes: array<real>
    const colorArray: array<real>
    /** The private twinkle clock. */
    var time: real
    /** The `uTime` uniform handed to the shader. */
    var uTime: real

    /** The buffers hold exactly the stars `cfg` describes, every palette lookup having hit. */
    ghost predicate Generated(cfg: Config, trig: Trig)
      reads this, positions, sizes, colorArray
    {
      && count == cfg.count
      && positions.Length == 3 * count && sizes.Length == count && colorArray.Length == 3 * count
      && Filled(cfg, trig, positions, sizes, colorArray, count)
    }

    constructor Init(count: nat, positions: array<real>, sizes: array<real>, colorArray: array<real>)
      ensures this.count == count && this.positions == positions && this.sizes == sizes && this.colorArray == colorArray
      ensures time == 0.0 && uTime == 0.0
    {
      this.count := count;
      this.positions := positions;
      this.sizes := sizes;
      this.colorArray := colorArray;
      time := 0.0;
      uTime := 0.0;
    }

    /** Advance the twinkle clock and republish it as `uTime`; nothing else changes. */
    method Update(deltaTime: real, speedFactor: real := 1.0)
      modifies this
      ensures time == old(time) + TwinkleStep(deltaTime, speedFactor)
      ensures uTime == time
    {
      time := time + deltaTime * TwinkleRate(speedFactor);
      uTime := time;
    }
  }

  /** The first n stars of `cfg` sit in the three buffers, slot by slot, every palette lookup having hit. */
  ghost predicate Filled(cfg: Config, trig: Trig, positions: array<real>, sizes: array<real>, colorArray: array<real>, n: nat)
    reads positions, sizes, colorArray
    requires n <= sizes.Length && 3 * n <= positions.Length && 3 * n <= colorArray.Length
  {
    && (forall j :: 0 <= j < n ==> sizes[j] == StarSize(cfg, j))
    && (forall k :: 0 <= k < 3 * n ==> positions[k] == PositionSlot(cfg, trig, k))
    && (forall k :: 0 <= k < 3 * n ==> PaletteHit(cfg, k / 3) && colorArray[k] == ColorSlot(cfg, k))
  }

  /**
   * `new StarField(options)`: resolve the options, allocate the buffers, fill
   * them; a palette index that misses makes the constructor throw.
   */
  method NewStarField(options: StarFieldOptions, trig: Trig) returns (r: Result<StarField, BuildError>)
    ensures var cfg := Resolve(options);
      r.Success? <==> FirstMiss(cfg, 0).None?
    ensures var cfg := Resolve(options);
      r.Failure? ==> FirstMiss(cfg, 0) == Some(r.error.star) && r.error.index == ColorIndex(cfg, r.error.star)
    ensures r.Success? ==> fresh(r.value) && fresh(r.value.positions) && fresh(r.value.sizes) && fresh(r.value.colorArray)
    ensures r.Success? ==> r.value.Generated(Resolve(options), trig) && r.value.time == 0.0 && r.value.uTime == 0.0
  {
    var cfg := Resolve(options);
    var rng := new Generator(cfg.seed);
    var positions := new real[3 * cfg.count](_ => 0.0);
    var sizes := new real[cfg.count](_ => 0.0);
    var colorArray := new real[3 * cfg.count](_ => 0.0);
    var miss := FillStars(rng, cfg, trig, positions, sizes, colorArray);
    if miss.Some? {
      return Failure(miss.value);
    }
    var field := new StarField.Init(cfg.count, positions, sizes, colorArray);
    return Success(field);
  }

  /**
   * The constructor's loop: star after star, four draws each, the results
   * written into the buffers, until every star is placed or a palette lookup
   * misses.
   */
  method FillStars(rng: Generator, cfg: Config, trig: Trig, positions: array<real>, sizes: array<real>, colorArray: array<real>)
    returns (miss: Option<BuildError>)
    requires rng.state == cfg.seed
    requires positions.Length == 3 * cfg.count && sizes.Length == cfg.count && colorArray.Length == 3 * cfg.count
    requires positions != colorArray
    modifies rng, positions, sizes, colorArray
    ensures miss.None? <==> FirstMiss(cfg, 0).None?
    ensures miss.Some? ==> FirstMiss(cfg, 0) == Some(miss.value.star) && miss.value.index == ColorIndex(cfg, miss.value.star)
    ensures miss.None? ==> Filled(cfg, trig, positions, sizes, colorArray, cfg.count)
  {
    var i := 0;
    while i < cfg.count
      invariant 0 <= i <= cfg.count
      invariant rng.state == StateAfter(cfg.seed, 4 * i)
      invariant FirstMiss(cfg, 0) == FirstMiss(cfg, i)
      invariant forall j :: 0 <= j < i ==> sizes[j] == StarSize(cfg, j)
      invariant forall k :: 0 <= k < 3 * i ==> positions[k] == PositionSlot(cfg, trig, k)
      invariant forall k :: 0 <= k < 3 * i ==> PaletteHit(cfg, k / 3) && colorArray[k] == ColorSlot(cfg, k)
    {
      var p, size, index := DrawStar(rng, cfg, trig, i);
      StorePosition(positions, cfg, trig, i, p);
      StoreSize(sizes, cfg, i, size);
      if !(0 <= index < |cfg.colors|) {
        return Some(PaletteMiss(i, index));
      }
      StoreColor(colorArray, cfg, i, cfg.colors[index]);
      i := i + 1;
    }
    return None;
  }

  /** The loop body's four `rand()` calls for star i: theta, phi, size, colour. */
  method DrawStar(rng: Generator, cfg: Config, trig: Trig, ghost i: nat) returns (p: Vec3, size: real, index: int)
    requires rng.state == StateAfter(cfg.seed, 4 * i)
    modifies rng
    ensures rng.state == StateAfter(cfg.seed, 4 * (i + 1))
    ensures p == StarPosition(cfg, trig, i)
    ensures size == StarSize(cfg, i)
    ensures index == ColorIndex(cfg, i)
  {
    var u := rng.Rand();
    assert u == NthDraw(cfg.seed, ThetaDraw(i));
    var theta := u * Pi * 2.0;
    u := rng.Rand();
    assert u == NthDraw(cfg.seed, PhiDraw(i));
    var phi := trig.acos(2.0 * u - 1.0);
    p := Spherical(cfg.radius, trig, theta, phi);
    u := rng.Rand();
    assert u == NthDraw(cfg.seed, SizeDraw(i));
    size := Lerp(cfg.minSize, cfg.maxSize, u);
    u := rng.Rand();
    assert u == NthDraw(cfg.seed, ColorDraw(i));
    index := ScaledFloor(u, |cfg.colors|);
  }

  /** Write star i's size into slot i, after the stars before it. */
  method StoreSize(sizes: array<real>, cfg: Config, i: nat, size: real)
    requires i < sizes.Length
    requires size == StarSize(cfg, i)
    requires forall j :: 0 <= j < i ==> sizes[j] == StarSize(cfg, j)
    modifies sizes
    ensures forall j :: 0 <= j < i + 1 ==> sizes[j] == StarSize(cfg, j)
    ensures forall j :: 0 <= j < sizes.Length && j != i ==> sizes[j] == old(sizes[j])
  {
    sizes[i] := size;
  }

  /** Write star i's position into slots 3i, 3i+1 and 3i+2, after the stars before it. */
  method StorePosition(positions: array<real>, cfg: Config, trig: Trig, i: nat, p: Vec3)
    requires 3 * i + 2 < positions.Length
    requires p == StarPosition(cfg, trig, i)
    requires forall k :: 0 <= k < 3 * i ==> positions[k] == PositionSlot(cfg, trig, k)
    modifies positions
    ensures forall k :: 0 <= k < 3 * (i + 1) ==> positions[k] == PositionSlot(cfg, trig, k)
    ensures forall k :: 0 <= k < positions.Length && !(3 * i <= k < 3 * i + 3) ==> positions[k] == old(positions[k])
  {
    positions[3 * i], positions[3 * i + 1], positions[3 * i + 2] := p.x, p.y, p.z;
    SlotsOfStar(i);
  }

  /** Write star i's colour into slots 3i, 3i+1 and 3i+2, after the stars before it. */
  method StoreColor(colorArray: array<real>, cfg: Config, i: nat, color: Rgb)
    requires 3 * i + 2 < colorArray.Length
    requires PaletteHit(cfg, i) && color == cfg.colors[ColorIndex(cfg, i)]
    requires forall k :: 0 <= k < 3 * i ==> PaletteHit(cfg, k / 3) && colorArray[k] == ColorSlot(cfg, k)
    modifies colorArray
    ensures forall k :: 0 <= k < 3 * (i + 1) ==> PaletteHit(cfg, k / 3) && colorArray[k] == ColorSlot(cfg, k)
    ensures forall k :: 0 <= k < colorArray.Length && !(3 * i <= k < 3 * i + 3) ==> colorArray[k] == old(colorArray[k])
  {
    colorArray[3 * i], colorArray[3 * i + 1], colorArray[3 * i + 2] := color.r, color.g, color.b;
    SlotsOfStar(i);
  }

  lemma SlotsOfStar(i: nat)
    ensures (3 * i) / 3 == i && (3 * i) % 3 == 0
    ensures (3 * i + 1) / 3 == i && (3 * i + 1) % 3 == 1
    ensures (3 * i + 2) / 3 == i && (3 * i + 2) % 3 == 2
  {
  }

  /** Every star's colour triple in a generated field is exactly some palette entry. */
  lemma StarColorInPalette(field: StarField, cfg: Config, trig: Trig, j: nat)
    requires field.Generated(cfg, trig) && j < field.count
    ensures Rgb(field.colorArray[3 * j], field.colorArray[3 * j + 1], field.colorArray[3 * j + 2]) in cfg.colors
  {
    SlotsOfStar(j);
    assert PaletteHit(cfg, (3 * j) / 3);
    var entry := cfg.colors[ColorIndex(cfg, j)];
    assert field.colorArray[3 * j] == entry.r;
    assert field.colorArray[3 * j + 1] == entry.g;
    assert field.colorArray[3 * j + 2] == entry.b;
  }

  /** Every size in a generated field lies in [minSize, maxSize), given a non-negative seed and minSize < maxSize. */
  lemma StoredSizeInRange(field: StarField, cfg: Config, trig: Trig, j: nat)
    requires field.Generated(cfg, trig) && j < field.count
    requires cfg.seed >= 0 && cfg.minSize < cfg.maxSize
    ensures cfg.minSize <= field.sizes[j] < cfg.maxSize
  {
    SizeInRange(cfg, j);
  }

  /**
   * Construction is deterministic: two fields generated from the same
   * configuration hold the same positions, sizes and colours.
   */
  lemma Deterministic(f1: StarField, f2: StarField, cfg: Config, trig: Trig)
    requires f1.Generated(cfg, trig) && f2.Generated(cfg, trig)
    ensures f1.positions[..] == f2.positions[..]
    ensures f1.sizes[..] == f2.sizes[..]
    ensures f1.colorArray[..] == f2.colorArray[..]
  {
    assert forall k :: 0 <= k < f1.positions.Length ==> f1.positions[k] == f2.positions[k];
    assert forall k :: 0 <= k < f1.sizes.Length ==> f1.sizes[k] == f2.sizes[k];
    assert forall k :: 0 <= k < f1.colorArray.Length ==> f1.colorArray[k] == f2.colorArray[k];
  }

  /** Leaving out the seed is the same as asking for seed 1. */
  lemma OmittedSeedIsOne(options: StarFieldOptions)
    requires options.seed.None?
    ensures Resolve(options) == Resolve(options.(seed := Some(1)))
  {
  }
}
