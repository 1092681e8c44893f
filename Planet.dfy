/**
 * Planets and their moons: a celestial body on a circular orbit in the
 * x-z plane, with an orbit angle that `update` accumulates frame by frame,
 * a one-shot orbit line, and moons that are planets one level down.
 */
module Planets {
  import opened Wrappers
  import opened JsMath
  import opened Bodies

  /** A moon descriptor: no moons, no ring and no info of its own. */
  datatype MoonOptions = MoonOptions(name: string, radius: real, distance: real, orbitPeriod: real, rotationPeriod: real)

  /** A ring's inner and outer radius; it only decorates the mesh. */
  datatype RingOptions = RingOptions(innerRadius: real, outerRadius: real)

  datatype PlanetOptions = PlanetOptions(
    name: string,
    radius: real,
    distance: real,
    orbitPeriod: real,
    rotationPeriod: real,
    moons: Option<seq<MoonOptions>>,
    ring: Option<RingOptions>,
    info: Option<map<string, Value>>)

  /** The options the constructor passes for a moon: the descriptor's name and four numbers, nothing more. */
  function MoonPlanetOptions(m: MoonOptions): (o: PlanetOptions)
    ensures o.moons.None? && o.ring.None? && o.info.None?
  {
    PlanetOptions(m.name, m.radius, m.distance, m.orbitPeriod, m.rotationPeriod, None, None, None)
  }

  /** `options.moons ?? []`. */
  function MoonList(o: PlanetOptions): seq<MoonOptions>
  {
    GetOr(o.moons, [])
  }

  /** A point whose coordinates may be NaN or infinite. */
  datatype Point = Point(x: Number, y: Number, z: Number)

  /** Where a group sits before its first update. */
  const Origin: Point := Point(Finite(0.0), Finite(0.0), Finite(0.0))

  /** `d * v`: a finite factor keeps a finite value finite and a non-finite one non-finite. */
  function Scale(d: real, v: Number): Number
  {
    if v.Finite? then Finite(d * v.value) else NonFinite
  }

  /** A trigonometric function of a number: NaN for an infinite or NaN argument. */
  function Apply(f: real -> real, a: Number): Number
  {
    if a.Finite? then Finite(f(a.value)) else NonFinite
  }

  /**
   * The orbit angle gained in one frame, `(2π / (orbitPeriod * 86400)) * deltaTime * speedFactor`.
   * Nothing guards the period: with 0 the speed is Infinity and the step non-finite.
   */
  function OrbitStep(orbitPeriod: real, deltaTime: real, speedFactor: real): Number
  {
    if orbitPeriod == 0.0 then NonFinite else Finite((TwoPi / (orbitPeriod * 86400.0)) * deltaTime * speedFactor)
  }

  /** With a positive period, non-negative time and speed, the orbit angle never goes back. */
  lemma OrbitForward(orbitPeriod: real, deltaTime: real, speedFactor: real)
    requires orbitPeriod > 0.0 && deltaTime >= 0.0 && speedFactor >= 0.0
    ensures OrbitStep(orbitPeriod, deltaTime, speedFactor).Finite?
    ensures OrbitStep(orbitPeriod, deltaTime, speedFactor).value >= 0.0
  {
    var speed := TwoPi / (orbitPeriod * 86400.0);
    QuotientSign(TwoPi, orbitPeriod * 86400.0);
    ProductNonNegative(speed, deltaTime);
    ProductNonNegative(speed * deltaTime, speedFactor);
  }

  /** The orbit period is in days: one period's worth of seconds at speed 1 is one full orbit. */
  lemma OrbitFullTurn(orbitPeriod: real)
    requires orbitPeriod != 0.0
    ensures OrbitStep(orbitPeriod, orbitPeriod * 86400.0, 1.0) == Finite(TwoPi)
  {
    var c := orbitPeriod * 86400.0;
    assert (TwoPi / c) * c == TwoPi;
  }

  /** Two frames move a planet along its orbit as far as one frame of their combined length. */
  lemma OrbitAdditive(angle: Number, orbitPeriod: real, dt1: real, dt2: real, speedFactor: real)
    ensures Add(Add(angle, OrbitStep(orbitPeriod, dt1, speedFactor)), OrbitStep(orbitPeriod, dt2, speedFactor))
         == Add(angle, OrbitStep(orbitPeriod, dt1 + dt2, speedFactor))
  {
    if angle.Finite? && orbitPeriod != 0.0 {
      var speed := TwoPi / (orbitPeriod * 86400.0);
      assert speed * (dt1 + dt2) * speedFactor == speed * dt1 * speedFactor + speed * dt2 * speedFactor;
    }
  }

  /** A zero orbit period poisons the angle at the first update, and it stays non-finite for good. */
  lemma ZeroPeriodPoisons(angle: Number, orbitPeriod: real, deltaTime: real, speedFactor: real, step: Number)
    requires orbitPeriod == 0.0 || angle.NonFinite?
    ensures Add(angle, OrbitStep(orbitPeriod, deltaTime, speedFactor)).NonFinite?
    ensures Add(Add(angle, OrbitStep(orbitPeriod, deltaTime, speedFactor)), step).NonFinite?
  {
  }

  /** `(distance * cos(angle), 0, distance * sin(angle))`: on the x-z plane, NaN off it once the angle is. */
  function OrbitPosition(distance: real, trig: Trig, angle: Number): (p: Point)
    ensures p.y == Finite(0.0)
    ensures p.x.Finite? <==> angle.Finite?
    ensures p.z.Finite? <==> angle.Finite?
    ensures angle.Finite? ==> p.x.value == distance * trig.cos(angle.value) && p.z.value == distance * trig.sin(angle.value)
  {
    Point(Scale(distance, Apply(trig.cos, angle)), Finite(0.0), Scale(distance, Apply(trig.sin, angle)))
  }

  /** A planet's moving parts: spin, orbit angle, position, orbit line and moons. */
  datatype Motion = Motion(orientation: real, orbitAngle: Number, position: Point, orbitLine: Option<seq<Vec3>>, moons: seq<Planet>)

  /**
   * What one frame does to a planet's moving parts: spin by the body's
   * rotation step, move the orbit angle by the orbit step, put the planet
   * where the new angle says; the orbit line and the moon list stay.
   */
  function Advance(m: Motion, rotationPeriod: real, orbitPeriod: real, distance: real, trig: Trig, deltaTime: real, speedFactor: real): (r: Motion)
  {
    var angle := Add(m.orbitAngle, OrbitStep(orbitPeriod, deltaTime, speedFactor));
    Motion(m.orientation + RotationStep(rotationPeriod, deltaTime, speedFactor), angle, OrbitPosition(distance, trig, angle), m.orbitLine, m.moons)
  }

  /** Two frames in a row leave a planet exactly where one frame of their combined length would. */
  lemma AdvanceTwoFrames(m: Motion, rotationPeriod: real, orbitPeriod: real, distance: real, trig: Trig, dt1: real, dt2: real, speedFactor: real)
    ensures Advance(Advance(m, rotationPeriod, orbitPeriod, distance, trig, dt1, speedFactor), rotationPeriod, orbitPeriod, distance, trig, dt2, speedFactor)
         == Advance(m, rotationPeriod, orbitPeriod, distance, trig, dt1 + dt2, speedFactor)
  {
    RotationAdditive(rotationPeriod, dt1, dt2, speedFactor);
    OrbitAdditive(m.orbitAngle, orbitPeriod, dt1, dt2, speedFactor);
  }

  /** A frame never lifts a planet off the x-z plane, and with a positive period and forward time its angle never goes back. */
  lemma AdvanceStaysInPlane(m: Motion, rotationPeriod: real, orbitPeriod: real, distance: real, trig: Trig, deltaTime: real, speedFactor: real)
    requires m.orbitAngle.Finite? && orbitPeriod > 0.0 && deltaTime >= 0.0 && speedFactor >= 0.0
    ensures Advance(m, rotationPeriod, orbitPeriod, distance, trig, deltaTime, speedFactor).position.y == Finite(0.0)
    ensures Advance(m, rotationPeriod, orbitPeriod, distance, trig, deltaTime, speedFactor).orbitAngle.Finite?
    ensures Advance(m, rotationPeriod, orbitPeriod, distance, trig, deltaTime, speedFactor).orbitAngle.value >= m.orbitAngle.value
  {
    OrbitForward(orbitPeriod, deltaTime, speedFactor);
  }

  /** The orbit line is drawn with this many segments, so it has one more point. */
  const Segments: nat := 128

  /** `(i / segments) * π * 2`: the angle of the orbit line's point i. */
  function OrbitLineAngle(i: nat): (t: real)
    ensures i == 0 ==> t == 0.0
    ensures i == Segments ==> t == TwoPi
  {
    (i as real / Segments as real) * Pi * 2.0
  }

  /** Successive points of the orbit line step forward by the same angle, 2π / 128. */
  lemma OrbitLineEvenlySpaced(i: nat)
    ensures OrbitLineAngle(i + 1) - OrbitLineAngle(i) == TwoPi / Segments as real
  {
    assert (i + 1) as real / 128.0 - i as real / 128.0 == 1.0 / 128.0;
  }

  /** Point i of the orbit line: on the circle of radius `distance` in the x-z plane. */
  function OrbitPoint(distance: real, trig: Trig, i: nat): (p: Vec3)
    ensures p.y == 0.0
  {
    var t := OrbitLineAngle(i);
    Vec3(distance * trig.cos(t), 0.0, distance * trig.sin(t))
  }

  /** The points `createOrbitLine` samples, from angle 0 to angle 2π inclusive. */
  method SampleOrbit(distance: real, trig: Trig) returns (points: seq<Vec3>)
    ensures |points| == Segments + 1
    ensures forall i :: 0 <= i < |points| ==> points[i] == OrbitPoint(distance, trig, i)
    ensures points[0] == Vec3(distance * trig.cos(0.0), 0.0, distance * trig.sin(0.0))
    ensures points[Segments] == Vec3(distance * trig.cos(TwoPi), 0.0, distance * trig.sin(TwoPi))
  {
    points := [];
    var i := 0;
    while i <= Segments
      invariant 0 <= i <= Segments + 1
      invariant |points| == i
      invariant forall k :: 0 <= k < i ==> points[k] == OrbitPoint(distance, trig, k)
    {
      var t := (i as real / Segments as real) * Pi * 2.0;
      points := points + [Vec3(distance * trig.cos(t), 0.0, distance * trig.sin(t))];
      i := i + 1;
    }
    assert points[0] == OrbitPoint(distance, trig, 0);
    assert points[Segments] == OrbitPoint(distance, trig, Segments);
  }

  /** What a scene holds, as far as planets add to it. */
  datatype SceneObject = OrbitLine(points: seq<Vec3>)

  class Scene {
    var objects: seq<SceneObject>

    constructor()
      ensures objects == []
    {
      objects := [];
    }

    method Add(item: SceneObject)
      modifies this
      ensures objects == old(objects) + [item]
    {
      objects := objects + [item];
    }
  }

  class Planet {
    /** The celestial body the planet extends. */
    const body: CelestialBody
    const distance: real
    const orbitPeriod: real
    /** The accumulated orbit angle; non-finite once a zero period has been divided by. */
    var orbitAngle: Number
    var moons: seq<Planet>
    /** The orbit line's points, once it has been created. */
    var orbitLine: Option<seq<Vec3>>
    /** `group.position`. */
    var position: Point

    /** Every object `update` may change: the planet, its moons and their bodies. */
    ghost function Repr(): set<object>
      reads this
    {
      {this, body} + (set m | m in moons) + (set m | m in moons :: m.body)
    }

    /** A moon's footprint is itself and its body. */
    lemma MoonRepr()
      requires moons == []
      ensures Repr() == {this, body}
    {
    }

    /** Moons are distinct and share no body with each other or the planet. */
    ghost predicate Distinct()
      reads this
    {
      && (forall i :: 0 <= i < |moons| ==> moons[i] != this && moons[i].body != body)
      && (forall i, j :: 0 <= i < |moons| && 0 <= j < |moons| && i != j ==> moons[i] != moons[j] && moons[i].body != moons[j].body)
    }

    /** Moons sit one level down: none has moons of its own. */
    ghost predicate Leaves()
      reads this, moons
    {
      forall i :: 0 <= i < |moons| ==> moons[i].moons == []
    }

    ghost predicate Valid()
      reads this, moons
    {
      Distinct() && Leaves()
    }

    /** The state a planet starts in when built from `o`, moons aside. */
    ghost predicate Built(o: PlanetOptions)
      reads this, body
    {
      && body.name == o.name && body.radius == o.radius && body.rotationPeriod == o.rotationPeriod
      && body.info == GetOr(o.info, map[]) && body.orientation == 0.0
      && distance == o.distance && orbitPeriod == o.orbitPeriod
      && orbitAngle == Finite(0.0) && orbitLine == None && position == Origin
    }

    /** One moon per descriptor, in the descriptors' order, each a fresh moonless planet. */
    constructor(options: PlanetOptions)
      ensures Built(options) && fresh(body)
      ensures |moons| == |MoonList(options)|
      ensures forall j :: 0 <= j < |moons| ==>
        moons[j].Built(MoonPlanetOptions(MoonList(options)[j])) && fresh(moons[j]) && fresh(moons[j].body)
      ensures Valid()
      decreases if options.moons.Some? then 1 else 0
    {
      body := new CelestialBody(CelestialOptions(options.name, options.radius, Some(options.rotationPeriod), options.info));
      distance := options.distance;
      orbitPeriod := options.orbitPeriod;
      orbitAngle := Finite(0.0);
      moons := [];
      orbitLine := None;
      position := Origin;
      new;
      if options.moons.Some? {
        var descriptors := options.moons.value;
        var i := 0;
        while i < |descriptors|
          invariant 0 <= i <= |descriptors|
          invariant Built(options) && fresh(body)
          invariant |moons| == i
          invariant forall j :: 0 <= j < i ==>
            moons[j].Built(MoonPlanetOptions(descriptors[j])) && fresh(moons[j]) && fresh(moons[j].body)
          invariant Valid()
        {
          var moon := new Planet(MoonPlanetOptions(descriptors[i]));
          moons := moons + [moon];
          i := i + 1;
        }
      }
    }

    /**
     * Draw the orbit once: the first call samples the circle and adds the
     * line to the scene; every later call returns with nothing changed.
     */
    method CreateOrbitLine(scene: Scene, trig: Trig)
      modifies this, scene
      ensures old(orbitLine).Some? ==> orbitLine == old(orbitLine) && scene.objects == old(scene.objects)
      ensures old(orbitLine).None? ==>
        && orbitLine.Some?
        && |orbitLine.value| == Segments + 1
        && (forall i :: 0 <= i < |orbitLine.value| ==> orbitLine.value[i] == OrbitPoint(distance, trig, i))
        && scene.objects == old(scene.objects) + [OrbitLine(orbitLine.value)]
      ensures orbitAngle == old(orbitAngle) && moons == old(moons) && position == old(position)
    {
      if orbitLine.Some? {
        return;
      }
      var points := SampleOrbit(distance, trig);
      orbitLine := Some(points);
      scene.Add(OrbitLine(points));
    }

    /** The planet's moving parts: the body's spin, the orbit angle, the position, the orbit line and the moons. */
    ghost function Snapshot(): Motion
      reads this, body
    {
      Motion(body.orientation, orbitAngle, position, orbitLine, moons)
    }

    /**
     * One frame: the base spin, then the orbit angle, then the position it
     * implies, then every moon once, in order, with the same arguments.
     */
    method Update(trig: Trig, deltaTime: real, speedFactor: real := 1.0)
      requires Valid()
      modifies Repr()
      ensures Valid() && moons == old(moons)
      ensures Snapshot() == Advance(old(Snapshot()), body.rotationPeriod, orbitPeriod, distance, trig, deltaTime, speedFactor)
      ensures forall j :: 0 <= j < |moons| ==>
        moons[j].Snapshot() == Advance(old(moons[j].Snapshot()), moons[j].body.rotationPeriod, moons[j].orbitPeriod, moons[j].distance, trig, deltaTime, speedFactor)
      decreases if moons == [] then 0 else 1, 1
    {
      body.Update(deltaTime, speedFactor);
      orbitAngle := Add(orbitAngle, OrbitStep(orbitPeriod, deltaTime, speedFactor));
      position := OrbitPosition(distance, trig, orbitAngle);
      UpdateMoons(trig, deltaTime, speedFactor);
    }

    /** `this.moons.forEach((m) => m.update(deltaTime, speedFactor))`: each moon once, in order; the planet itself is left alone. */
    method UpdateMoons(trig: Trig, deltaTime: real, speedFactor: real)
      requires Valid()
      modifies Repr() - {this, body}
      ensures Leaves()
      ensures forall j :: 0 <= j < |moons| ==>
        moons[j].Snapshot() == Advance(old(moons[j].Snapshot()), moons[j].body.rotationPeriod, moons[j].orbitPeriod, moons[j].distance, trig, deltaTime, speedFactor)
      decreases if moons == [] then 0 else 1, 0
    {
      var i := 0;
      while i < |moons|
        invariant 0 <= i <= |moons|
        invariant Leaves()
        invariant forall j :: 0 <= j < |moons| ==>
          moons[j].Snapshot() == if j < i
            then Advance(old(moons[j].Snapshot()), moons[j].body.rotationPeriod, moons[j].orbitPeriod, moons[j].distance, trig, deltaTime, speedFactor)
            else old(moons[j].Snapshot())
      {
        moons[i].MoonRepr();
        moons[i].Update(trig, deltaTime, speedFactor);
        i := i + 1;
      }
    }
  }
}
