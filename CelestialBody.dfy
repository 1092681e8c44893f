/**
 * The base of every body in the scene: a name, a radius, a rotation period
 * in hours and a free-form info record, plus the spin of its sphere mesh
 * about the y axis, which `update` advances frame by frame.
 */
module Bodies {
  import opened Wrappers
  import opened JsMath

  /** A value in an info record: the record holds strings and numbers. */
  datatype Value = Text(text: string) | Numeric(number: real)

  /** The options a body is built from; rotation period and info may be absent. */
  datatype CelestialOptions = CelestialOptions(
    name: string,
    radius: real,
    rotationPeriod: Option<real>,
    info: Option<map<string, Value>>)

  /**
   * The spin added by one frame: `(2π / (rotationPeriod * 3600)) * deltaTime * speedFactor`
   * radians, or nothing when the period is the sentinel 0.
   */
  function RotationStep(rotationPeriod: real, deltaTime: real, speedFactor: real): real
  {
    if rotationPeriod != 0.0 then (TwoPi / (rotationPeriod * 3600.0)) * deltaTime * speedFactor else 0.0
  }

  /** The rotation period is in hours: one period's worth of seconds at speed 1 is one full turn. */
  lemma RotationFullTurn(rotationPeriod: real)
    requires rotationPeriod != 0.0
    ensures RotationStep(rotationPeriod, rotationPeriod * 3600.0, 1.0) == TwoPi
  {
    var c := rotationPeriod * 3600.0;
    assert (TwoPi / c) * c == TwoPi;
  }

  /** With a positive period, non-negative time and speed never turn a body backwards. */
  lemma RotationForward(rotationPeriod: real, deltaTime: real, speedFactor: real)
    requires rotationPeriod > 0.0 && deltaTime >= 0.0 && speedFactor >= 0.0
    ensures RotationStep(rotationPeriod, deltaTime, speedFactor) >= 0.0
  {
    var speed := TwoPi / (rotationPeriod * 3600.0);
    QuotientSign(TwoPi, rotationPeriod * 3600.0);
    ProductNonNegative(speed, deltaTime);
    ProductNonNegative(speed * deltaTime, speedFactor);
  }

  /** Nothing rejects a negative period: it spins the body the other way at the same rate. */
  lemma RotationReverses(rotationPeriod: real, deltaTime: real, speedFactor: real)
    ensures RotationStep(-rotationPeriod, deltaTime, speedFactor) == -RotationStep(rotationPeriod, deltaTime, speedFactor)
  {
    if rotationPeriod != 0.0 {
      var c := rotationPeriod * 3600.0;
      assert TwoPi / (-rotationPeriod * 3600.0) == -(TwoPi / c) by {
        assert -rotationPeriod * 3600.0 == -c;
      }
    }
  }

  /** Two frames advance the spin as much as one frame of their combined length. */
  lemma RotationAdditive(rotationPeriod: real, dt1: real, dt2: real, speedFactor: real)
    ensures RotationStep(rotationPeriod, dt1 + dt2, speedFactor)
         == RotationStep(rotationPeriod, dt1, speedFactor) + RotationStep(rotationPeriod, dt2, speedFactor)
  {
    if rotationPeriod != 0.0 {
      var speed := TwoPi / (rotationPeriod * 3600.0);
      assert speed * (dt1 + dt2) * speedFactor == speed * dt1 * speedFactor + speed * dt2 * speedFactor;
    }
  }

  /** The three entries every info record starts from. */
  function BaseInfo(name: string, radius: real, rotationPeriod: real): map<string, Value>
  {
    map["name" := Text(name), "radius" := Numeric(radius), "rotationPeriod" := Numeric(rotationPeriod)]
  }

  class CelestialBody {
    const name: string
    const radius: real
    const rotationPeriod: real
    const info: map<string, Value>
    /** `mesh.rotation.y`: the spin of the body's sphere. */
    var orientation: real

    /** Absent rotation period becomes 0 (no spin); absent info becomes the empty record. */
    constructor(options: CelestialOptions)
      ensures name == options.name && radius == options.radius
      ensures rotationPeriod == (if options.rotationPeriod.Some? then options.rotationPeriod.value else 0.0)
      ensures info == (if options.info.Some? then options.info.value else map[])
      ensures orientation == 0.0
    {
      name := options.name;
      radius := options.radius;
      rotationPeriod := GetOr(options.rotationPeriod, 0.0);
      info := GetOr(options.info, map[]);
      orientation := 0.0;
    }

    /** Spin the body by one frame's worth; a zero period leaves it where it is. */
    method Update(deltaTime: real, speedFactor: real := 1.0)
      modifies this
      ensures orientation == old(orientation) + RotationStep(rotationPeriod, deltaTime, speedFactor)
      ensures rotationPeriod == 0.0 ==> orientation == old(orientation)
    {
      if rotationPeriod != 0.0 {
        var speed := TwoPi / (rotationPeriod * 3600.0);
        orientation := orientation + speed * deltaTime * speedFactor;
      }
    }

    /**
     * The body's fields merged with its info record, the record spread last:
     * its keys are the three field names plus the record's own, a record
     * entry wins over the field of the same name, and every other field
     * shows through.
     */
    function GetInfo(): (r: map<string, Value>)
      ensures r.Keys == {"name", "radius", "rotationPeriod"} + info.Keys
      ensures forall key :: key in info ==> r[key] == info[key]
      ensures "name" !in info ==> r["name"] == Text(name)
      ensures "radius" !in info ==> r["radius"] == Numeric(radius)
      ensures "rotationPeriod" !in info ==> r["rotationPeriod"] == Numeric(rotationPeriod)
    {
      BaseInfo(name, radius, rotationPeriod) + info
    }
  }
}
