/**
 * The Sun: a celestial body that carries a point light and overrides the
 * base rotation with its own guard and its own time constant.
 */
module Suns {
  import opened Wrappers
  import opened JsMath
  import opened Bodies

  /** The Sun's options; unlike a planet's, its info record is required. */
  datatype SunOptions = SunOptions(
    name: string,
    radius: real,
    rotationPeriod: Option<real>,
    lightIntensity: Option<real>,
    info: map<string, Value>)

  /** `options.lightIntensity || 2`: an absent or zero intensity falls back to 2. */
  function LightIntensity(requested: Option<real>): (intensity: real)
    ensures intensity != 0.0
    ensures requested.Some? && requested.value != 0.0 ==> intensity == requested.value
    ensures requested.None? || requested.value == 0.0 ==> intensity == 2.0
  {
    if requested.Some? && requested.value != 0.0 then requested.value else 2.0
  }

  /**
   * The Sun's spin per frame: `(2π / (rotationPeriod * 86400)) * deltaTime * speedFactor`
   * when the period is positive, nothing otherwise.
   */
  function SunRotationStep(rotationPeriod: real, deltaTime: real, speedFactor: real): real
  {
    if rotationPeriod > 0.0 then (TwoPi / (rotationPeriod * 86400.0)) * deltaTime * speedFactor else 0.0
  }

  /** Zero and negative periods both leave the Sun still, where the base class would spin backwards. */
  lemma SunStillUnlessPositive(rotationPeriod: real, deltaTime: real, speedFactor: real)
    requires rotationPeriod <= 0.0
    ensures SunRotationStep(rotationPeriod, deltaTime, speedFactor) == 0.0
    ensures rotationPeriod < 0.0 && deltaTime > 0.0 && speedFactor > 0.0 ==> RotationStep(rotationPeriod, deltaTime, speedFactor) < 0.0
  {
    if rotationPeriod < 0.0 && deltaTime > 0.0 && speedFactor > 0.0 {
      RotationReverses(-rotationPeriod, deltaTime, speedFactor);
      var speed := TwoPi / (-rotationPeriod * 3600.0);
      QuotientSign(TwoPi, -rotationPeriod * 3600.0);
      ProductPositive(speed, deltaTime);
      ProductPositive(speed * deltaTime, speedFactor);
    }
  }

  /**
   * The Sun counts its period in days (86400 s) where the base class counts
   * hours (3600 s): for the same positive period it turns 24 times slower.
   */
  lemma SunTurnsInDays(rotationPeriod: real, deltaTime: real, speedFactor: real)
    requires rotationPeriod > 0.0
    ensures SunRotationStep(rotationPeriod, deltaTime, speedFactor) * 24.0 == RotationStep(rotationPeriod, deltaTime, speedFactor)
  {
    var day := rotationPeriod * 86400.0;
    var hour := rotationPeriod * 3600.0;
    assert day == hour * 24.0;
    assert (TwoPi / day) * 24.0 == TwoPi / hour;
  }

  /** One period's worth of seconds at speed 1 is one full turn of the Sun. */
  lemma SunFullTurn(rotationPeriod: real)
    requires rotationPeriod > 0.0
    ensures SunRotationStep(rotationPeriod, rotationPeriod * 86400.0, 1.0) == TwoPi
  {
    var c := rotationPeriod * 86400.0;
    assert (TwoPi / c) * c == TwoPi;
  }

  class Sun {
    /** The celestial body the Sun extends. */
    const body: CelestialBody
    /** The intensity of the point light it carries. */
    const lightIntensity: real

    /** Name, radius, rotation period and info go to the base constructor unchanged. */
    constructor(options: SunOptions)
      ensures fresh(body)
      ensures body.name == options.name && body.radius == options.radius
      ensures body.rotationPeriod == GetOr(options.rotationPeriod, 0.0)
      ensures body.info == options.info
      ensures body.orientation == 0.0
      ensures lightIntensity == LightIntensity(options.lightIntensity)
    {
      body := new CelestialBody(CelestialOptions(options.name, options.radius, options.rotationPeriod, Some(options.info)));
      lightIntensity := LightIntensity(options.lightIntensity);
    }

    /** The override: spin only for a positive period, in days; no orbit, nothing else moves. */
    method Update(deltaTime: real, speedFactor: real := 1.0)
      modifies body
      ensures body.orientation == old(body.orientation) + SunRotationStep(body.rotationPeriod, deltaTime, speedFactor)
    {
      if body.rotationPeriod > 0.0 {
        var rotationSpeed := TwoPi / (body.rotationPeriod * 86400.0);
        body.orientation := body.orientation + rotationSpeed * deltaTime * speedFactor;
      }
    }
  }
}
