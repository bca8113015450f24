/** calculate_volumetric_heating of blueshark/domain/physics/thermal.py:
    the Joule heat of a coil spread over its volume. */
module Thermal {
  import opened Wrappers
  import opened Numbers

  /** calculate_volumetric_heating: I^2 R / V in W/m^3, refusing volumes
      below EPSILON with ValueError. */
  function VolumetricHeating(current: real, resistance: real, volume: real): (r: Result<real>)
    ensures r.Err? <==> volume < EPSILON
    ensures r.Err? ==> r.error == ValueError
    ensures r.Ok? ==> r.value * volume == Sqr(current) * resistance
  {
    if volume < EPSILON then Err(ValueError)
    else
      DivMul(Sqr(current) * resistance, volume);
      Ok(Sqr(current) * resistance / volume)
  }

  /** A coil with non-negative resistance never absorbs heat. */
  lemma HeatingNonNegative(current: real, resistance: real, volume: real)
    requires resistance >= 0.0 && volume >= EPSILON
    ensures VolumetricHeating(current, resistance, volume).value >= 0.0
  {
    var p := Sqr(current) * resistance;
    assert p >= 0.0 by {
      if resistance > 0.0 && current != 0.0 {
        SqrPositive(current);
        MulPos(Sqr(current), resistance);
      }
    }
    var q := VolumetricHeating(current, resistance, volume).value;
    if q < 0.0 {
      MulLt(q, 0.0, volume);
      assert false;
    }
  }

  /** Doubling the current quadruples the heating. */
  lemma DoubleCurrent(current: real, resistance: real, volume: real)
    requires volume >= EPSILON
    ensures VolumetricHeating(2.0 * current, resistance, volume).value
         == 4.0 * VolumetricHeating(current, resistance, volume).value
  {
    assert Sqr(2.0 * current) == 4.0 * Sqr(current);
    assert Sqr(2.0 * current) * resistance == 4.0 * (Sqr(current) * resistance);
  }

  /** 10 A through 2 ohm in 10 m^3 gives 20 W/m^3. */
  lemma StandardProblem()
    ensures VolumetricHeating(10.0, 2.0, 10.0) == Ok(20.0)
  {
    assert Sqr(10.0) == 100.0;
  }

  /** No current, no heat. */
  lemma ZeroCurrent()
    ensures VolumetricHeating(0.0, 2.0, 10.0) == Ok(0.0)
  {
  }

  /** A negative volume is refused. */
  lemma NegativeVolume()
    ensures VolumetricHeating(10.0, 2.0, -10.0) == Err(ValueError)
  {
  }
}
