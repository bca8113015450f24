/** commutation of blueshark/models/tubular/physics/commutation.py: the
    three phase currents sampled at equally spaced displacements along one
    circumference. */
module Commutation {
  import opened Wrappers
  import opened Numbers
  import opened Definitions
  import Angles
  import Transforms

  /** isinstance(v, int); bool is a subclass of int. */
  predicate IsInt(v: Value) {
    v.VInt? || v.VBool?
  }

  function AsInt(v: Value): int
    requires IsInt(v)
  {
    match v
    case VInt(i) => i
    case VBool(b) => if b then 1 else 0
  }

  /** The argument checks, in the source's order: circumference, pole
      pairs, peak currents, sample count. */
  function CheckArguments(circumference: Value, polePairs: Value, currentsPeak: Value,
                          numSamples: Value): (r: Outcome)
    ensures r.Pass? <==>
      IsNumber(circumference) && AsReal(circumference) > 0.0
      && IsInt(polePairs) && AsInt(polePairs) > 0
      && currentsPeak.VTuple? && IsNumericPair(currentsPeak)
      && IsInt(numSamples) && AsInt(numSamples) > 0
    ensures r.Fail? ==> r.error in {ValueError, TypeError}
    ensures r.Fail? && (!IsNumber(circumference) || AsReal(circumference) <= 0.0) ==> r.error == ValueError
    ensures r.Fail? && r.error == TypeError ==> !(currentsPeak.VTuple? && IsNumericPair(currentsPeak))
  {
    if !IsNumber(circumference) || AsReal(circumference) <= 0.0 then Fail(ValueError)
    else if !IsInt(polePairs) || AsInt(polePairs) <= 0 then Fail(ValueError)
    else if !currentsPeak.VTuple? || |currentsPeak.items| != 2
            || !IsNumber(currentsPeak.items[0]) || !IsNumber(currentsPeak.items[1]) then Fail(TypeError)
    else if !IsInt(numSamples) || AsInt(numSamples) <= 0 then Fail(ValueError)
    else Pass
  }

  /** The phase currents at sample `step`: the mechanical angle of the
      displacement, its electrical angle shifted by the phase offset, the
      inverse Park and inverse Clarke transforms. */
  function Sample(trig: Trig, circumference: real, polePairs: int, id: real, iq: real,
                  stepSize: real, phaseOffset: real, step: nat): (real, real, real)
    requires circumference > 0.0 && polePairs > 0
  {
    var mech := Angles.MechanicalAngle(circumference, step as real * stepSize).value;
    var elec := Angles.ElectricalAngle(polePairs, mech).value + phaseOffset;
    var (alpha, beta) := Transforms.InversePark(trig, id, iq, elec);
    Transforms.InverseClarke(alpha, beta)
  }

  /** The step size and the samples 0..numSamples, both ends included. */
  function Profile(trig: Trig, circumference: real, polePairs: int, id: real, iq: real,
                   numSamples: nat, phaseOffset: real): (real, seq<(real, real, real)>)
    requires circumference > 0.0 && polePairs > 0 && numSamples > 0
  {
    var stepSize := circumference / numSamples as real;
    (stepSize, seq(numSamples + 1, k requires 0 <= k <= numSamples =>
                     Sample(trig, circumference, polePairs, id, iq, stepSize, phaseOffset, k)))
  }

  /** commutation, as a value. */
  function CommutationOf(trig: Trig, circumference: Value, polePairs: Value, currentsPeak: Value,
                         numSamples: Value, phaseOffset: real := 0.0): (r: Result<(real, seq<(real, real, real)>)>)
    ensures r.Err? <==> CheckArguments(circumference, polePairs, currentsPeak, numSamples).Fail?
    ensures r.Err? ==> r.error == CheckArguments(circumference, polePairs, currentsPeak, numSamples).error
  {
    var check := CheckArguments(circumference, polePairs, currentsPeak, numSamples);
    if check.Fail? then Err(check.error)
    else
      Ok(Profile(trig, AsReal(circumference), AsInt(polePairs),
                 AsReal(currentsPeak.items[0]), AsReal(currentsPeak.items[1]),
                 AsInt(numSamples), phaseOffset))
  }

  /** commutation: the checks, then the sampling loop. */
  method ComputeCommutation(trig: Trig, circumference: Value, polePairs: Value, currentsPeak: Value,
                            numSamples: Value, phaseOffset: real := 0.0)
    returns (r: Result<(real, seq<(real, real, real)>)>)
    ensures r == CommutationOf(trig, circumference, polePairs, currentsPeak, numSamples, phaseOffset)
  {
    var check := CheckArguments(circumference, polePairs, currentsPeak, numSamples);
    if check.Fail? {
      return Err(check.error);
    }
    var c, p := AsReal(circumference), AsInt(polePairs);
    var id, iq := AsReal(currentsPeak.items[0]), AsReal(currentsPeak.items[1]);
    var n := AsInt(numSamples);
    var stepSize := c / n as real;
    var profile := SampleLoop(trig, c, p, id, iq, n, stepSize, phaseOffset);
    assert profile == Profile(trig, c, p, id, iq, n, phaseOffset).1;
    return Ok((stepSize, profile));
  }

  /** The loop over range(num_samples + 1). */
  method SampleLoop(trig: Trig, c: real, p: int, id: real, iq: real, n: nat,
                    stepSize: real, phaseOffset: real) returns (profile: seq<(real, real, real)>)
    requires c > 0.0 && p > 0
    ensures |profile| == n + 1
    ensures forall k :: 0 <= k <= n ==> profile[k] == Sample(trig, c, p, id, iq, stepSize, phaseOffset, k)
  {
    profile := [];
    for step := 0 to n + 1
      invariant |profile| == step
      invariant forall k :: 0 <= k < step ==> profile[k] == Sample(trig, c, p, id, iq, stepSize, phaseOffset, k)
    {
      var mech := Angles.MechanicalAngle(c, step as real * stepSize).value;
      var elec := Angles.ElectricalAngle(p, mech).value + phaseOffset;
      var (alpha, beta) := Transforms.InversePark(trig, id, iq, elec);
      var phases := Transforms.InverseClarke(alpha, beta);
      assert phases == Sample(trig, c, p, id, iq, stepSize, phaseOffset, step);
      profile := profile + [phases];
    }
  }

  /** A valid call gives numSamples + 1 samples spaced circumference /
      numSamples apart, so that numSamples steps cover one circumference. */
  lemma ProfileShape(trig: Trig, circumference: Value, polePairs: Value, currentsPeak: Value,
                     numSamples: Value, phaseOffset: real)
    requires CommutationOf(trig, circumference, polePairs, currentsPeak, numSamples, phaseOffset).Ok?
    ensures var (stepSize, profile) := CommutationOf(trig, circumference, polePairs, currentsPeak, numSamples, phaseOffset).value;
      |profile| == AsInt(numSamples) + 1 && stepSize * AsInt(numSamples) as real == AsReal(circumference)
  {
  }

  /** Every sample is a balanced set of three phase currents. */
  lemma SamplesBalanced(trig: Trig, circumference: real, polePairs: int, id: real, iq: real,
                        numSamples: nat, phaseOffset: real, k: nat)
    requires circumference > 0.0 && polePairs > 0 && numSamples > 0 && k <= numSamples
    ensures var s := Profile(trig, circumference, polePairs, id, iq, numSamples, phaseOffset).1[k];
      s.0 + s.1 + s.2 == 0.0
  {
  }

  /** The last sample lies one full circumference after the first, so the
      profile ends where it began. */
  lemma ProfileCloses(trig: Trig, circumference: real, polePairs: int, id: real, iq: real,
                      numSamples: nat, phaseOffset: real)
    requires circumference > 0.0 && polePairs > 0 && numSamples > 0
    ensures var profile := Profile(trig, circumference, polePairs, id, iq, numSamples, phaseOffset).1;
      profile[numSamples] == profile[0]
  {
    var stepSize := circumference / numSamples as real;
    LastSampleAngle(circumference, numSamples, stepSize);
    SameAngleSameSample(trig, circumference, polePairs, id, iq, stepSize, phaseOffset, numSamples, 0);
  }

  /** numSamples steps of circumference / numSamples make one
      circumference, which is mechanical angle 0 again. */
  lemma LastSampleAngle(c: real, n: nat, stepSize: real)
    requires c > 0.0 && n > 0 && stepSize == c / n as real
    ensures Angles.MechanicalAngle(c, n as real * stepSize) == Angles.MechanicalAngle(c, (0 as nat) as real * stepSize)
  {
    assert n as real * stepSize == 0.0 + 1 as real * c;
    assert (0 as nat) as real * stepSize == 0.0;
    Angles.MechanicalPeriodic(c, 0.0, 1);
  }

  lemma SameAngleSameSample(trig: Trig, c: real, p: int, id: real, iq: real,
                            stepSize: real, phaseOffset: real, j: nat, k: nat)
    requires c > 0.0 && p > 0
    requires Angles.MechanicalAngle(c, j as real * stepSize) == Angles.MechanicalAngle(c, k as real * stepSize)
    ensures Sample(trig, c, p, id, iq, stepSize, phaseOffset, j) == Sample(trig, c, p, id, iq, stepSize, phaseOffset, k)
  {
  }

  /** One pole pair, unit peak d current, two samples over a unit
      circumference: three samples, 0.5 apart. */
  lemma TwoSamples(trig: Trig)
    ensures CommutationOf(trig, VFloat(1.0), VInt(1), VTuple([VFloat(1.0), VFloat(0.0)]), VInt(2), 0.0).Ok?
    ensures CommutationOf(trig, VFloat(1.0), VInt(1), VTuple([VFloat(1.0), VFloat(0.0)]), VInt(2), 0.0).value.0 == 0.5
    ensures |CommutationOf(trig, VFloat(1.0), VInt(1), VTuple([VFloat(1.0), VFloat(0.0)]), VInt(2), 0.0).value.1| == 3
  {
  }

  /** A list of peak currents is refused with TypeError, zero samples and
      a zero circumference with ValueError. */
  lemma RejectedArguments(trig: Trig)
    ensures CommutationOf(trig, VFloat(1.0), VInt(1), VList([VFloat(1.0), VFloat(0.0)]), VInt(10), 0.0) == Err(TypeError)
    ensures CommutationOf(trig, VFloat(1.0), VInt(1), VTuple([VFloat(1.0)]), VInt(10), 0.0) == Err(TypeError)
    ensures CommutationOf(trig, VFloat(1.0), VInt(1), VTuple([VFloat(1.0), VFloat(0.0)]), VInt(0), 0.0) == Err(ValueError)
    ensures CommutationOf(trig, VFloat(0.0), VInt(1), VTuple([VFloat(1.0), VFloat(0.0)]), VInt(10), 0.0) == Err(ValueError)
  {
  }
}
