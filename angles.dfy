/** mechanical_angle and electrical_angle of
    blueshark/models/tubular/physics/angles.py: a linear displacement along
    the rotor path as an angle, reduced to one turn. */
module Angles {
  import opened Wrappers
  import opened Numbers

  /** mechanical_angle: (2 pi * displacement / circumference) mod 2 pi;
      a non-positive circumference raises ValueError. */
  function MechanicalAngle(circumference: real, displacement: real): (r: Result<real>)
    ensures r.Ok? <==> circumference > 0.0
    ensures r.Err? ==> r.error == ValueError
    ensures r.Ok? ==> 0.0 <= r.value < TWO_PI
  {
    if circumference <= 0.0 then Err(ValueError)
    else Ok(FMod(TWO_PI * displacement / circumference, TWO_PI))
  }

  /** electrical_angle: (mechanical angle * pole pairs) mod 2 pi; a
      non-positive number of pole pairs raises ValueError. */
  function ElectricalAngle(numPolePairs: int, mechAngle: real): (r: Result<real>)
    ensures r.Ok? <==> numPolePairs > 0
    ensures r.Err? ==> r.error == ValueError
    ensures r.Ok? ==> 0.0 <= r.value < TWO_PI
  {
    if numPolePairs <= 0 then Err(ValueError)
    else Ok(FMod(mechAngle * numPolePairs as real, TWO_PI))
  }

  /** Moving by whole circumferences leaves the mechanical angle unchanged. */
  lemma MechanicalPeriodic(circumference: real, displacement: real, k: int)
    requires circumference > 0.0
    ensures MechanicalAngle(circumference, displacement + k as real * circumference)
         == MechanicalAngle(circumference, displacement)
  {
    TurnArithmetic(circumference, displacement, k);
    FModShift(TWO_PI * displacement / circumference, TWO_PI, k);
  }

  lemma TurnArithmetic(c: real, d: real, k: int)
    requires c > 0.0
    ensures TWO_PI * (d + k as real * c) / c == TWO_PI * d / c + k as real * TWO_PI
  {
    var kr := k as real;
    calc {
      TWO_PI * (d + kr * c) / c;
    ==
      (TWO_PI * d + TWO_PI * kr * c) / c;
    ==
      TWO_PI * d / c + (TWO_PI * kr * c) / c;
    == { assert (TWO_PI * kr * c) / c == TWO_PI * kr; }
      TWO_PI * d / c + kr * TWO_PI;
    }
  }

  /** Turning the rotor by a whole mechanical turn leaves the electrical
      angle unchanged. */
  lemma ElectricalPeriodic(numPolePairs: int, mechAngle: real)
    requires numPolePairs > 0
    ensures ElectricalAngle(numPolePairs, mechAngle + TWO_PI) == ElectricalAngle(numPolePairs, mechAngle)
  {
    ElectricalTurned(numPolePairs, mechAngle);
    FModShift(mechAngle * numPolePairs as real, TWO_PI, numPolePairs);
  }

  /** A whole mechanical turn adds numPolePairs whole electrical turns. */
  lemma ElectricalTurned(numPolePairs: int, mechAngle: real)
    requires numPolePairs > 0
    ensures ElectricalAngle(numPolePairs, mechAngle + TWO_PI)
         == Ok(FMod(mechAngle * numPolePairs as real + numPolePairs as real * TWO_PI, TWO_PI))
  {
    assert (mechAngle + TWO_PI) * numPolePairs as real
        == mechAngle * numPolePairs as real + numPolePairs as real * TWO_PI;
  }

  /** With circumference 10, a displacement of one circumference is angle
      0 again. */
  lemma FullCircumference()
    ensures MechanicalAngle(10.0, 10.0) == Ok(0.0)
  {
    assert TWO_PI * 10.0 / 10.0 == TWO_PI;
    FModUnique(TWO_PI, TWO_PI, 1);
  }

  /** With circumference 10, a displacement of 15 is half a turn. */
  lemma OneAndAHalfCircumference()
    ensures MechanicalAngle(10.0, 15.0) == Ok(PI)
  {
    assert TWO_PI * 15.0 / 10.0 == 3.0 * PI;
    FModUnique(3.0 * PI, TWO_PI, 1);
  }

  /** Two pole pairs turn a mechanical half turn into a whole electrical
      turn, which is angle 0. */
  lemma TwoPolePairsHalfTurn()
    ensures ElectricalAngle(2, PI) == Ok(0.0)
  {
    assert PI * 2 as real == TWO_PI;
    FModUnique(TWO_PI, TWO_PI, 1);
  }
}
