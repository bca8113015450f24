/** The reference-frame transforms of
    blueshark/models/tubular/physics/transforms.py. */
module Transforms {
  import opened Numbers

  /** math.sqrt(3) as a real (the double nearest to the square root of 3). */
  const SQRT3: real := 1.7320508075688772

  /** inverse_clarke_transform: the three phase currents of a stationary
      alpha-beta current. */
  function InverseClarke(alpha: real, beta: real): (r: (real, real, real))
    ensures r.0 == alpha
    ensures r.0 + r.1 + r.2 == 0.0
    ensures r.1 - r.2 == SQRT3 * beta
  {
    (alpha, 0.5 * (SQRT3 * beta - alpha), 0.5 * (-SQRT3 * beta - alpha))
  }

  /** The three equations of InverseClarke's contract admit one solution
      only, so they characterise it completely. */
  lemma InverseClarkeUnique(alpha: real, beta: real, a: real, b: real, c: real)
    requires a == alpha && a + b + c == 0.0 && b - c == SQRT3 * beta
    ensures (a, b, c) == InverseClarke(alpha, beta)
  {
  }

  /** Reversing beta swaps phases b and c. */
  lemma InverseClarkeMirror(alpha: real, beta: real)
    ensures InverseClarke(alpha, -beta).1 == InverseClarke(alpha, beta).2
    ensures InverseClarke(alpha, -beta).2 == InverseClarke(alpha, beta).1
  {
  }

  /** A pure alpha current of 1 splits as (1, -0.5, -0.5). */
  lemma InverseClarkeAlphaOnly()
    ensures InverseClarke(1.0, 0.0) == (1.0, -0.5, -0.5)
  {
  }

  /** inverse_park_transform: rotating a d-q current by the electrical
      angle. cos and sin are parameters of the model. */
  function InversePark(trig: Trig, dCurrent: real, qCurrent: real, elecAngle: real): (real, real) {
    (dCurrent * Cos(trig, elecAngle) - qCurrent * Sin(trig, elecAngle),
     dCurrent * Sin(trig, elecAngle) + qCurrent * Cos(trig, elecAngle))
  }

  /** At an angle where cos is 1 and sin is 0 the currents are unchanged. */
  lemma InverseParkAtZero(trig: Trig, dCurrent: real, qCurrent: real, elecAngle: real)
    requires Cos(trig, elecAngle) == 1.0 && Sin(trig, elecAngle) == 0.0
    ensures InversePark(trig, dCurrent, qCurrent, elecAngle) == (dCurrent, qCurrent)
  {
    var c, s := Cos(trig, elecAngle), Sin(trig, elecAngle);
    assert dCurrent * c - qCurrent * s == dCurrent;
    assert dCurrent * s + qCurrent * c == qCurrent;
  }

  /** The rotation keeps the current's magnitude whenever cos and sin
      satisfy cos^2 + sin^2 = 1 at the angle. */
  lemma InverseParkKeepsMagnitude(trig: Trig, dCurrent: real, qCurrent: real, elecAngle: real)
    requires Sqr(Cos(trig, elecAngle)) + Sqr(Sin(trig, elecAngle)) == 1.0
    ensures Sqr(InversePark(trig, dCurrent, qCurrent, elecAngle).0)
          + Sqr(InversePark(trig, dCurrent, qCurrent, elecAngle).1)
         == Sqr(dCurrent) + Sqr(qCurrent)
  {
    var c, s := Cos(trig, elecAngle), Sin(trig, elecAngle);
    RotationIdentity(dCurrent, qCurrent, c, s);
  }

  lemma RotationIdentity(d: real, q: real, c: real, s: real)
    requires c * c + s * s == 1.0
    ensures (d * c - q * s) * (d * c - q * s) + (d * s + q * c) * (d * s + q * c) == d * d + q * q
  {
    calc {
      (d * c - q * s) * (d * c - q * s) + (d * s + q * c) * (d * s + q * c);
    ==
      d * d * (c * c + s * s) + q * q * (c * c + s * s);
    ==
      d * d + q * q;
    }
  }
}
