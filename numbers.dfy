/** Numeric helpers standing in for Python's float operations.
    Floats are modelled as `real`; rounding to PRECISION decimal places is
    not modelled. */
module Numbers {

  /** math.pi as a real (the double nearest to pi). */
  const PI: real := 3.141592653589793
  /** TWO_PI of blueshark/configs/constants.py. */
  const TWO_PI: real := 2.0 * PI
  /** EPSILON of blueshark/configs/constants.py. */
  const EPSILON: real := 0.0000000001

  /** The trigonometric functions the source takes from `math`; the model
      takes them as parameters. */
  datatype Trig = Trig(cos: real -> real, sin: real -> real)

  /** math.cos */
  function Cos(trig: Trig, x: real): real {
    trig.cos(x)
  }

  /** math.sin */
  function Sin(trig: Trig, x: real): real {
    trig.sin(x)
  }

  function Abs(x: real): (r: real)
    ensures r >= 0.0 && (r == x || r == -x)
  {
    if x < 0.0 then -x else x
  }

  /** abs() on a Python int. */
  function IAbs(v: int): (r: int)
    ensures r >= 0 && (r == v || r == -v)
  {
    if v < 0 then -v else v
  }

  function Sqr(x: real): (r: real)
    ensures r >= 0.0
  {
    x * x
  }

  /** math.floor */
  function Floor(x: real): (r: int)
    ensures r as real <= x < r as real + 1.0
  {
    x.Floor
  }

  /** math.ceil */
  function Ceil(x: real): (r: int)
    ensures r as real - 1.0 < x <= r as real
  {
    -((-x).Floor)
  }

  /** int(x) on a float: truncation toward zero. */
  function Trunc(x: real): (r: int)
    ensures x >= 0.0 ==> r == Floor(x)
    ensures x < 0.0 ==> r == Ceil(x)
  {
    if x >= 0.0 then x.Floor else -((-x).Floor)
  }

  /** Python's float `x % m` for a positive modulus (the result takes the
      sign of the modulus). */
  function FMod(x: real, m: real): (r: real)
    requires m > 0.0
    ensures 0.0 <= r < m
  {
    var k := (x / m).Floor;
    FloorScaled(x, m, k);
    x - k as real * m
  }

  /** From k <= x/m < k+1 it follows that k*m <= x < (k+1)*m. */
  lemma FloorScaled(x: real, m: real, k: int)
    requires m > 0.0 && k == (x / m).Floor
    ensures k as real * m <= x < k as real * m + m
  {
    var q := x / m;
    var kr := k as real;
    calc {
      kr * m;
    <= { MulLe(kr, q, m); }
      q * m;
    == { DivMul(x, m); }
      x;
    }
    calc {
      x;
    == { DivMul(x, m); }
      q * m;
    < { MulLt(q, kr + 1.0, m); }
      (kr + 1.0) * m;
    == { Distrib(kr, m); }
      kr * m + m;
    }
  }

  lemma DivMul(x: real, m: real)
    requires m > 0.0
    ensures (x / m) * m == x
  {
  }

  lemma Distrib(a: real, m: real)
    ensures (a + 1.0) * m == a * m + m
  {
  }

  lemma MulLe(a: real, b: real, m: real)
    requires m > 0.0 && a <= b
    ensures a * m <= b * m
  {
  }

  lemma MulLt(a: real, b: real, m: real)
    requires m > 0.0 && a < b
    ensures a * m < b * m
  {
  }

  lemma MulPos(a: real, b: real)
    requires a > 0.0 && b > 0.0
    ensures a * b > 0.0
  {
  }

  /** A non-zero number has a positive square. */
  lemma SqrPositive(x: real)
    requires x != 0.0
    ensures Sqr(x) > 0.0
  {
    if x > 0.0 {
      calc { Sqr(x); == x * x; > 0.0; }
    } else {
      calc { Sqr(x); == (-x) * (-x); > 0.0; }
    }
  }

  /** Squares grow with non-negative arguments. */
  lemma SqrMonotone(a: real, b: real)
    requires 0.0 <= a < b
    ensures Sqr(a) < Sqr(b)
  {
    if a == 0.0 {
      calc { Sqr(a); == 0.0; < { MulPos(b, b); } b * b; == Sqr(b); }
    } else {
      calc {
        Sqr(a);
      ==
        a * a;
      < { MulLt(a, b, a); }
        b * a;
      == 
        a * b;
      < { MulLt(a, b, b); }
        b * b;
      ==
        Sqr(b);
      }
    }
  }

  /** FMod only depends on x up to whole multiples of m. */
  lemma FModShift(x: real, m: real, k: int)
    requires m > 0.0
    ensures FMod(x + k as real * m, m) == FMod(x, m)
  {
    var j := (x / m).Floor;
    FloorScaled(x, m, j);
    var y := x + k as real * m;
    assert y - (j + k) as real * m == x - j as real * m by {
      calc {
        (j + k) as real * m;
      ==
        j as real * m + k as real * m;
      }
    }
    FModUnique(y, m, j + k);
    FModUnique(x, m, j);
  }

  /** FMod(x, m) is x - k*m for the unique k that puts it in [0, m). */
  lemma FModUnique(x: real, m: real, k: int)
    requires m > 0.0
    requires 0.0 <= x - k as real * m < m
    ensures FMod(x, m) == x - k as real * m
  {
    var j := (x / m).Floor;
    FloorScaled(x, m, j);
    if j < k {
      MulLe(j as real + 1.0, k as real, m);
      Distrib(j as real, m);
    } else if j > k {
      MulLe(k as real + 1.0, j as real, m);
      Distrib(k as real, m);
    }
    assert j == k;
  }

  /** Ceil(e / w) is the least whole number of pieces of size w that
      cover e. */
  lemma CeilDiv(e: real, w: real)
    requires w > 0.0
    ensures (Ceil(e / w) - 1) as real * w < e <= Ceil(e / w) as real * w
  {
    var q := e / w;
    var c := Ceil(q) as real;
    calc {
      (c - 1.0) * w;
    < { MulLt(c - 1.0, q, w); }
      q * w;
    == { DivMul(e, w); }
      e;
    }
    calc {
      e;
    == { DivMul(e, w); }
      q * w;
    <= { MulLe(q, c, w); }
      c * w;
    }
  }

  /** Dividing by a larger positive number gives a smaller quotient. */
  lemma DivAntitone(e: real, w1: real, w2: real)
    requires e >= 0.0 && 0.0 < w1 <= w2
    ensures e / w2 <= e / w1
  {
    var q1, q2 := e / w1, e / w2;
    assert q2 >= 0.0;
    calc {
      q2 * w1;
    <= { MulLe(w1, w2, q2 + 1.0); MulLe(w1, w2, 1.0); }
      q2 * w2;
    == { DivMul(e, w2); }
      e;
    == { DivMul(e, w1); }
      q1 * w1;
    }
    if q2 > q1 {
      MulLt(q1, q2, w1);
    }
  }

  lemma CeilMonotone(a: real, b: real)
    requires a <= b
    ensures Ceil(a) <= Ceil(b)
  {
  }

  /** Python's round() to an integer: halves go to the even neighbour. */
  function RoundHalfEven(x: real): (r: int)
    ensures Abs(x - r as real) <= 0.5
    ensures Abs(x - r as real) == 0.5 ==> r % 2 == 0
  {
    var f := x.Floor;
    var d := x - f as real;
    if d < 0.5 then f
    else if d > 0.5 then f + 1
    else if f % 2 == 0 then f
    else f + 1
  }
}
