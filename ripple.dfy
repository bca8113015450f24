/** ripple_peak_to_peak and ripple_percent of
    blueshark/domain/physics/ripple.py: how far a series of samples (a
    force or torque over a stroke) strays from its average. */
module Ripple {
  import opened Numbers

  /** sum(values) */
  function Sum(s: seq<real>): real {
    if |s| == 0 then 0.0 else Sum(s[..|s| - 1]) + s[|s| - 1]
  }

  /** sum(values) / len(values) */
  function Mean(s: seq<real>): real
    requires |s| > 0
  {
    Sum(s) / |s| as real
  }

  /** max(values) */
  function Max(s: seq<real>): (m: real)
    requires |s| > 0
    ensures forall i :: 0 <= i < |s| ==> s[i] <= m
    ensures exists i :: 0 <= i < |s| && s[i] == m
  {
    if |s| == 1 then s[0]
    else
      var rest := Max(s[1..]);
      assert forall i :: 1 <= i < |s| ==> s[i] == s[1..][i - 1];
      if s[0] >= rest then s[0] else rest
  }

  /** min(values) */
  function Min(s: seq<real>): (m: real)
    requires |s| > 0
    ensures forall i :: 0 <= i < |s| ==> m <= s[i]
    ensures exists i :: 0 <= i < |s| && s[i] == m
  {
    if |s| == 1 then s[0]
    else
      var rest := Min(s[1..]);
      assert forall i :: 1 <= i < |s| ==> s[i] == s[1..][i - 1];
      if s[0] <= rest then s[0] else rest
  }

  /** [v - average for v in values] */
  function Deviations(s: seq<real>, average: real): (d: seq<real>)
    ensures |d| == |s|
  {
    seq(|s|, i requires 0 <= i < |s| => s[i] - average)
  }

  /** ripple_peak_to_peak: 0.0 for no samples, otherwise the spread of the
      deviations from the average. */
  function PeakToPeak(values: seq<real>): real {
    if |values| == 0 then 0.0
    else
      var ripple := Deviations(values, Mean(values));
      Max(ripple) - Min(ripple)
  }

  /** ripple_percent: 0.0 for no samples or a zero average, otherwise the
      peak-to-peak ripple as a percentage of the average. */
  function Percent(values: seq<real>): real {
    if |values| == 0 then 0.0
    else
      var average := Mean(values);
      if average == 0.0 then 0.0
      else (PeakToPeak(values) / average) * 100.0
  }

  /** Shifting every sample by c shifts the maximum and minimum by c. */
  lemma {:induction false} ShiftExtremes(s: seq<real>, c: real)
    requires |s| > 0
    ensures Max(Deviations(s, c)) == Max(s) - c
    ensures Min(Deviations(s, c)) == Min(s) - c
  {
    var d := Deviations(s, c);
    var i :| 0 <= i < |s| && s[i] == Max(s);
    var j :| 0 <= j < |d| && d[j] == Max(d);
    assert d[i] <= Max(d) && s[j] <= Max(s);
    var k :| 0 <= k < |s| && s[k] == Min(s);
    var l :| 0 <= l < |d| && d[l] == Min(d);
    assert Min(d) <= d[k] && Min(s) <= s[l];
  }

  /** The average cancels: the peak-to-peak ripple is the largest sample
      minus the smallest, so it is never negative. */
  lemma PeakToPeakIsRange(values: seq<real>)
    requires |values| > 0
    ensures PeakToPeak(values) == Max(values) - Min(values)
    ensures PeakToPeak(values) >= 0.0
  {
    ShiftExtremes(values, Mean(values));
  }

  /** A series of equal samples has no ripple. */
  lemma ConstantHasNoRipple(values: seq<real>, v: real)
    requires forall i :: 0 <= i < |values| ==> values[i] == v
    ensures PeakToPeak(values) == 0.0
  {
    if |values| > 0 {
      PeakToPeakIsRange(values);
      var i :| 0 <= i < |values| && values[i] == Max(values);
      var j :| 0 <= j < |values| && values[j] == Min(values);
    }
  }

  /** The samples 1..5 have a peak-to-peak ripple of 4 and a percentage
      ripple of 4/3 * 100. */
  lemma OneToFive(s: seq<real>)
    requires s == [1.0, 2.0, 3.0, 4.0, 5.0]
    ensures PeakToPeak(s) == 4.0
    ensures Percent(s) == 400.0 / 3.0
  {
    OneToFiveExtremes(s);
    OneToFiveMean(s);
    PeakToPeakIsRange(s);
  }

  lemma OneToFiveExtremes(s: seq<real>)
    requires s == [1.0, 2.0, 3.0, 4.0, 5.0]
    ensures Max(s) == 5.0 && Min(s) == 1.0
  {
    assert s[4] <= Max(s) && Min(s) <= s[0];
    var i :| 0 <= i < |s| && s[i] == Max(s);
    var j :| 0 <= j < |s| && s[j] == Min(s);
  }

  lemma OneToFiveMean(s: seq<real>)
    requires s == [1.0, 2.0, 3.0, 4.0, 5.0]
    ensures Mean(s) == 3.0
  {
    assert Sum(s[..1]) == 1.0;
    assert Sum(s[..2]) == 3.0 by { assert s[..2][..1] == s[..1]; }
    assert Sum(s[..3]) == 6.0 by { assert s[..3][..2] == s[..2]; }
    assert Sum(s[..4]) == 10.0 by { assert s[..4][..3] == s[..3]; }
    assert Sum(s) == 15.0 by { assert s[..4] == s[..|s| - 1]; }
  }

  /** No samples, no ripple. */
  lemma EmptyHasNoRipple()
    ensures PeakToPeak([]) == 0.0 && Percent([]) == 0.0
  {
  }

  /** A zero average gives 0 percent, whatever the spread. */
  lemma ZeroAverage(values: seq<real>)
    requires |values| > 0 && Sum(values) == 0.0
    ensures Percent(values) == 0.0
  {
  }

  /** Otherwise the percentage is the peak-to-peak ripple relative to the
      average. */
  lemma PercentOfAverage(values: seq<real>)
    requires |values| > 0 && Mean(values) != 0.0
    ensures Percent(values) * Mean(values) == 100.0 * (Max(values) - Min(values))
  {
    PercentTimesMean(values);
    PeakToPeakIsRange(values);
  }

  lemma PercentTimesMean(values: seq<real>)
    requires |values| > 0 && Mean(values) != 0.0
    ensures Percent(values) * Mean(values) == 100.0 * PeakToPeak(values)
  {
    PercentDefinition(values);
    ScaleBack(Percent(values), PeakToPeak(values), Mean(values));
  }

  lemma PercentDefinition(values: seq<real>)
    requires |values| > 0 && Mean(values) != 0.0
    ensures Percent(values) == (PeakToPeak(values) / Mean(values)) * 100.0
  {
  }

  lemma ScaleBack(q: real, p: real, a: real)
    requires a != 0.0 && q == (p / a) * 100.0
    ensures q * a == 100.0 * p
  {
  }

}
