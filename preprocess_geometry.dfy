/** The placement helpers of blueshark/femm_utils/preprocess/geometry.py:
    the middle of a rectangle and a row of equally spaced origins. */
module PreprocessGeometry {
  import opened Wrappers
  import opened Numbers
  import opened Definitions
  import Centroid

  /** get_centroid_point: the middle of the rectangle whose bottom-left
      corner is origin. */
  function GetCentroidPoint(origin: Point, length: real, height: real): Point {
    (origin.0 + length / 2.0, origin.1 + height / 2.0)
  }

  /** The four corners of that rectangle, counter-clockwise from origin. */
  function Corners(origin: Point, length: real, height: real): seq<Point> {
    [origin, (origin.0 + length, origin.1), (origin.0 + length, origin.1 + height), (origin.0, origin.1 + height)]
  }

  /** get_centroid_point agrees with the polygon centroid formula of
      centroid_point applied to the rectangle's corners, whenever the
      rectangle has an area. */
  lemma CentroidPointIsPolygonCentroid(origin: Point, length: real, height: real)
    requires length != 0.0 && height != 0.0
    ensures Centroid.CentroidOfPoints(Corners(origin, length, height))
         == Ok(GetCentroidPoint(origin, length, height))
  {
    Centroid.RectangleCentroid(origin.0, origin.1, length, height);
  }

  /** The i-th origin of the row. */
  function OriginAt(i: int, xPitch: real, yPitch: real, xOffset: real, yOffset: real): Point {
    (xOffset + i as real * xPitch, yOffset + i as real * yPitch)
  }

  /** The row origin_points returns: range(object_num) is empty for a
      negative count. */
  function OriginSeries(objectNum: int, xPitch: real, yPitch: real, xOffset: real := 0.0, yOffset: real := 0.0): (r: seq<Point>)
    ensures |r| == if objectNum < 0 then 0 else objectNum
    ensures forall i :: 0 <= i < |r| ==> r[i] == OriginAt(i, xPitch, yPitch, xOffset, yOffset)
  {
    var n := if objectNum < 0 then 0 else objectNum;
    seq(n, i requires 0 <= i < n => OriginAt(i, xPitch, yPitch, xOffset, yOffset))
  }

  /** origin_points: the appending loop. */
  method OriginPoints(objectNum: int, xPitch: real, yPitch: real, xOffset: real := 0.0, yOffset: real := 0.0)
    returns (origins: seq<Point>)
    ensures origins == OriginSeries(objectNum, xPitch, yPitch, xOffset, yOffset)
  {
    origins := [];
    var i := 0;
    ghost var n := if objectNum < 0 then 0 else objectNum;
    while i < objectNum
      invariant 0 <= i <= n
      invariant |origins| == i
      invariant forall k :: 0 <= k < i ==> origins[k] == OriginAt(k, xPitch, yPitch, xOffset, yOffset)
    {
      var origin := (xOffset + i as real * xPitch, yOffset + i as real * yPitch);
      assert origin == OriginAt(i, xPitch, yPitch, xOffset, yOffset);
      origins := origins + [origin];
      i := i + 1;
    }
    assert i == n;
  }

  /** The row starts at the offset. */
  lemma OriginSeriesStart(objectNum: int, xPitch: real, yPitch: real, xOffset: real, yOffset: real)
    requires objectNum > 0
    ensures OriginSeries(objectNum, xPitch, yPitch, xOffset, yOffset)[0] == (xOffset, yOffset)
  {
  }

  /** Consecutive origins are exactly one pitch apart. */
  lemma OriginSeriesSpacing(objectNum: int, xPitch: real, yPitch: real, xOffset: real, yOffset: real, i: nat)
    requires i + 1 < objectNum
    ensures var r := OriginSeries(objectNum, xPitch, yPitch, xOffset, yOffset);
      r[i + 1].0 - r[i].0 == xPitch && r[i + 1].1 - r[i].1 == yPitch
  {
    Distrib(i as real, xPitch);
    Distrib(i as real, yPitch);
  }

  /** Without offsets the row starts at the origin. */
  lemma OriginSeriesDefault(objectNum: int, xPitch: real, yPitch: real)
    requires objectNum > 0
    ensures OriginSeries(objectNum, xPitch, yPitch)[0] == (0.0, 0.0)
  {
    OriginSeriesStart(objectNum, xPitch, yPitch, 0.0, 0.0);
  }

  /** No objects, no origins. */
  lemma OriginSeriesEmpty(xPitch: real, yPitch: real, xOffset: real, yOffset: real)
    ensures OriginSeries(0, xPitch, yPitch, xOffset, yOffset) == []
  {
  }
}
