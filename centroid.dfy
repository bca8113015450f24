/** centroid_point and its per-shape helpers
    (blueshark/domain/geometry/graphical_centroid.py). */
module Centroid {
  import opened Wrappers
  import opened Numbers
  import opened Definitions
  import opened Builtins
  import opened Dicts
  import opened HybridPoints
  import opened Area

  /** The x weight of edge (p, q): (x_p + x_q) times its shoelace term. */
  function XTerm(p: Point, q: Point): real {
    (p.0 + q.0) * Cross(p, q)
  }

  /** The y weight of edge (p, q). */
  function YTerm(p: Point, q: Point): real {
    (p.1 + q.1) * Cross(p, q)
  }

  /** The first k terms of the weighted x sum of the polygon centroid
      formula: (x_i + x_{i+1}) times the shoelace term of edge i. */
  function CxSum(pts: seq<Point>, k: nat): real
    requires k <= |pts|
  {
    if k == 0 then 0.0
    else
      CxSum(pts, k - 1) + XTerm(pts[k - 1], pts[k % |pts|])
  }

  /** The same for the y coordinate. */
  function CySum(pts: seq<Point>, k: nat): real
    requires k <= |pts|
  {
    if k == 0 then 0.0
    else
      CySum(pts, k - 1) + YTerm(pts[k - 1], pts[k % |pts|])
  }

  /** The signed area: half the shoelace sum. */
  function SignedArea(pts: seq<Point>): real {
    0.5 * CrossSum(pts, |pts|)
  }

  /** _polygon on points already unpacked to reals: the signed-area
      centroid formula, or ValueError for a polygon of zero signed area. */
  function CentroidOfPoints(pts: seq<Point>): (r: Result<Point>)
    ensures r.Err? <==> SignedArea(pts) == 0.0
    ensures r.Err? ==> r.error == ValueError
    ensures r.Ok? ==> r.value.0 * (6.0 * SignedArea(pts)) == CxSum(pts, |pts|)
    ensures r.Ok? ==> r.value.1 * (6.0 * SignedArea(pts)) == CySum(pts, |pts|)
  {
    var a := SignedArea(pts);
    if a == 0.0 then Err(ValueError)
    else Ok((CxSum(pts, |pts|) / (6.0 * a), CySum(pts, |pts|) / (6.0 * a)))
  }

  /** _polygon on the value passed in: len() must succeed (TypeError), a
      non-empty dictionary indexed with 0 raises KeyError, and the loop
      raises what it meets at the first bad point; an empty list has zero
      signed area. */
  function PolygonCentroidOf(points: Value): (r: Result<Point>)
    ensures Len(points).Err? ==> r == Err(TypeError)
    ensures points.VDict? && |points.entries| > 0 ==> r == Err(KeyError)
    ensures (points.VStr? || points.VConnector?) && Len(points).value > 0 ==> r == Err(ValueError)
    ensures r.Ok? ==> IsSequence(points) && forall i :: 0 <= i < |points.items| ==> IsNumericPair(points.items[i])
    ensures IsSequence(points) && (forall i :: 0 <= i < |points.items| ==> IsNumericPair(points.items[i])) ==>
      r == CentroidOfPoints(Points(points.items))
    ensures IsSequence(points) && ToPoints(points.items).Err? ==>
      r == Err(BadPointError(points.items, FirstBad(points.items)))
  {
    var n :- Len(points);
    if points.VDict? && n > 0 then Err(KeyError)
    else
      var pts :- ToPoints(Iterate(points).value);
      CentroidOfPoints(pts)
  }

  /** _polygon: one loop accumulating the signed area and both weighted
      sums, then the degenerate check and the division. */
  method PolygonCentroid(points: Value) returns (r: Result<Point>)
    ensures r == PolygonCentroidOf(points)
  {
    var n :- Len(points);
    if points.VDict? && n > 0 {
      return Err(KeyError);
    }
    var pts :- ToPoints(Iterate(points).value);
    var signedArea, cx, cy := CentroidSums(pts);
    signedArea := signedArea * 0.5;
    if signedArea == 0.0 {
      return Err(ValueError);
    }
    cx := cx / (6.0 * signedArea);
    cy := cy / (6.0 * signedArea);
    return Ok((cx, cy));
  }

  /** The accumulating loop of _polygon. */
  method CentroidSums(pts: seq<Point>) returns (signedArea: real, cx: real, cy: real)
    ensures signedArea == CrossSum(pts, |pts|)
    ensures cx == CxSum(pts, |pts|) && cy == CySum(pts, |pts|)
  {
    var n := |pts|;
    signedArea, cx, cy := 0.0, 0.0, 0.0;
    for i := 0 to n
      invariant signedArea == CrossSum(pts, i)
      invariant cx == CxSum(pts, i)
      invariant cy == CySum(pts, i)
    {
      var p, q := pts[i], pts[(i + 1) % n];
      assert CrossSum(pts, i + 1) == CrossSum(pts, i) + Cross(p, q);
      assert CxSum(pts, i + 1) == CxSum(pts, i) + XTerm(p, q);
      assert CySum(pts, i + 1) == CySum(pts, i) + YTerm(p, q);
      signedArea := signedArea + Cross(p, q);
      cx := cx + XTerm(p, q);
      cy := cy + YTerm(p, q);
    }
  }

  /** `tuple(round(x, PRECISION) for x in coords)` with the rounding left
      out: coords must be iterable and hold only numbers (TypeError
      otherwise). */
  function Rounded(coords: Value): (r: Result<seq<real>>)
    ensures r.Ok? <==> Iterate(coords).Ok? && forall i :: 0 <= i < |Iterate(coords).value| ==> IsNumber(Iterate(coords).value[i])
    ensures r.Ok? ==> |r.value| == |Iterate(coords).value|
                      && forall i :: 0 <= i < |r.value| ==> r.value[i] == AsReal(Iterate(coords).value[i])
    ensures r.Err? ==> r.error == TypeError
  {
    var xs :- Iterate(coords);
    if forall i :: 0 <= i < |xs| ==> IsNumber(xs[i]) then Ok(seq(|xs|, i requires 0 <= i < |xs| => AsReal(xs[i])))
    else Err(TypeError)
  }

  /** The coordinates of a point as centroid_point returns them. */
  function Coords(p: Point): seq<real> {
    [p.0, p.1]
  }

  /** A center whose items 0 and 1 can be read and are numbers. */
  predicate LeadingPair(center: Value) {
    IsSequence(center) && |center.items| >= 2 && IsNumber(center.items[0]) && IsNumber(center.items[1])
  }

  /** _circle returns the center itself, which centroid_point rounds item
      by item: a list or tuple of numbers, of any length, gives those
      numbers, and so does an empty string or dictionary (no items); every
      other center raises TypeError. */
  function CircleCentroid(center: Value): (r: Result<seq<real>>)
    ensures r.Ok? <==> (IsSequence(center) && forall i :: 0 <= i < |center.items| ==> IsNumber(center.items[i]))
                       || Len(center) == Ok(0)
    ensures r.Ok? && IsSequence(center) ==>
      |r.value| == |center.items| && forall i :: 0 <= i < |r.value| ==> r.value[i] == AsReal(center.items[i])
    ensures IsNumericPair(center) ==> r == Ok(Coords(AsPoint(center)))
    ensures r.Err? ==> r.error == TypeError
  {
    var r := Rounded(center);
    assert Iterate(center).Ok? && !IsSequence(center) && |Iterate(center).value| > 0 ==>
      Iterate(center).value[0].VStr?;
    assert IsNumericPair(center) ==> r.Ok? && r.value == [r.value[0], r.value[1]];
    r
  }

  /** _annulus_circle, rounded: the mean radius comes first (TypeError
      unless both radii are numbers); then center[0] and center[1] are read
      (TypeError if the center cannot be subscripted, KeyError for a
      dictionary, IndexError if it holds fewer than two items); center[1]
      must be a number to add the radius to, and center[0] one to round. */
  function AnnulusCentroid(center: Value, rOuter: Value, rInner: Value): (r: Result<seq<real>>)
    ensures r.Ok? <==> IsNumber(rOuter) && IsNumber(rInner) && LeadingPair(center)
    ensures r.Ok? ==>
      LeadingPair(center) && IsNumber(rOuter) && IsNumber(rInner) &&
      r.value == [AsReal(center.items[0]), AsReal(center.items[1]) + (AsReal(rOuter) + AsReal(rInner)) / 2.0]
    ensures !(IsNumber(rOuter) && IsNumber(rInner)) ==> r == Err(TypeError)
    ensures IsNumber(rOuter) && IsNumber(rInner) ==> CenterError(center, r)
    ensures IsNumber(rOuter) && IsNumber(rInner) && Len(center) == Ok(1) && !center.VDict? ==> r == Err(IndexError)
  {
    if !(IsNumber(rOuter) && IsNumber(rInner)) then Err(TypeError)
    else
      var radius := (AsReal(rOuter) + AsReal(rInner)) / 2.0;
      var x :- Subscript(center, 0);
      var y :- Subscript(center, 1);
      if !IsNumber(y) then Err(TypeError)
      else if !IsNumber(x) then Err(TypeError)
      else Ok([AsReal(x), AsReal(y) + radius])
  }

  /** How reading center[0] and center[1] fails: KeyError for a
      dictionary, IndexError for a list, tuple or string that is empty or
      holds a single number, TypeError for a value that cannot be
      subscripted or whose leading items are not numbers. What a single
      item that is not a number raises depends on the shape. */
  predicate CenterError(center: Value, r: Result<seq<real>>) {
    && (center.VDict? ==> r == Err(KeyError))
    && (Len(center) == Ok(0) && !center.VDict? ==> r == Err(IndexError))
    && (Len(center) == Ok(1) && !center.VDict? && IsNumber(Iterate(center).value[0]) ==> r == Err(IndexError))
    && (Len(center).Err? ==> r == Err(TypeError))
    && (Len(center).Ok? && !center.VDict? && Len(center).value >= 2 && !LeadingPair(center) ==> r == Err(TypeError))
  }

  /** The bisector of the sector's angular span, in degrees within
      [0, 360), as _annulus_sector reduces it. */
  function Bisector(startAngle: real, endAngle: real): (b: real)
    ensures 0.0 <= b < 360.0
  {
    var s := FMod(startAngle, 360.0);
    var e := FMod(endAngle, 360.0);
    var delta := FMod(e - s, 360.0);
    FMod(s + delta / 2.0, 360.0)
  }

  /** _annulus_sector, rounded: the angles and radii come first
      (TypeError unless all are numbers), then center[0] and center[1] are
      read and added, failing as for the annulus. */
  function SectorCentroid(trig: Trig, center: Value, rOuter: Value, rInner: Value,
                          startAngle: Value, endAngle: Value): (r: Result<seq<real>>)
    ensures r.Ok? <==> IsNumber(rOuter) && IsNumber(rInner) && IsNumber(startAngle) && IsNumber(endAngle)
                       && LeadingPair(center)
    ensures !(IsNumber(rOuter) && IsNumber(rInner) && IsNumber(startAngle) && IsNumber(endAngle)) ==> r == Err(TypeError)
    ensures IsNumber(rOuter) && IsNumber(rInner) && IsNumber(startAngle) && IsNumber(endAngle) ==> CenterError(center, r)
    ensures (IsNumber(rOuter) && IsNumber(rInner) && IsNumber(startAngle) && IsNumber(endAngle)
             && Len(center) == Ok(1) && !center.VDict? && !IsNumber(Iterate(center).value[0])) ==> r == Err(TypeError)
  {
    if !(IsNumber(startAngle) && IsNumber(endAngle) && IsNumber(rOuter) && IsNumber(rInner)) then Err(TypeError)
    else
      var angle := Bisector(AsReal(startAngle), AsReal(endAngle)) * PI / 180.0;
      var radius := (AsReal(rOuter) + AsReal(rInner)) / 2.0;
      var x :- Subscript(center, 0);
      if !IsNumber(x) then Err(TypeError)
      else
        var y :- Subscript(center, 1);
        if !IsNumber(y) then Err(TypeError)
        else Ok([radius * Cos(trig, angle) + AsReal(x), radius * Sin(trig, angle) + AsReal(y)])
  }

  /** Turning both sector angles by whole turns leaves the bisector, and so
      the centroid, unchanged. */
  lemma BisectorPeriodic(startAngle: real, endAngle: real, j: int, k: int)
    ensures Bisector(startAngle + j as real * 360.0, endAngle + k as real * 360.0) == Bisector(startAngle, endAngle)
  {
    FModShift(startAngle, 360.0, j);
    FModShift(endAngle, 360.0, k);
  }

  /** centroid_point: dispatch on geometry["shape"], then round each
      coordinate (rounding to PRECISION is not modelled; rounding the two
      floats of a polygon centroid cannot fail). */
  function CentroidOf(trig: Trig, g: seq<(string, Value)>): (r: Result<seq<real>>)
    ensures |g| == 0 || !HasKey(g, "shape") ==> r == Err(ValueError)
    ensures HasKey(g, "shape") && !Get(g, "shape").VShape? ==> r == Err(NotImplementedError)
  {
    if |g| == 0 || !HasKey(g, "shape") then Err(ValueError)
    else
      match Get(g, "shape")
      case VShape(Polygon) =>
        var p :- PolygonCentroidOf(Get(g, "points"));
        Ok(Coords(p))
      case VShape(Rectangle) =>
        var p :- PolygonCentroidOf(Get(g, "points"));
        Ok(Coords(p))
      case VShape(Circle) => CircleCentroid(Get(g, "center"))
      case VShape(AnnulusCircle) => AnnulusCentroid(Get(g, "center"), Get(g, "radius_outer"), Get(g, "radius_inner"))
      case VShape(AnnulusSector) =>
        SectorCentroid(trig, Get(g, "center"), Get(g, "radius_outer"), Get(g, "radius_inner"),
                       Get(g, "start_angle"), Get(g, "end_angle"))
      case VShape(Hybrid) =>
        var unique :- HybridVertices(g);
        var p :- PolygonCentroidOf(VList(unique));
        Ok(Coords(p))
      case _ => Err(NotImplementedError)
  }

  /** A list of points built from reals has the centroid of those points. */
  lemma PointListCentroid(pts: seq<Point>)
    ensures PolygonCentroidOf(PointList(pts)) == CentroidOfPoints(pts)
  {
    ListCentroid(PointList(pts).items);
  }

  /** Handing a list whose items unpack to points to _polygon gives the
      centroid of those points. */
  lemma ListCentroid(vs: seq<Value>)
    requires ToPoints(vs).Ok?
    ensures PolygonCentroidOf(VList(vs)) == CentroidOfPoints(ToPoints(vs).value)
  {
  }

  /** centroid_point */
  method CentroidPoint(trig: Trig, g: seq<(string, Value)>) returns (r: Result<seq<real>>)
    ensures r == CentroidOf(trig, g)
  {
    if |g| == 0 || !HasKey(g, "shape") {
      return Err(ValueError);
    }
    match Get(g, "shape")
    case VShape(Polygon) =>
      var p :- PolygonCentroid(Get(g, "points"));
      r := Ok(Coords(p));
    case VShape(Rectangle) =>
      var p :- PolygonCentroid(Get(g, "points"));
      r := Ok(Coords(p));
    case VShape(Circle) => r := CircleCentroid(Get(g, "center"));
    case VShape(AnnulusCircle) => r := AnnulusCentroid(Get(g, "center"), Get(g, "radius_outer"), Get(g, "radius_inner"));
    case VShape(AnnulusSector) =>
      r := SectorCentroid(trig, Get(g, "center"), Get(g, "radius_outer"), Get(g, "radius_inner"),
                          Get(g, "start_angle"), Get(g, "end_angle"));
    case VShape(Hybrid) =>
      var unique :- CollectHybridVertices(g);
      var p :- PolygonCentroid(VList(unique));
      r := Ok(Coords(p));
    case _ => r := Err(NotImplementedError);
  }

  /** Fewer than three points enclose no area, so _polygon raises
      ValueError for them. */
  lemma FewerThanThreeIsDegenerate(pts: seq<Point>)
    requires |pts| < 3
    ensures CentroidOfPoints(pts) == Err(ValueError)
  {
    if |pts| == 1 {
      assert CrossSum(pts, 1) == Cross(pts[0], pts[0]) == 0.0;
    } else if |pts| == 2 {
      assert CrossSum(pts, 1) == Cross(pts[0], pts[1]);
      assert CrossSum(pts, 2) == Cross(pts[0], pts[1]) + Cross(pts[1], pts[0]) == 0.0;
    }
  }

  /** The centroid of a non-degenerate triangle is the mean of its
      vertices. */
  lemma TriangleCentroid(p0: Point, p1: Point, p2: Point)
    requires SignedArea([p0, p1, p2]) != 0.0
    ensures CentroidOfPoints([p0, p1, p2])
         == Ok(((p0.0 + p1.0 + p2.0) / 3.0, (p0.1 + p1.1 + p2.1) / 3.0))
  {
    var pts := [p0, p1, p2];
    var a0, a1, a2 := Cross(p0, p1), Cross(p1, p2), Cross(p2, p0);
    var s := a0 + a1 + a2;
    assert CrossSum(pts, 1) == a0;
    assert CrossSum(pts, 2) == a0 + a1;
    assert CrossSum(pts, 3) == s;
    assert CxSum(pts, 1) == (p0.0 + p1.0) * a0;
    assert CxSum(pts, 2) == (p0.0 + p1.0) * a0 + (p1.0 + p2.0) * a1;
    assert CxSum(pts, 3) == (p0.0 + p1.0) * a0 + (p1.0 + p2.0) * a1 + (p2.0 + p0.0) * a2;
    assert CySum(pts, 1) == (p0.1 + p1.1) * a0;
    assert CySum(pts, 2) == (p0.1 + p1.1) * a0 + (p1.1 + p2.1) * a1;
    assert CySum(pts, 3) == (p0.1 + p1.1) * a0 + (p1.1 + p2.1) * a1 + (p2.1 + p0.1) * a2;
    TriangleWeights(p0.0, p0.1, p1.0, p1.1, p2.0, p2.1);
    TriangleWeights(p0.1, p0.0, p1.1, p1.0, p2.1, p2.0);
    assert Cross(p0, p1) == -((p0.1 * p1.0) - (p1.1 * p0.0));
    assert Cross(p1, p2) == -((p1.1 * p2.0) - (p2.1 * p1.0));
    assert Cross(p2, p0) == -((p2.1 * p0.0) - (p0.1 * p2.0));
    MeanFromWeights(CxSum(pts, 3), p0.0 + p1.0 + p2.0, s);
    MeanFromWeights(CySum(pts, 3), p0.1 + p1.1 + p2.1, s);
  }

  /** (x0+x1)a0 + (x1+x2)a1 + (x2+x0)a2 = (x0+x1+x2)(a0+a1+a2) for the
      shoelace terms a_i of a triangle. */
  lemma TriangleWeights(x0: real, y0: real, x1: real, y1: real, x2: real, y2: real)
    ensures (x0 + x1) * (x0 * y1 - x1 * y0) + (x1 + x2) * (x1 * y2 - x2 * y1) + (x2 + x0) * (x2 * y0 - x0 * y2)
         == (x0 + x1 + x2) * ((x0 * y1 - x1 * y0) + (x1 * y2 - x2 * y1) + (x2 * y0 - x0 * y2))
  {
  }

  lemma MeanFromWeights(w: real, total: real, s: real)
    requires s != 0.0 && w == total * s
    ensures w / (6.0 * (0.5 * s)) == total / 3.0
  {
  }

  /** The triangle (5,5), (3,4), (7,3) has centroid (5,4). */
  lemma TriangleExample()
    ensures CentroidOfPoints([(5.0, 5.0), (3.0, 4.0), (7.0, 3.0)]) == Ok((5.0, 4.0))
  {
    var pts := [(5.0, 5.0), (3.0, 4.0), (7.0, 3.0)];
    assert CrossSum(pts, 1) == 5.0;
    assert CrossSum(pts, 2) == -14.0;
    assert CrossSum(pts, 3) == 6.0;
    TriangleCentroid((5.0, 5.0), (3.0, 4.0), (7.0, 3.0));
  }

  /** The hybrid square of side 5 has centroid (2.5, 2.5). */
  lemma HybridSquareCentroid(trig: Trig, g: seq<(string, Value)>)
    requires g == SquareHybrid()
    ensures CentroidOf(trig, g) == Ok([2.5, 2.5])
  {
    assert g[0].0 == "shape";
    assert HasKey(g, "shape") && Get(g, "shape") == VShape(Hybrid);
    SquareHybridVertices();
    HybridCentroid(trig, g);
    SquareCornersCentroid();
  }

  /** A hybrid geometry whose endpoints are all tuples of two numbers has
      the polygon centroid of its distinct endpoints, in first-occurrence
      order. */
  lemma HybridCentroid(trig: Trig, g: seq<(string, Value)>)
    requires HasKey(g, "shape") && Get(g, "shape") == VShape(Hybrid)
    requires HybridEnds(g).Ok?
    requires forall i :: 0 <= i < |HybridEnds(g).value| ==>
      HybridEnds(g).value[i].VTuple? && IsNumericPair(HybridEnds(g).value[i])
    ensures CentroidOfPoints(Dedup(Points(HybridEnds(g).value))).Ok? ==>
      CentroidOf(trig, g) == Ok(Coords(CentroidOfPoints(Dedup(Points(HybridEnds(g).value))).value))
    ensures CentroidOfPoints(Dedup(Points(HybridEnds(g).value))).Err? ==> CentroidOf(trig, g) == Err(ValueError)
  {
    NumericHybridVertices(g);
    ListCentroid(HybridVertices(g).value);
  }

  lemma SquareCornersCentroid()
    ensures CentroidOfPoints([(0.0, 0.0), (0.0, 5.0), (5.0, 5.0), (5.0, 0.0)]) == Ok((2.5, 2.5))
  {
    RectangleCentroid(0.0, 0.0, 5.0, 5.0);
    var u := [(0.0, 0.0), (0.0, 5.0), (5.0, 5.0), (5.0, 0.0)];
    assert CrossSum(u, 4) == -50.0;
    assert CxSum(u, 4) == -375.0;
    assert CySum(u, 4) == -375.0;
  }

  /** A rectangle with bottom-left corner (x, y), width w and height h,
      both non-zero, has its centroid at its middle. */
  lemma RectangleCentroid(x: real, y: real, w: real, h: real)
    requires w != 0.0 && h != 0.0
    ensures CentroidOfPoints([(x, y), (x + w, y), (x + w, y + h), (x, y + h)])
         == Ok((x + w / 2.0, y + h / 2.0))
  {
    var pts := [(x, y), (x + w, y), (x + w, y + h), (x, y + h)];
    RectangleSums(x, y, w, h);
    MulNonZero(w, h);
    MeanFromWeights(CxSum(pts, 4), 3.0 * (x + w / 2.0), 2.0 * (w * h));
    MeanFromWeights(CySum(pts, 4), 3.0 * (y + h / 2.0), 2.0 * (w * h));
  }

  lemma MulNonZero(a: real, b: real)
    requires a != 0.0 && b != 0.0
    ensures a * b != 0.0
  {
  }

  /** The three sums of _polygon for the four corners of a rectangle. */
  lemma RectangleSums(x: real, y: real, w: real, h: real)
    ensures CrossSum([(x, y), (x + w, y), (x + w, y + h), (x, y + h)], 4) == 2.0 * (w * h)
    ensures CxSum([(x, y), (x + w, y), (x + w, y + h), (x, y + h)], 4) == 3.0 * (x + w / 2.0) * (2.0 * (w * h))
    ensures CySum([(x, y), (x + w, y), (x + w, y + h), (x, y + h)], 4) == 3.0 * (y + h / 2.0) * (2.0 * (w * h))
  {
    var pts := [(x, y), (x + w, y), (x + w, y + h), (x, y + h)];
    var a0, a1, a2, a3 := -(w * y), (x + w) * h, w * (y + h), -(x * h);
    assert Cross(pts[0], pts[1]) == a0;
    assert Cross(pts[1], pts[2]) == a1;
    assert Cross(pts[2], pts[3]) == a2;
    assert Cross(pts[3], pts[0]) == a3;
    assert CrossSum(pts, 1) == a0;
    assert CrossSum(pts, 2) == a0 + a1;
    assert CrossSum(pts, 3) == a0 + a1 + a2;
    assert CrossSum(pts, 4) == a0 + a1 + a2 + a3;
    RectangleCx(pts, x, w, a0, a1, a2, a3);
    RectangleCy(pts, y, h, a0, a1, a2, a3);
    RectangleWeights(x, y, w, h);
  }

  lemma RectangleCx(pts: seq<Point>, x: real, w: real, a0: real, a1: real, a2: real, a3: real)
    requires |pts| == 4 && pts[0].0 == x && pts[1].0 == x + w && pts[2].0 == x + w && pts[3].0 == x
    requires Cross(pts[0], pts[1]) == a0 && Cross(pts[1], pts[2]) == a1
    requires Cross(pts[2], pts[3]) == a2 && Cross(pts[3], pts[0]) == a3
    ensures CxSum(pts, 4) == (2.0 * x + w) * a0 + (2.0 * x + 2.0 * w) * a1 + (2.0 * x + w) * a2 + (2.0 * x) * a3
  {
    assert CxSum(pts, 1) == (2.0 * x + w) * a0;
    assert CxSum(pts, 2) == CxSum(pts, 1) + (2.0 * x + 2.0 * w) * a1;
    assert CxSum(pts, 3) == CxSum(pts, 2) + (2.0 * x + w) * a2;
    assert CxSum(pts, 4) == CxSum(pts, 3) + (2.0 * x) * a3;
  }

  lemma RectangleCy(pts: seq<Point>, y: real, h: real, a0: real, a1: real, a2: real, a3: real)
    requires |pts| == 4 && pts[0].1 == y && pts[1].1 == y && pts[2].1 == y + h && pts[3].1 == y + h
    requires Cross(pts[0], pts[1]) == a0 && Cross(pts[1], pts[2]) == a1
    requires Cross(pts[2], pts[3]) == a2 && Cross(pts[3], pts[0]) == a3
    ensures CySum(pts, 4) == (2.0 * y) * a0 + (2.0 * y + h) * a1 + (2.0 * y + 2.0 * h) * a2 + (2.0 * y + h) * a3
  {
    assert CySum(pts, 4) == YTerm(pts[0], pts[1]) + YTerm(pts[1], pts[2]) + YTerm(pts[2], pts[3]) + YTerm(pts[3], pts[0]) by {
      assert CySum(pts, 1) == YTerm(pts[0], pts[1]);
      assert CySum(pts, 2) == CySum(pts, 1) + YTerm(pts[1], pts[2]);
      assert CySum(pts, 3) == CySum(pts, 2) + YTerm(pts[2], pts[3]);
    }
    YTermIs(pts[0], pts[1], 2.0 * y, a0);
    YTermIs(pts[1], pts[2], 2.0 * y + h, a1);
    YTermIs(pts[2], pts[3], 2.0 * y + 2.0 * h, a2);
    YTermIs(pts[3], pts[0], 2.0 * y + h, a3);
  }

  lemma YTermIs(p: Point, q: Point, s: real, a: real)
    requires p.1 + q.1 == s && Cross(p, q) == a
    ensures YTerm(p, q) == s * a
  {
  }

  /** The polynomial identities behind the rectangle's centroid. */
  lemma RectangleWeights(x: real, y: real, w: real, h: real)
    ensures (2.0 * x + w) * -(w * y) + (2.0 * x + 2.0 * w) * ((x + w) * h) + (2.0 * x + w) * (w * (y + h)) + (2.0 * x) * -(x * h)
         == 3.0 * (x + w / 2.0) * (2.0 * (w * h))
    ensures (2.0 * y) * -(w * y) + (2.0 * y + h) * ((x + w) * h) + (2.0 * y + 2.0 * h) * (w * (y + h)) + (2.0 * y + h) * -(x * h)
         == 3.0 * (y + h / 2.0) * (2.0 * (w * h))
  {
  }
}
