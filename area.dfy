/** calculate_area and its per-shape helpers
    (blueshark/domain/geometry/area.py). */
module Area {
  import opened Wrappers
  import opened Numbers
  import opened Definitions
  import opened Dicts
  import opened Validation
  import opened Builtins
  import opened HybridPoints
  import opened Loops

  /** The shoelace term of the edge from p to q. */
  function Cross(p: Point, q: Point): real {
    p.0 * q.1 - q.0 * p.1
  }

  /** The sum of the first k shoelace terms, the last edge closing the
      polygon back to its first point. */
  function CrossSum(pts: seq<Point>, k: nat): real
    requires k <= |pts|
  {
    if k == 0 then 0.0
    else CrossSum(pts, k - 1) + Cross(pts[k - 1], pts[k % |pts|])
  }

  /** The shoelace formula: |sum of cross terms| / 2. */
  function ShoelaceArea(pts: seq<Point>): real {
    Abs(CrossSum(pts, |pts|)) / 2.0
  }

  /** _area_polygon on a list of points already unpacked to reals. */
  function AreaOfPoints(pts: seq<Point>): (r: Result<real>)
    ensures r.Err? <==> |pts| < 3
    ensures r.Err? ==> r.error == ValueError
    ensures r.Ok? ==> r.value >= 0.0
  {
    if |pts| < 3 then Err(ValueError) else Ok(ShoelaceArea(pts))
  }

  /** _area_polygon on the value found under "points": a falsy value or
      one with fewer than three items raises ValueError, a value without a
      length TypeError, and a dictionary, indexed with 0, KeyError;
      otherwise the shoelace loop runs over the items (a string's
      characters) and raises what it meets at the first bad point. */
  function PolygonArea(points: Value): (r: Result<real>)
    ensures Falsy(points) ==> r == Err(ValueError)
    ensures !Falsy(points) && Len(points).Err? ==> r == Err(TypeError)
    ensures Len(points).Ok? && Len(points).value < 3 ==> r == Err(ValueError)
    ensures points.VDict? && |points.entries| >= 3 ==> r == Err(KeyError)
    ensures r.Ok? <==> IsSequence(points) && |points.items| >= 3
                       && forall i :: 0 <= i < |points.items| ==> IsNumericPair(points.items[i])
    ensures r.Ok? ==> IsSequence(points) && (forall i :: 0 <= i < |points.items| ==> IsNumericPair(points.items[i]))
                      && r.value == ShoelaceArea(Points(points.items)) && r.value >= 0.0
    ensures IsSequence(points) && |points.items| >= 3 && r.Err? ==>
      r == Err(BadPointError(points.items, FirstBad(points.items)))
  {
    if Falsy(points) then Err(ValueError)
    else
      var n :- Len(points);
      if n < 3 then Err(ValueError)
      else if points.VDict? then Err(KeyError)
      else
        var pts :- ToPoints(Iterate(points).value);
        AreaOfPoints(pts)
  }

  /** _area_polygon: the guards, then the accumulating shoelace loop. */
  method AreaPolygon(points: Value) returns (r: Result<real>)
    ensures r == PolygonArea(points)
  {
    if Falsy(points) {
      return Err(ValueError);
    }
    var n :- Len(points);
    if n < 3 {
      return Err(ValueError);
    }
    if points.VDict? {
      return Err(KeyError);
    }
    var pts :- ToPoints(Iterate(points).value);
    var area := ShoelaceSum(pts);
    return Ok(Abs(area) / 2.0);
  }

  /** The accumulating loop of _area_polygon. */
  method ShoelaceSum(pts: seq<Point>) returns (area: real)
    requires |pts| > 0
    ensures area == CrossSum(pts, |pts|)
  {
    area := 0.0;
    var n := |pts|;
    for i := 0 to n
      invariant area == CrossSum(pts, i)
    {
      var (x1, y1) := pts[i];
      var (x2, y2) := pts[(i + 1) % n];
      area := area + (x1 * y2 - x2 * y1);
    }
  }

  /** _area_circle */
  function CircleArea(radius: Value): (r: Result<real>)
    ensures radius.VNone? ==> r == Err(ValueError)
    ensures r.Ok? ==> IsNumber(radius) && r.value == PI * Sqr(AsReal(radius)) && r.value >= 0.0
  {
    if radius.VNone? then Err(ValueError)
    else if !IsNumber(radius) then Err(TypeError)
    else Ok(PI * Sqr(AsReal(radius)))
  }

  /** _area_annulus_sector: half the angular span in radians times the
      difference of the squared radii. */
  function SectorArea(rOuter: Value, rInner: Value, startAngle: Value, endAngle: Value): (r: Result<real>)
    ensures rOuter.VNone? || rInner.VNone? || startAngle.VNone? || endAngle.VNone? ==> r == Err(ValueError)
  {
    if rOuter.VNone? || rInner.VNone? || startAngle.VNone? || endAngle.VNone? then Err(ValueError)
    else if !(IsNumber(rOuter) && IsNumber(rInner) && IsNumber(startAngle) && IsNumber(endAngle)) then
      Err(TypeError)
    else
      Ok(SectorFormula(Abs(AsReal(endAngle) - AsReal(startAngle)), AsReal(rOuter), AsReal(rInner)))
  }

  /** Half the angular span (degrees, converted to radians) times the
      difference of the squared radii. */
  function SectorFormula(span: real, ro: real, ri: real): real {
    0.5 * (span * PI / 180.0) * (Sqr(ro) - Sqr(ri))
  }

  /** _area_annulus_circle */
  function AnnulusArea(rOuter: Value, rInner: Value): (r: Result<real>)
    ensures rOuter.VNone? || rInner.VNone? ==> r == Err(ValueError)
  {
    if rOuter.VNone? || rInner.VNone? then Err(ValueError)
    else if !(IsNumber(rOuter) && IsNumber(rInner)) then Err(TypeError)
    else Ok(PI * (Sqr(AsReal(rOuter)) - Sqr(AsReal(rInner))))
  }

  /** calculate_area: dispatch on geometry["shape"] (rounding to PRECISION
      is not modelled). */
  function AreaOf(g: seq<(string, Value)>): (r: Result<real>)
    ensures |g| == 0 || !HasKey(g, "shape") ==> r == Err(ValueError)
    ensures HasKey(g, "shape") && !Get(g, "shape").VShape? ==> r == Err(NotImplementedError)
  {
    if |g| == 0 || !HasKey(g, "shape") then Err(ValueError)
    else
      match Get(g, "shape")
      case VShape(Polygon) => PolygonArea(Get(g, "points"))
      case VShape(Rectangle) => PolygonArea(Get(g, "points"))
      case VShape(Circle) => CircleArea(Get(g, "radius"))
      case VShape(AnnulusSector) =>
        SectorArea(Get(g, "radius_outer"), Get(g, "radius_inner"), Get(g, "start_angle"), Get(g, "end_angle"))
      case VShape(AnnulusCircle) => AnnulusArea(Get(g, "radius_outer"), Get(g, "radius_inner"))
      case VShape(Hybrid) =>
        var unique :- HybridVertices(g);
        PolygonArea(VList(unique))
      case _ => Err(NotImplementedError)
  }

  /** The de-duplicated hybrid vertices as the list of tuples handed to
      _area_polygon. */
  function PointList(pts: seq<Point>): (v: Value)
    ensures IsSequence(v) && |v.items| == |pts|
    ensures ToPoints(v.items) == Ok(pts)
  {
    var v := VList(seq(|pts|, i requires 0 <= i < |pts| => PointValue(pts[i])));
    assert forall i :: 0 <= i < |pts| ==> IsNumericPair(v.items[i]) && AsPoint(v.items[i]) == pts[i] by {
      forall i | 0 <= i < |pts| ensures IsNumericPair(v.items[i]) && AsPoint(v.items[i]) == pts[i] {
        PointValueRoundTrip(pts[i]);
      }
    }
    assert seq(|pts|, i requires 0 <= i < |pts| => AsPoint(v.items[i])) == pts;
    v
  }

  /** A list of points built from reals has the area of those points. */
  lemma PointListArea(pts: seq<Point>)
    ensures PolygonArea(PointList(pts)) == AreaOfPoints(pts)
  {
    ListArea(PointList(pts).items);
  }

  /** Handing a list whose items unpack to points to _area_polygon gives
      the area of those points, ValueError for fewer than three. */
  lemma ListArea(vs: seq<Value>)
    requires ToPoints(vs).Ok?
    ensures PolygonArea(VList(vs)) == AreaOfPoints(ToPoints(vs).value)
  {
  }

  /** calculate_area */
  method CalculateArea(g: seq<(string, Value)>) returns (r: Result<real>)
    ensures r == AreaOf(g)
  {
    if |g| == 0 || !HasKey(g, "shape") {
      return Err(ValueError);
    }
    match Get(g, "shape")
    case VShape(Polygon) => r := AreaPolygon(Get(g, "points"));
    case VShape(Rectangle) => r := AreaPolygon(Get(g, "points"));
    case VShape(Circle) => r := CircleArea(Get(g, "radius"));
    case VShape(AnnulusSector) =>
      r := SectorArea(Get(g, "radius_outer"), Get(g, "radius_inner"), Get(g, "start_angle"), Get(g, "end_angle"));
    case VShape(AnnulusCircle) => r := AnnulusArea(Get(g, "radius_outer"), Get(g, "radius_inner"));
    case VShape(Hybrid) =>
      var unique :- CollectHybridVertices(g);
      r := AreaPolygon(VList(unique));
    case _ => r := Err(NotImplementedError);
  }

  /** The triangle (5,5), (3,4), (7,3) has area 3. */
  lemma TriangleArea()
    ensures PolygonArea(VList([VTuple([VInt(5), VInt(5)]), VTuple([VInt(3), VInt(4)]), VTuple([VInt(7), VInt(3)])]))
         == Ok(3.0)
  {
    var items := [VTuple([VInt(5), VInt(5)]), VTuple([VInt(3), VInt(4)]), VTuple([VInt(7), VInt(3)])];
    var pts := [(5.0, 5.0), (3.0, 4.0), (7.0, 3.0)];
    assert forall i :: 0 <= i < 3 ==> IsNumericPair(items[i]) && AsPoint(items[i]) == pts[i];
    assert seq(3, i requires 0 <= i < 3 => AsPoint(items[i])) == pts;
    assert CrossSum(pts, 1) == 5.0;
    assert CrossSum(pts, 2) == -14.0;
    assert CrossSum(pts, 3) == 6.0;
  }

  /** The rectangle with bottom-left corner (x, y), width w and height h
      listed counter-clockwise has area |w*h|. */
  lemma RectangleArea(x: real, y: real, w: real, h: real)
    ensures AreaOfPoints([(x, y), (x + w, y), (x + w, y + h), (x, y + h)]) == Ok(Abs(w * h))
  {
    var pts := [(x, y), (x + w, y), (x + w, y + h), (x, y + h)];
    assert CrossSum(pts, 1) == x * y - (x + w) * y;
    assert CrossSum(pts, 2) == CrossSum(pts, 1) + ((x + w) * (y + h) - (x + w) * y);
    assert CrossSum(pts, 3) == CrossSum(pts, 2) + ((x + w) * (y + h) - x * (y + h));
    assert CrossSum(pts, 4) == CrossSum(pts, 3) + (x * y - x * (y + h));
    assert CrossSum(pts, 4) == 2.0 * (w * h);
  }

  /** The annulus area is the outer circle's area minus the inner one's. */
  lemma AnnulusIsDifferenceOfCircles(rOuter: Value, rInner: Value)
    requires IsNumber(rOuter) && IsNumber(rInner)
    ensures AnnulusArea(rOuter, rInner) == Ok(CircleArea(rOuter).value - CircleArea(rInner).value)
  {
  }

  /** A sector spanning a full turn has the area of the whole annulus. */
  lemma FullTurnSectorIsAnnulus(rOuter: Value, rInner: Value, startAngle: Value, endAngle: Value)
    requires IsNumber(rOuter) && IsNumber(rInner) && IsNumber(startAngle) && IsNumber(endAngle)
    requires Abs(AsReal(endAngle) - AsReal(startAngle)) == 360.0
    ensures SectorArea(rOuter, rInner, startAngle, endAngle) == AnnulusArea(rOuter, rInner)
  {
  }

  /** A point list that validation accepts has a non-negative area. */
  lemma ValidPointsHaveArea(points: Value)
    requires ValidPoints(points)
    ensures PolygonArea(points).Ok?
  {
    var items := points.items;
    assert forall i :: 0 <= i < |items| ==> IsNumericPair(items[i]) by {
      forall i | 0 <= i < |items| ensures IsNumericPair(items[i]) {
        assert NumericTuple(items[i]);
      }
    }
  }

  /** A circle that validation accepts has a positive area. */
  lemma ValidCircleHasArea(radius: Value, center: Value)
    requires ValidCircle(radius, center)
    ensures CircleArea(radius).Ok? && CircleArea(radius).value > 0.0
  {
    SqrPositive(AsReal(radius));
    MulPos(PI, Sqr(AsReal(radius)));
  }

  /** An annulus that validation accepts has a positive area. */
  lemma ValidAnnulusHasArea(center: Value, rOuter: Value, rInner: Value)
    requires ValidAnnulus(center, rOuter, rInner)
    ensures AnnulusArea(rOuter, rInner).Ok? && AnnulusArea(rOuter, rInner).value > 0.0
  {
    SqrMonotone(AsReal(rInner), AsReal(rOuter));
    MulPos(PI, Sqr(AsReal(rOuter)) - Sqr(AsReal(rInner)));
  }

  /** An annulus sector that validation accepts has a positive area. */
  lemma ValidSectorHasArea(center: Value, rOuter: Value, rInner: Value, startAngle: Value, endAngle: Value)
    requires ValidSector(center, rOuter, rInner, startAngle, endAngle)
    ensures SectorArea(rOuter, rInner, startAngle, endAngle).Ok?
    ensures SectorArea(rOuter, rInner, startAngle, endAngle).value > 0.0
  {
    var ro, ri := AsReal(rOuter), AsReal(rInner);
    SectorFormulaPositive(Abs(AsReal(endAngle) - AsReal(startAngle)), ro, ri);
  }

  lemma SectorFormulaPositive(span: real, ro: real, ri: real)
    requires span > 0.0 && 0.0 < ri < ro
    ensures SectorFormula(span, ro, ri) > 0.0
  {
    SqrMonotone(ri, ro);
    MulPos(span, PI);
    calc {
      SectorFormula(span, ro, ri);
    ==
      0.5 * (span * PI / 180.0) * (Sqr(ro) - Sqr(ri));
    > { MulPos(0.5 * (span * PI / 180.0), Sqr(ro) - Sqr(ri)); }
      0.0;
    }
  }

  /** The three-edge square of side 5 given as a hybrid has area 25: the
      six endpoints collapse to four corners. */
  lemma HybridSquareArea(g: seq<(string, Value)>)
    requires g == SquareHybrid()
    ensures AreaOf(g) == Ok(25.0)
  {
    assert g[0].0 == "shape";
    assert HasKey(g, "shape") && Get(g, "shape") == VShape(Hybrid);
    SquareHybridVertices();
    HybridArea(g);
    SquareCornersArea();
  }

  lemma SquareCornersArea()
    ensures AreaOfPoints([(0.0, 0.0), (0.0, 5.0), (5.0, 5.0), (5.0, 0.0)]) == Ok(25.0)
  {
    var u := [(0.0, 0.0), (0.0, 5.0), (5.0, 5.0), (5.0, 0.0)];
    assert CrossSum(u, 1) == 0.0;
    assert CrossSum(u, 2) == -25.0;
    assert CrossSum(u, 3) == -50.0;
    assert CrossSum(u, 4) == -50.0;
  }

  /** A hybrid geometry whose endpoints are all tuples of two numbers has
      the shoelace area of its distinct endpoints, in first-occurrence
      order (ValueError when fewer than three remain). */
  lemma HybridArea(g: seq<(string, Value)>)
    requires HasKey(g, "shape") && Get(g, "shape") == VShape(Hybrid)
    requires HybridEnds(g).Ok?
    requires forall i :: 0 <= i < |HybridEnds(g).value| ==>
      HybridEnds(g).value[i].VTuple? && IsNumericPair(HybridEnds(g).value[i])
    ensures AreaOf(g) == AreaOfPoints(Dedup(Points(HybridEnds(g).value)))
  {
    NumericHybridVertices(g);
    ListArea(HybridVertices(g).value);
  }

  function Edge(x0: int, y0: int, x1: int, y1: int): Value {
    VDict([("type", VConnector(Line)), ("start", VTuple([VInt(x0), VInt(y0)])), ("end", VTuple([VInt(x1), VInt(y1)]))])
  }

  /** The hybrid square used by the geometry tests: three line edges from
      (0,0) up to (0,5), across to (5,5) and down to (5,0). */
  function SquareHybrid(): seq<(string, Value)> {
    [("shape", VShape(Hybrid)), ("edges", VList([Edge(0, 0, 0, 5), Edge(0, 5, 5, 5), Edge(5, 5, 5, 0)]))]
  }

  /** The square's six endpoints, as the edges give them. */
  function SquareEnds(): seq<Value> {
    [VTuple([VInt(0), VInt(0)]), VTuple([VInt(0), VInt(5)]), VTuple([VInt(0), VInt(5)]),
     VTuple([VInt(5), VInt(5)]), VTuple([VInt(5), VInt(5)]), VTuple([VInt(5), VInt(0)])]
  }

  /** The square's six endpoints are tuples of two numbers whose distinct
      points are its four corners. */
  lemma SquareHybridVertices()
    ensures HybridEnds(SquareHybrid()) == Ok(SquareEnds())
    ensures forall i :: 0 <= i < |SquareEnds()| ==> SquareEnds()[i].VTuple? && IsNumericPair(SquareEnds()[i])
    ensures Dedup(Points(SquareEnds())) == [(0.0, 0.0), (0.0, 5.0), (5.0, 5.0), (5.0, 0.0)]
  {
    SquareHybridEnds();
    SquareEndsPoints();
    SquareDedup();
  }

  lemma SquareHybridEnds()
    ensures HybridEnds(SquareHybrid()) == Ok(SquareEnds())
  {
    var g := SquareHybrid();
    assert g[1].0 == "edges";
    var edges := [Edge(0, 0, 0, 5), Edge(0, 5, 5, 5), Edge(5, 5, 5, 0)];
    assert Get(g, "edges") == VList(edges);
    SquareEndpoints();
  }

  lemma SquareEndsPoints()
    ensures forall i :: 0 <= i < |SquareEnds()| ==> SquareEnds()[i].VTuple? && IsNumericPair(SquareEnds()[i])
    ensures Points(SquareEnds()) == [(0.0, 0.0), (0.0, 5.0), (0.0, 5.0), (5.0, 5.0), (5.0, 5.0), (5.0, 0.0)]
  {
    var ends := SquareEnds();
    var pts := [(0.0, 0.0), (0.0, 5.0), (0.0, 5.0), (5.0, 5.0), (5.0, 5.0), (5.0, 0.0)];
    assert forall i :: 0 <= i < 6 ==> ends[i].VTuple? && IsNumericPair(ends[i]) && AsPoint(ends[i]) == pts[i];
  }

  /** Get on an edge built by Edge. */
  lemma EdgeKeys(x0: int, y0: int, x1: int, y1: int)
    ensures HasEndpoints(Edge(x0, y0, x1, y1))
    ensures Get(Edge(x0, y0, x1, y1).entries, "start") == VTuple([VInt(x0), VInt(y0)])
    ensures Get(Edge(x0, y0, x1, y1).entries, "end") == VTuple([VInt(x1), VInt(y1)])
  {
    var es := Edge(x0, y0, x1, y1).entries;
    assert es[1].0 == "start" && es[2].0 == "end";
    assert es[1..][1..] == [es[2]];
  }

  lemma SquareEndpoints()
    ensures EdgeEndpoints([Edge(0, 0, 0, 5), Edge(0, 5, 5, 5), Edge(5, 5, 5, 0)]) == Ok(SquareEnds())
  {
    EdgeKeys(0, 0, 0, 5);
    EdgeKeys(0, 5, 5, 5);
    EdgeKeys(5, 5, 5, 0);
    ThreeEdgeEndpoints(Edge(0, 0, 0, 5), Edge(0, 5, 5, 5), Edge(5, 5, 5, 0));
  }

  lemma ThreeEdgeEndpoints(e0: Value, e1: Value, e2: Value)
    requires HasEndpoints(e0) && HasEndpoints(e1) && HasEndpoints(e2)
    ensures EdgeEndpoints([e0, e1, e2])
         == Ok([Get(e0.entries, "start"), Get(e0.entries, "end"), Get(e1.entries, "start"),
                Get(e1.entries, "end"), Get(e2.entries, "start"), Get(e2.entries, "end")])
  {
    var edges := [e0, e1, e2];
    assert EdgeEndpoints(edges).Ok?;
    EdgeEndpointsAre(edges);
    assert edges[1..] == [e1, e2] && [e1, e2][1..] == [e2];
    assert Pairs(Ends, [e2]) == [Ends(e2).0, Ends(e2).1];
    assert Pairs(Ends, [e1, e2]) == [Ends(e1).0, Ends(e1).1] + Pairs(Ends, [e2]);
    assert Pairs(Ends, edges) == [Ends(e0).0, Ends(e0).1] + Pairs(Ends, [e1, e2]);
    assert Pairs(Ends, edges) == [Ends(e0).0, Ends(e0).1, Ends(e1).0, Ends(e1).1, Ends(e2).0, Ends(e2).1];
  }

  lemma SquareDedup()
    ensures Dedup([(0.0, 0.0), (0.0, 5.0), (0.0, 5.0), (5.0, 5.0), (5.0, 5.0), (5.0, 0.0)])
         == [(0.0, 0.0), (0.0, 5.0), (5.0, 5.0), (5.0, 0.0)]
  {
    var pts := [(0.0, 0.0), (0.0, 5.0), (0.0, 5.0), (5.0, 5.0), (5.0, 5.0), (5.0, 0.0)];
    assert Dedup(pts[..1]) == [(0.0, 0.0)];
    assert pts[..2][..1] == pts[..1];
    assert Dedup(pts[..2]) == [(0.0, 0.0), (0.0, 5.0)];
    assert pts[..3][..2] == pts[..2];
    assert Dedup(pts[..3]) == [(0.0, 0.0), (0.0, 5.0)];
    assert pts[..4][..3] == pts[..3];
    assert Dedup(pts[..4]) == [(0.0, 0.0), (0.0, 5.0), (5.0, 5.0)];
    assert pts[..5][..4] == pts[..4];
    assert Dedup(pts[..5]) == [(0.0, 0.0), (0.0, 5.0), (5.0, 5.0)];
    assert pts[..5] == pts[..|pts| - 1];
  }
}
