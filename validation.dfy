/** validate_shape and its per-shape helpers
    (blueshark/domain/geometry/validation.py). Each check either passes or
    reports the exception the source raises; the geometry is a value, so
    validation cannot change it. */
module Validation {
  import opened Wrappers
  import opened Definitions

  /** A tuple of exactly two numbers (isinstance(pt, tuple), len 2, numeric). */
  predicate NumericTuple(v: Value) {
    v.VTuple? && |v.items| == 2 && IsNumber(v.items[0]) && IsNumber(v.items[1])
  }

  /** A list of at least three numeric 2-tuples. */
  predicate ValidPoints(points: Value) {
    points.VList? && |points.items| >= 3
    && forall i :: 0 <= i < |points.items| ==> NumericTuple(points.items[i])
  }

  predicate ValidCircle(radius: Value, center: Value) {
    IsNumber(radius) && NumericTuple(center) && AsReal(radius) > 0.0
  }

  predicate ValidAnnulus(center: Value, rOuter: Value, rInner: Value) {
    ValidCircle(rOuter, center) && ValidCircle(rInner, center) && AsReal(rOuter) > AsReal(rInner)
  }

  predicate ValidSector(center: Value, rOuter: Value, rInner: Value, startAngle: Value, endAngle: Value) {
    ValidAnnulus(center, rOuter, rInner)
    && IsNumber(startAngle) && IsNumber(endAngle) && AsReal(endAngle) > AsReal(startAngle)
  }

  /** `edge_type in Connectors`: a Connectors member or one of its string
      values. */
  predicate IsConnector(v: Value) {
    v.VConnector? || v == VStr("line") || v == VStr("arc")
  }

  predicate ValidEdge(e: Value) {
    e.VDict? && IsConnector(Get(e.entries, "type"))
  }

  predicate ValidEdges(edges: Value) {
    edges.VList? && forall i :: 0 <= i < |edges.items| ==> ValidEdge(edges.items[i])
  }

  /** The geometry dictionaries validate_shape accepts, stated per shape. */
  predicate WellFormed(g: seq<(string, Value)>) {
    |g| > 0 && HasKey(g, "shape") &&
    match Get(g, "shape")
    case VShape(Polygon) => ValidPoints(Get(g, "points"))
    case VShape(Rectangle) => ValidPoints(Get(g, "points"))
    case VShape(Circle) => ValidCircle(Get(g, "radius"), Get(g, "center"))
    case VShape(AnnulusCircle) =>
      ValidAnnulus(Get(g, "center"), Get(g, "radius_outer"), Get(g, "radius_inner"))
    case VShape(AnnulusSector) =>
      ValidSector(Get(g, "center"), Get(g, "radius_outer"), Get(g, "radius_inner"),
                  Get(g, "start_angle"), Get(g, "end_angle"))
    case VShape(Hybrid) => ValidEdges(Get(g, "edges"))
    case _ => false
  }

  /** _validate_polygon */
  function ValidatePolygon(points: Value): (r: Outcome)
    ensures r.Pass? <==> ValidPoints(points)
    ensures r.Fail? ==> r.error == ValueError
  {
    if points.VNone? then Fail(ValueError)
    else if !points.VList? then Fail(ValueError)
    else if |points.items| < 3 then Fail(ValueError)
    else if exists i :: 0 <= i < |points.items| && !NumericTuple(points.items[i]) then Fail(ValueError)
    else Pass
  }

  /** _validate_circle */
  function ValidateCircle(radius: Value, center: Value): (r: Outcome)
    ensures r.Pass? <==> ValidCircle(radius, center)
    ensures r.Fail? ==> r.error == ValueError
  {
    if radius.VNone? || center.VNone? then Fail(ValueError)
    else if !IsNumber(radius) then Fail(ValueError)
    else if !center.VTuple? then Fail(ValueError)
    else if |center.items| != 2 then Fail(ValueError)
    else if !(IsNumber(center.items[0]) && IsNumber(center.items[1])) then Fail(ValueError)
    else if AsReal(radius) <= 0.0 then Fail(ValueError)
    else Pass
  }

  /** _validate_annulus_circle */
  function ValidateAnnulusCircle(center: Value, rOuter: Value, rInner: Value): (r: Outcome)
    ensures r.Pass? <==> ValidAnnulus(center, rOuter, rInner)
    ensures r.Fail? ==> r.error == ValueError
  {
    var outer := ValidateCircle(rOuter, center);
    var inner := ValidateCircle(rInner, center);
    if outer.Fail? then outer
    else if inner.Fail? then inner
    else if AsReal(rOuter) <= AsReal(rInner) then Fail(ValueError)
    else Pass
  }

  /** _validate_annulus_sector */
  function ValidateAnnulusSector(center: Value, rOuter: Value, rInner: Value,
                                 startAngle: Value, endAngle: Value): (r: Outcome)
    ensures r.Pass? <==> ValidSector(center, rOuter, rInner, startAngle, endAngle)
    ensures r.Fail? ==> r.error == ValueError
  {
    var outer := ValidateCircle(rOuter, center);
    var inner := ValidateCircle(rInner, center);
    if outer.Fail? then outer
    else if inner.Fail? then inner
    else if startAngle.VNone? || endAngle.VNone? then Fail(ValueError)
    else if !IsNumber(startAngle) then Fail(ValueError)
    else if !IsNumber(endAngle) then Fail(ValueError)
    else if AsReal(rOuter) <= AsReal(rInner) then Fail(ValueError)
    else if AsReal(endAngle) <= AsReal(startAngle) then Fail(ValueError)
    else Pass
  }

  /** The loop of _validate_hybrid: edges are checked in order and the first
      bad one decides the exception. `edge.get` on a non-dictionary raises
      AttributeError; an unknown connector raises ValueError. */
  function CheckEdges(edges: seq<Value>): (r: Outcome)
    ensures r.Pass? <==> forall i :: 0 <= i < |edges| ==> ValidEdge(edges[i])
    ensures r.Fail? ==>
      exists i :: 0 <= i < |edges| && !ValidEdge(edges[i])
        && (forall j :: 0 <= j < i ==> ValidEdge(edges[j]))
        && r.error == (if edges[i].VDict? then ValueError else AttributeError)
  {
    if |edges| == 0 then Pass
    else if !edges[0].VDict? then Fail(AttributeError)
    else if !IsConnector(Get(edges[0].entries, "type")) then Fail(ValueError)
    else
      var r := CheckEdges(edges[1..]);
      assert forall i :: 1 <= i < |edges| ==> edges[i] == edges[1..][i - 1];
      if r.Fail? then
        var k :| 0 <= k < |edges[1..]| && !ValidEdge(edges[1..][k])
          && (forall j :: 0 <= j < k ==> ValidEdge(edges[1..][j]))
          && r.error == (if edges[1..][k].VDict? then ValueError else AttributeError);
        assert forall j :: 0 <= j < k + 1 ==> ValidEdge(edges[j]) by {
          forall j | 0 <= j < k + 1 ensures ValidEdge(edges[j]) {
            if j > 0 { assert edges[j] == edges[1..][j - 1]; }
          }
        }
        assert edges[k + 1] == edges[1..][k];
        r
      else
        r
  }

  /** _validate_hybrid */
  function ValidateHybrid(edges: Value): (r: Outcome)
    ensures r.Pass? <==> ValidEdges(edges)
    ensures edges.VNone? || !edges.VList? ==> r == Fail(ValueError)
    ensures edges.VList? ==> r == CheckEdges(edges.items)
  {
    if edges.VNone? then Fail(ValueError)
    else if !edges.VList? then Fail(ValueError)
    else CheckEdges(edges.items)
  }

  /** validate_shape: dispatch on geometry["shape"]. */
  function ValidateShape(g: seq<(string, Value)>): (r: Outcome)
    ensures r.Pass? <==> WellFormed(g)
    ensures |g| == 0 || !HasKey(g, "shape") ==> r == Fail(ValueError)
    ensures HasKey(g, "shape") && !Get(g, "shape").VShape? ==> r == Fail(NotImplementedError)
  {
    if |g| == 0 || !HasKey(g, "shape") then Fail(ValueError)
    else
      match Get(g, "shape")
      case VShape(Polygon) => ValidatePolygon(Get(g, "points"))
      case VShape(Rectangle) => ValidatePolygon(Get(g, "points"))
      case VShape(Circle) => ValidateCircle(Get(g, "radius"), Get(g, "center"))
      case VShape(AnnulusCircle) =>
        ValidateAnnulusCircle(Get(g, "center"), Get(g, "radius_outer"), Get(g, "radius_inner"))
      case VShape(AnnulusSector) =>
        ValidateAnnulusSector(Get(g, "center"), Get(g, "radius_outer"), Get(g, "radius_inner"),
                              Get(g, "start_angle"), Get(g, "end_angle"))
      case VShape(Hybrid) => ValidateHybrid(Get(g, "edges"))
      case _ => Fail(NotImplementedError)
  }

  /** Every failure of validate_shape is one of the three exceptions the
      source raises. */
  lemma ValidateShapeErrors(g: seq<(string, Value)>)
    ensures ValidateShape(g).Fail? ==>
      ValidateShape(g).error in {ValueError, AttributeError, NotImplementedError}
  {
    if |g| > 0 && HasKey(g, "shape") && Get(g, "shape") == VShape(Hybrid) {
      var e := Get(g, "edges");
      if e.VList? && CheckEdges(e.items).Fail? {
        var i :| 0 <= i < |e.items| && !ValidEdge(e.items[i])
          && CheckEdges(e.items).error == (if e.items[i].VDict? then ValueError else AttributeError);
      }
    }
  }

  /** A hybrid whose edges are the integer 420 is rejected. */
  lemma HybridEdgesNotAListRejected()
    ensures ValidateShape([("shape", VShape(Hybrid)), ("edges", VInt(420))]) == Fail(ValueError)
  {
    var g := [("shape", VShape(Hybrid)), ("edges", VInt(420))];
    assert g[0].0 == "shape";
    assert Get(g, "edges") == VInt(420);
  }

  /** A polygon whose points are a single tuple, not a list, is rejected. */
  lemma PolygonPointsNotAListRejected()
    ensures ValidateShape([("shape", VShape(Polygon)), ("points", VTuple([VInt(5), VInt(5)]))]) == Fail(ValueError)
  {
    var g := [("shape", VShape(Polygon)), ("points", VTuple([VInt(5), VInt(5)]))];
    assert g[0].0 == "shape";
    assert Get(g, "points") == VTuple([VInt(5), VInt(5)]);
  }
}
