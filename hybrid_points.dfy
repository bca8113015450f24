/** The point lists the polygon formulas walk, and the vertex list that
    calculate_area and centroid_point build for a HYBRID shape
    (blueshark/domain/geometry/area.py:148-161 and
    graphical_centroid.py:173-186): every edge contributes its start and
    end point, and repeated points are dropped, keeping the first
    occurrence. */
module HybridPoints {
  import opened Wrappers
  import opened Definitions
  import opened Builtins
  import opened Loops
  import opened Dicts

  /** An edge that can be subscripted with "start" and "end". */
  predicate HasEndpoints(e: Value) {
    e.VDict? && HasKey(e.entries, "start") && HasKey(e.entries, "end")
  }

  /** `points.append(edge["start"]); points.append(edge["end"])` for every
      edge, in order. Subscripting a non-dictionary raises TypeError, a
      missing key KeyError. */
  function EdgeEndpoints(edges: seq<Value>): (r: Result<seq<Value>>)
    ensures r.Ok? <==> forall i :: 0 <= i < |edges| ==> HasEndpoints(edges[i])
    ensures r.Err? ==> r.error in {TypeError, KeyError}
  {
    if |edges| == 0 then Ok([])
    else
      var e := edges[0];
      if !e.VDict? then Err(TypeError)
      else if !HasKey(e.entries, "start") || !HasKey(e.entries, "end") then Err(KeyError)
      else
        var rest := EdgeEndpoints(edges[1..]);
        assert forall i :: 1 <= i < |edges| ==> edges[i] == edges[1..][i - 1];
        if rest.Err? then rest
        else Ok([Get(e.entries, "start"), Get(e.entries, "end")] + rest.value)
  }

  /** An edge's start and end. */
  function Ends(e: Value): (Value, Value) {
    if e.VDict? then (Get(e.entries, "start"), Get(e.entries, "end")) else (VNone, VNone)
  }

  lemma {:induction false} EdgeEndpointsAre(edges: seq<Value>)
    requires EdgeEndpoints(edges).Ok?
    ensures EdgeEndpoints(edges).value == Pairs(Ends, edges)
  {
    if |edges| > 0 {
      EdgeEndpointsAre(edges[1..]);
    }
  }

  /** The endpoints come two per edge, in edge order: start, then end. */
  lemma EdgeEndpointsPairs(edges: seq<Value>)
    requires EdgeEndpoints(edges).Ok?
    ensures |EdgeEndpoints(edges).value| == 2 * |edges|
    ensures forall i :: 0 <= i < |edges| ==>
      EdgeEndpoints(edges).value[2 * i] == Get(edges[i].entries, "start") &&
      EdgeEndpoints(edges).value[2 * i + 1] == Get(edges[i].entries, "end")
  {
    EdgeEndpointsAre(edges);
    PairsIndex(Ends, edges);
  }

  /** The points a list of numeric pairs stands for. */
  function Points(vs: seq<Value>): (r: seq<Point>)
    requires forall i :: 0 <= i < |vs| ==> IsNumericPair(vs[i])
    ensures |r| == |vs| && forall i :: 0 <= i < |vs| ==> r[i] == AsPoint(vs[i])
  {
    seq(|vs|, i requires 0 <= i < |vs| => AsPoint(vs[i]))
  }

  /** The loop shared by _area_polygon and _polygon, from iteration i on:
      `x1, y1 = points[i]`, then `x2, y2 = points[(i + 1) % n]`, then the
      arithmetic, which raises TypeError unless all four coordinates are
      numbers. The exception the loop raises, or None if it runs to the
      end. */
  function LoopError(vs: seq<Value>, i: nat): Option<Error>
    requires i <= |vs|
    decreases |vs| - i
  {
    if i == |vs| then None
    else
      var p, q := vs[i], vs[(i + 1) % |vs|];
      if Unpack(p).Err? then Some(Unpack(p).error)
      else if Unpack(q).Err? then Some(Unpack(q).error)
      else
        var (x1, y1) := Unpack(p).value;
        var (x2, y2) := Unpack(q).value;
        if !(IsNumber(x1) && IsNumber(y1) && IsNumber(x2) && IsNumber(y2)) then Some(TypeError)
        else LoopError(vs, i + 1)
  }

  /** The index of the first value that is not a numeric pair, or |vs|. */
  function FirstBad(vs: seq<Value>): (j: nat)
    ensures j <= |vs|
    ensures forall k :: 0 <= k < j ==> IsNumericPair(vs[k])
    ensures j < |vs| ==> !IsNumericPair(vs[j])
  {
    if |vs| == 0 || !IsNumericPair(vs[0]) then 0
    else
      var j := 1 + FirstBad(vs[1..]);
      assert forall k :: 1 <= k < j ==> vs[k] == vs[1..][k - 1];
      j
  }

  /** The exception the loop raises when vs[j] is the first point that is
      not a numeric pair: that point's own unpacking error if it has one,
      else the TypeError of the arithmetic, except that for the very first
      point the second point is unpacked before any arithmetic. */
  function BadPointError(vs: seq<Value>, j: nat): (e: Error)
    requires j < |vs|
    ensures e == TypeError || e == ValueError
  {
    if Unpack(vs[j]).Err? then Unpack(vs[j]).error
    else if j == 0 && Unpack(vs[1 % |vs|]).Err? then Unpack(vs[1 % |vs|]).error
    else TypeError
  }

  /** A list of numeric pairs runs the loop to its end. */
  lemma {:induction false} LoopErrorClear(vs: seq<Value>, i: nat)
    requires i <= |vs|
    requires forall k :: 0 <= k < |vs| ==> IsNumericPair(vs[k])
    ensures LoopError(vs, i) == None
    decreases |vs| - i
  {
    if i < |vs| {
      NumericUnpack(vs[i]);
      NumericUnpack(vs[(i + 1) % |vs|]);
      LoopErrorClear(vs, i + 1);
    }
  }

  /** Started before the first bad point (or at it when it is the first
      point), the loop raises BadPointError. */
  lemma {:induction false} LoopErrorFirstBad(vs: seq<Value>, i: nat)
    requires FirstBad(vs) < |vs|
    requires i < FirstBad(vs) || i == FirstBad(vs) == 0
    ensures LoopError(vs, i) == Some(BadPointError(vs, FirstBad(vs)))
    decreases |vs| - i
  {
    var j := FirstBad(vs);
    if i + 1 < j {
      LoopErrorPasses(vs, i);
      LoopErrorFirstBad(vs, i + 1);
    } else if i + 1 == j {
      LoopErrorBeforeBad(vs, i);
    } else {
      LoopErrorAtFirst(vs);
    }
  }

  /** Two numeric pairs pass one turn of the loop. */
  lemma LoopErrorPasses(vs: seq<Value>, i: nat)
    requires i + 1 < |vs| && IsNumericPair(vs[i]) && IsNumericPair(vs[i + 1])
    ensures LoopError(vs, i) == LoopError(vs, i + 1)
  {
    assert (i + 1) % |vs| == i + 1;
    NumericUnpack(vs[i]);
    NumericUnpack(vs[i + 1]);
  }

  /** The turn before the first bad point raises that point's error. */
  lemma LoopErrorBeforeBad(vs: seq<Value>, i: nat)
    requires FirstBad(vs) < |vs| && i + 1 == FirstBad(vs)
    ensures LoopError(vs, i) == Some(BadPointError(vs, FirstBad(vs)))
  {
    assert (i + 1) % |vs| == i + 1;
    NumericUnpack(vs[i]);
    NumericUnpack(vs[i + 1]);
  }

  /** A bad first point stops the first turn. */
  lemma LoopErrorAtFirst(vs: seq<Value>)
    requires |vs| > 0 && FirstBad(vs) == 0
    ensures LoopError(vs, 0) == Some(BadPointError(vs, 0))
  {
    NumericUnpack(vs[0]);
  }

  /** A polygon's point list as the shoelace loop unpacks it. It yields
      the points when every item is a list or tuple of two numbers;
      otherwise it raises what the loop raises at the first bad point:
      ValueError for an item that does not hold exactly two values,
      TypeError for one that is not iterable or not numeric. */
  function ToPoints(vs: seq<Value>): (r: Result<seq<Point>>)
    ensures r.Ok? <==> forall i :: 0 <= i < |vs| ==> IsNumericPair(vs[i])
    ensures r.Ok? ==> |r.value| == |vs| && forall i :: 0 <= i < |vs| ==> r.value[i] == AsPoint(vs[i])
    ensures r.Err? ==> FirstBad(vs) < |vs| && r.error == BadPointError(vs, FirstBad(vs))
  {
    if FirstBad(vs) < |vs| then
      LoopErrorFirstBad(vs, 0);
      Err(LoopError(vs, 0).value)
    else
      LoopErrorClear(vs, 0);
      Ok(Points(vs))
  }

  /** Every item holding a wrong number of values, and no other bad item,
      makes the loop raise ValueError; items that all unpack make any
      failure the arithmetic's TypeError. */
  lemma ToPointsErrorClass(vs: seq<Value>)
    ensures ((forall i :: 0 <= i < |vs| ==> IsNumericPair(vs[i]) || Unpack(vs[i]) == Err(ValueError))
             && ToPoints(vs).Err?) ==> ToPoints(vs).error == ValueError
    ensures ((forall i :: 0 <= i < |vs| ==> Unpack(vs[i]).Ok?) && ToPoints(vs).Err?) ==> ToPoints(vs).error == TypeError
  {
    if FirstBad(vs) < |vs| {
      NumericUnpack(vs[FirstBad(vs)]);
    }
  }

  /** The endpoints of a hybrid geometry's edges, in order. */
  function HybridEnds(g: seq<(string, Value)>): (r: Result<seq<Value>>)
    ensures !HasKey(g, "edges") ==> r == Err(KeyError)
  {
    if !HasKey(g, "edges") then Err(KeyError)
    else
      var edges :- Iterate(Get(g, "edges"));
      EdgeEndpoints(edges)
  }

  /** The de-duplicated vertex list of a hybrid geometry: `pt not in seen`
      hashes each endpoint, so a list or dictionary among them raises
      TypeError; otherwise each endpoint is kept unless an equal one (1 and
      1.0 are equal) was kept before it. */
  function HybridVertices(g: seq<(string, Value)>): (r: Result<seq<Value>>)
    ensures !HasKey(g, "edges") ==> r == Err(KeyError)
    ensures HybridEnds(g).Err? ==> r == Err(HybridEnds(g).error)
    ensures HybridEnds(g).Ok? ==>
      (r.Ok? <==> forall i :: 0 <= i < |HybridEnds(g).value| ==> Hashable(HybridEnds(g).value[i]))
    ensures r.Ok? ==> r.value == DedupBy(Canonical, HybridEnds(g).value)
  {
    var ends :- HybridEnds(g);
    if exists i :: 0 <= i < |ends| && !Hashable(ends[i]) then Err(TypeError)
    else Ok(DedupBy(Canonical, ends))
  }

  /** The vertex list holds no two equal values, and every endpoint
      equals one of its vertices. */
  lemma HybridVerticesDistinct(g: seq<(string, Value)>)
    requires HybridVertices(g).Ok?
    ensures forall i, j :: 0 <= i < j < |HybridVertices(g).value| ==>
      Canonical(HybridVertices(g).value[i]) != Canonical(HybridVertices(g).value[j])
    ensures forall x :: x in HybridEnds(g).value ==>
      exists k :: 0 <= k < |HybridVertices(g).value| && Canonical(HybridVertices(g).value[k]) == Canonical(x)
  {
    var ends := HybridEnds(g).value;
    DedupByDistinct(Canonical, ends);
    forall x | x in ends
      ensures exists k :: 0 <= k < |DedupBy(Canonical, ends)| && Canonical(DedupBy(Canonical, ends)[k]) == Canonical(x)
    {
      DedupByCovers(Canonical, ends, x);
    }
  }

  /** The `seen` / `unique_points` loop. */
  method DedupValues(points: seq<Value>) returns (r: Result<seq<Value>>)
    ensures r == if exists i :: 0 <= i < |points| && !Hashable(points[i]) then Err(TypeError)
                 else Ok(DedupBy(Canonical, points))
  {
    var seen: set<Value> := {};
    var unique: seq<Value> := [];
    for i := 0 to |points|
      invariant forall k :: 0 <= k < i ==> Hashable(points[k])
      invariant unique == DedupBy(Canonical, points[..i])
      invariant seen == KeySet(unique)
    {
      var pt := points[i];
      if !Hashable(pt) {
        return Err(TypeError);
      }
      assert points[..i + 1][..i] == points[..i];
      KeySetHas(unique, pt);
      if Canonical(pt) !in seen {
        KeySetAppend(unique, pt);
        unique := unique + [pt];
        seen := seen + {Canonical(pt)};
      }
    }
    assert points[..|points|] == points;
    return Ok(unique);
  }

  /** The set elements `seen` holds for the kept values. */
  function KeySet(s: seq<Value>): set<Value> {
    set k | 0 <= k < |s| :: Canonical(s[k])
  }

  lemma KeySetHas(s: seq<Value>, x: Value)
    ensures Canonical(x) in KeySet(s) <==> exists k :: 0 <= k < |s| && Canonical(s[k]) == Canonical(x)
  {
  }

  lemma KeySetAppend(s: seq<Value>, x: Value)
    ensures KeySet(s + [x]) == KeySet(s) + {Canonical(x)}
  {
    var t := s + [x];
    forall c | c in KeySet(t) ensures c in KeySet(s) + {Canonical(x)} {
      var k :| 0 <= k < |t| && Canonical(t[k]) == c;
      if k < |s| {
        assert t[k] == s[k];
      }
    }
    forall c | c in KeySet(s) + {Canonical(x)} ensures c in KeySet(t) {
      if c == Canonical(x) {
        assert t[|s|] == x;
      } else {
        var k :| 0 <= k < |s| && Canonical(s[k]) == c;
        assert t[k] == s[k];
      }
    }
  }

  /** The hybrid branch's two loops: collect the endpoints, then drop
      repeats. */
  method CollectHybridVertices(g: seq<(string, Value)>) returns (r: Result<seq<Value>>)
    ensures r == HybridVertices(g)
  {
    var ends :- HybridEnds(g);
    r := DedupValues(ends);
  }

  /** When every endpoint is a tuple of two numbers, the vertex list is the
      list of distinct points in first-occurrence order. */
  lemma {:induction false} NumericDedup(s: seq<Value>)
    requires forall i :: 0 <= i < |s| ==> s[i].VTuple? && IsNumericPair(s[i])
    ensures forall i :: 0 <= i < |DedupBy(Canonical, s)| ==> DedupBy(Canonical, s)[i] in s
    ensures Points(DedupBy(Canonical, s)) == Dedup(Points(s))
  {
    if |s| > 0 {
      var init, last := s[..|s| - 1], s[|s| - 1];
      NumericDedup(init);
      var d := DedupBy(Canonical, init);
      assert Points(s)[..|s| - 1] == Points(init);
      assert forall x :: x in d ==> x in init;
      KeyMatchIsPointMatch(d, last);
      if !exists k :: 0 <= k < |d| && Canonical(d[k]) == Canonical(last) {
        assert Points(d + [last]) == Points(d) + [AsPoint(last)];
      }
    }
  }

  /** Among tuples of two numbers, a set finds an element with last's key
      exactly when last's point is among their points. */
  lemma KeyMatchIsPointMatch(d: seq<Value>, last: Value)
    requires forall i :: 0 <= i < |d| ==> d[i].VTuple? && IsNumericPair(d[i])
    requires last.VTuple? && IsNumericPair(last)
    ensures (exists k :: 0 <= k < |d| && Canonical(d[k]) == Canonical(last)) <==> AsPoint(last) in Points(d)
  {
    forall k | 0 <= k < |d|
      ensures Canonical(d[k]) == Canonical(last) <==> Points(d)[k] == AsPoint(last)
    {
      SamePointSameKey(d[k], last);
    }
  }

  /** A hybrid geometry whose endpoints are all tuples of two numbers
      yields the distinct endpoints, in first-occurrence order. */
  lemma NumericHybridVertices(g: seq<(string, Value)>)
    requires HybridEnds(g).Ok?
    requires forall i :: 0 <= i < |HybridEnds(g).value| ==>
      HybridEnds(g).value[i].VTuple? && IsNumericPair(HybridEnds(g).value[i])
    ensures HybridVertices(g).Ok?
    ensures ToPoints(HybridVertices(g).value) == Ok(Dedup(Points(HybridEnds(g).value)))
  {
    var ends := HybridEnds(g).value;
    forall i | 0 <= i < |ends| ensures Hashable(ends[i]) {
      CanonicalPoint(ends[i]);
    }
    NumericDedup(ends);
  }
}
