/** fill_polygon of blueshark/addons/topology/filling.py: scanline filling of
    a polygon given by its vertices on the voxel map. For each row y between
    the lowest and highest vertex, the x positions where the polygon's edges
    cross the row are sorted and filled between in pairs. */
module Filling {
  import Numbers

  /** A cell of the voxel map as (x, y). */
  type Cell = (int, int)

  /** An element of the `points` argument: a bare vertex (x, y), or a vertex
      already paired with a material, ((x, y), material). */
  datatype Entry = Plain(x: int, y: int) | Tagged(pos: Cell, material: int)

  /** The vertex of an entry: `p[0] if isinstance(p[0], tuple) else p`. */
  function CoordOf(e: Entry): Cell {
    match e
    case Plain(x, y) => (x, y)
    case Tagged(pos, _) => pos
  }

  function Coords(points: seq<Entry>): (cs: seq<Cell>)
    ensures |cs| == |points|
  {
    seq(|points|, i requires 0 <= i < |points| => CoordOf(points[i]))
  }

  /** `min(p[1] for p in coords)` */
  function MinY(cs: seq<Cell>): (r: int)
    requires |cs| > 0
    ensures exists i :: 0 <= i < |cs| && cs[i].1 == r
    ensures forall i :: 0 <= i < |cs| ==> r <= cs[i].1
  {
    if |cs| == 1 then cs[0].1
    else
      var m := MinY(cs[1..]);
      assert forall i :: 1 <= i < |cs| ==> cs[i] == cs[1..][i - 1];
      if cs[0].1 <= m then cs[0].1 else m
  }

  /** `max(p[1] for p in coords)` */
  function MaxY(cs: seq<Cell>): (r: int)
    requires |cs| > 0
    ensures exists i :: 0 <= i < |cs| && cs[i].1 == r
    ensures forall i :: 0 <= i < |cs| ==> cs[i].1 <= r
  {
    if |cs| == 1 then cs[0].1
    else
      var m := MaxY(cs[1..]);
      assert forall i :: 1 <= i < |cs| ==> cs[i] == cs[1..][i - 1];
      if cs[0].1 >= m then cs[0].1 else m
  }

  // ---------------------------------------------------------------------
  // Crossings of one scanline
  // ---------------------------------------------------------------------

  /** The edge from vertex i to the next one, the last closing the polygon. */
  function Edge(cs: seq<Cell>, i: int): (Cell, Cell)
    requires 0 <= i < |cs|
  {
    (cs[i], cs[(i + 1) % |cs|])
  }

  lemma EdgeInner(cs: seq<Cell>, i: int)
    requires 0 <= i && i + 1 < |cs|
    ensures Edge(cs, i) == (cs[i], cs[i + 1])
  {
  }

  lemma EdgeClosing(cs: seq<Cell>)
    requires |cs| > 0
    ensures Edge(cs, |cs| - 1) == (cs[|cs| - 1], cs[0])
  {
  }

  /** An edge whose height is within the gap tolerance is passed over. */
  predicate Skipped(e: (Cell, Cell), gap: int) {
    Numbers.IAbs(e.0.1 - e.1.1) <= gap
  }

  /** The half-open rule: the row counts when it lies at or above the lower
      end of the edge and strictly below its upper end. */
  predicate Straddles(e: (Cell, Cell), y: int) {
    (e.0.1 <= y < e.1.1) || (e.1.1 <= y < e.0.1)
  }

  predicate Crosses(e: (Cell, Cell), y: int, gap: int) {
    !Skipped(e, gap) && Straddles(e, y)
  }

  /** Where the row crosses the edge, interpolated and rounded half to
      even as `int(round(...))` does. */
  function CrossX(e: (Cell, Cell), y: int): int
    requires Straddles(e, y)
  {
    var (p1, p2) := e;
    Numbers.RoundHalfEven(p1.0 as real + (y - p1.1) as real * (p2.0 - p1.0) as real / (p2.1 - p1.1) as real)
  }

  /** The crossings of the first k edges with row y, in edge order. */
  function Crossings(cs: seq<Cell>, y: int, gap: int, k: int): seq<int>
    requires 0 <= k <= |cs|
  {
    if k == 0 then []
    else
      var e := Edge(cs, k - 1);
      Crossings(cs, y, gap, k - 1) + (if Crosses(e, y, gap) then [CrossX(e, y)] else [])
  }

  /** A crossing is recorded exactly for every edge that is not skipped and
      straddles the row, at the interpolated x of that edge. */
  lemma {:induction false} CrossingsMembers(cs: seq<Cell>, y: int, gap: int, k: int, x: int)
    requires 0 <= k <= |cs|
    ensures x in Crossings(cs, y, gap, k) <==>
      exists i :: 0 <= i < k && Crosses(Edge(cs, i), y, gap) && x == CrossX(Edge(cs, i), y)
  {
    if k > 0 {
      CrossingsMembers(cs, y, gap, k - 1, x);
    }
  }

  /** Row y lies strictly below vertex p or level with or above it. */
  predicate Below(p: Cell, y: int) {
    p.1 <= y
  }

  /** Edges within the tolerance are flat when the tolerance is not
      positive, so an edge then crosses the row exactly when its ends lie on
      different sides of it. */
  lemma CrossesSides(e: (Cell, Cell), y: int, gap: int)
    requires gap <= 0
    ensures Crosses(e, y, gap) <==> Below(e.0, y) != Below(e.1, y)
  {
  }

  /** The number of the first k edges that cross the row. */
  function CrossCount(cs: seq<Cell>, y: int, gap: int, k: int): nat
    requires 0 <= k <= |cs|
  {
    if k == 0 then 0 else CrossCount(cs, y, gap, k - 1) + if Crosses(Edge(cs, k - 1), y, gap) then 1 else 0
  }

  lemma {:induction false} CrossingsLength(cs: seq<Cell>, y: int, gap: int, k: int)
    requires 0 <= k <= |cs|
    ensures |Crossings(cs, y, gap, k)| == CrossCount(cs, y, gap, k)
  {
    if k > 0 {
      CrossingsLength(cs, y, gap, k - 1);
    }
  }

  /** Along the open chain of edges 0 .. k-1 the number of crossings is even
      exactly when the chain starts and ends on the same side of the row. */
  lemma {:induction false} ChainParity(cs: seq<Cell>, y: int, gap: int, k: int)
    requires gap <= 0 && 0 <= k < |cs|
    ensures (CrossCount(cs, y, gap, k) % 2 == 0) == (Below(cs[0], y) == Below(cs[k], y))
  {
    if k > 0 {
      ChainParity(cs, y, gap, k - 1);
      EdgeInner(cs, k - 1);
      CrossesSides(Edge(cs, k - 1), y, gap);
      var c := CrossCount(cs, y, gap, k - 1);
      assert CrossCount(cs, y, gap, k) == c + if Below(cs[k - 1], y) != Below(cs[k], y) then 1 else 0;
    }
  }

  /** With a tolerance that skips only flat edges, a closed polygon crosses
      every row an even number of times, so no crossing is left unpaired. */
  lemma CrossingsEven(cs: seq<Cell>, y: int, gap: int)
    requires gap <= 0 && |cs| > 0
    ensures |Crossings(cs, y, gap, |cs|)| % 2 == 0
  {
    var n := |cs|;
    ChainParity(cs, y, gap, n - 1);
    EdgeClosing(cs);
    CrossesSides(Edge(cs, n - 1), y, gap);
    CrossingsLength(cs, y, gap, n);
  }

  /** The crossings loop of one row. */
  method RowCrossings(cs: seq<Cell>, y: int, gap: int) returns (intersections: seq<int>)
    ensures intersections == Crossings(cs, y, gap, |cs|)
  {
    intersections := [];
    for i := 0 to |cs|
      invariant intersections == Crossings(cs, y, gap, i)
    {
      var p1 := cs[i];
      var p2 := cs[(i + 1) % |cs|];
      assert Edge(cs, i) == (p1, p2);
      assert Crossings(cs, y, gap, i + 1) == intersections +
        (if Crosses((p1, p2), y, gap) then [CrossX((p1, p2), y)] else []);
      if Numbers.IAbs(p1.1 - p2.1) <= gap {
        continue;
      }
      if (p1.1 <= y < p2.1) || (p2.1 <= y < p1.1) {
        var x := CrossX((p1, p2), y);
        intersections := intersections + [x];
      }
    }
  }

  // ---------------------------------------------------------------------
  // Sorting the crossings
  // ---------------------------------------------------------------------

  predicate Sorted(s: seq<int>) {
    forall i, j :: 0 <= i < j < |s| ==> s[i] <= s[j]
  }

  /** Inserting x before the first element not smaller than it. */
  function Insert(x: int, s: seq<int>): (r: seq<int>)
    ensures multiset(r) == multiset(s) + multiset{x}
  {
    if |s| == 0 then [x]
    else if x <= s[0] then [x] + s
    else
      assert s == [s[0]] + s[1..];
      [s[0]] + Insert(x, s[1..])
  }

  lemma {:induction false} InsertSorted(x: int, s: seq<int>)
    requires Sorted(s)
    ensures Sorted(Insert(x, s))
  {
    if |s| > 0 && x > s[0] {
      var t := Insert(x, s[1..]);
      InsertSorted(x, s[1..]);
      forall z | z in t
        ensures s[0] <= z
      {
        assert z in multiset(t);
        assert z in multiset(s[1..]) || z == x;
      }
      ConsSorted(s[0], t);
    }
  }

  /** A sorted list stays sorted behind an element no larger than its own. */
  lemma ConsSorted(h: int, t: seq<int>)
    requires Sorted(t) && forall z :: z in t ==> h <= z
    ensures Sorted([h] + t)
  {
    var r := [h] + t;
    forall i, j | 0 <= i < j < |r|
      ensures r[i] <= r[j]
    {
      assert r[j] == t[j - 1] && t[j - 1] in t;
      if i > 0 {
        assert r[i] == t[i - 1];
      }
    }
  }

  /** `list.sort()` on ints: the same crossings, in ascending order (see
      SortSorted). */
  function Sort(s: seq<int>): (r: seq<int>)
    ensures multiset(r) == multiset(s)
  {
    if |s| == 0 then []
    else
      assert s == s[..|s| - 1] + [s[|s| - 1]];
      Insert(s[|s| - 1], Sort(s[..|s| - 1]))
  }

  lemma {:induction false} SortSorted(s: seq<int>)
    ensures Sorted(Sort(s))
  {
    if |s| > 0 {
      SortSorted(s[..|s| - 1]);
      InsertSorted(s[|s| - 1], Sort(s[..|s| - 1]));
    }
  }

  // ---------------------------------------------------------------------
  // Filling between pairs
  // ---------------------------------------------------------------------

  /** The cells (a, y) .. (b, y) with the material, left to right. */
  function Run(a: int, b: int, y: int, m: int): seq<(Cell, int)>
    decreases b - a
  {
    if b < a then [] else Run(a, b - 1, y, m) + [((b, y), m)]
  }

  lemma {:induction false} RunMembers(a: int, b: int, y: int, m: int, e: (Cell, int))
    ensures e in Run(a, b, y, m) <==> e.0.1 == y && e.1 == m && a <= e.0.0 <= b
    decreases b - a
  {
    if a <= b {
      RunMembers(a, b - 1, y, m, e);
    }
  }

  /** The k-th pair of crossings. */
  function Pair(s: seq<int>, k: int): (int, int)
    requires 0 <= k && 2 * k + 1 < |s|
  {
    (s[2 * k], s[2 * k + 1])
  }

  /** The runs of the first k pairs of crossings. */
  function Spans(s: seq<int>, k: int, y: int, m: int): seq<(Cell, int)>
    requires 0 <= k && 2 * k <= |s|
  {
    if k == 0 then [] else Spans(s, k - 1, y, m) + Run(Pair(s, k - 1).0, Pair(s, k - 1).1, y, m)
  }

  /** x lies between the two crossings of one of the first k pairs. */
  predicate InSpan(s: seq<int>, k: int, x: int)
    requires 0 <= k && 2 * k <= |s|
  {
    exists j :: 0 <= j < k && Pair(s, j).0 <= x <= Pair(s, j).1
  }

  lemma {:induction false} SpansMembers(s: seq<int>, k: int, y: int, m: int, e: (Cell, int))
    requires 0 <= k && 2 * k <= |s|
    ensures e in Spans(s, k, y, m) <==> e.0.1 == y && e.1 == m && InSpan(s, k, e.0.0)
  {
    if k > 0 {
      SpansMembers(s, k - 1, y, m, e);
      RunMembers(Pair(s, k - 1).0, Pair(s, k - 1).1, y, m, e);
    }
  }

  /** The cells filled on row y. */
  function Row(cs: seq<Cell>, y: int, gap: int, m: int): seq<(Cell, int)> {
    var s := Sort(Crossings(cs, y, gap, |cs|));
    Spans(s, |s| / 2, y, m)
  }

  /** The rows lo .. hi-1, bottom up. */
  function Rows(cs: seq<Cell>, gap: int, m: int, lo: int, hi: int): seq<(Cell, int)>
    decreases hi - lo
  {
    if hi <= lo then [] else Rows(cs, gap, m, lo, hi - 1) + Row(cs, hi - 1, gap, m)
  }

  lemma RowsStep(cs: seq<Cell>, gap: int, m: int, lo: int, hi: int)
    requires lo <= hi
    ensures Rows(cs, gap, m, lo, hi + 1) == Rows(cs, gap, m, lo, hi) + Row(cs, hi, gap, m)
  {
  }

  /** fill_polygon as a value. */
  function Fill(points: seq<Entry>, material: int, gap: int): (r: seq<(Cell, int)>)
    ensures |points| == 0 ==> r == []
  {
    if |points| == 0 then []
    else
      var cs := Coords(points);
      Rows(cs, gap, material, MinY(cs), MaxY(cs) + 1)
  }

  /** The pair loop of one row: for each index 0, 2, 4, ... with a partner
      after it, every cell from the one crossing to the next. */
  method AppendSpans(filled: seq<(Cell, int)>, s: seq<int>, y: int, material: int) returns (out: seq<(Cell, int)>)
    ensures out == filled + Spans(s, |s| / 2, y, material)
  {
    out := filled;
    var i := 0;
    while i < |s|
      invariant 0 <= i && i % 2 == 0 && i <= |s| + 1
      invariant out == filled + Spans(s, (if i <= |s| then i else |s|) / 2, y, material)
    {
      if i + 1 < |s| {
        var xStart, xEnd := s[i], s[i + 1];
        ghost var before := out;
        var x := xStart;
        while x <= xEnd
          invariant xStart <= x <= (if xStart <= xEnd then xEnd + 1 else xStart)
          invariant out == before + Run(xStart, x - 1, y, material)
          decreases xEnd - x
        {
          out := out + [((x, y), material)];
          x := x + 1;
        }
        assert Pair(s, i / 2) == (xStart, xEnd);
      }
      i := i + 2;
    }
  }

  /** fill_polygon: the row loop from min_y to max_y inclusive. */
  method FillPolygon(points: seq<Entry>, material: int, gapTolerance: int) returns (filledPoints: seq<(Cell, int)>)
    ensures filledPoints == Fill(points, material, gapTolerance)
  {
    if |points| == 0 {
      return [];
    }
    filledPoints := [];
    var coords := Coords(points);
    var minY, maxY := MinY(coords), MaxY(coords);
    for y := minY to maxY + 1
      invariant filledPoints == Rows(coords, gapTolerance, material, minY, y)
    {
      var intersections := RowCrossings(coords, y, gapTolerance);
      intersections := Sort(intersections);
      filledPoints := AppendSpans(filledPoints, intersections, y, material);
      RowsStep(coords, gapTolerance, material, minY, y);
    }
  }

  // ---------------------------------------------------------------------
  // What the fill contains
  // ---------------------------------------------------------------------

  lemma {:induction false} RowsMembers(cs: seq<Cell>, gap: int, m: int, lo: int, hi: int, e: (Cell, int))
    ensures var s := Sort(Crossings(cs, e.0.1, gap, |cs|));
      e in Rows(cs, gap, m, lo, hi) <==> lo <= e.0.1 < hi && e.1 == m && InSpan(s, |s| / 2, e.0.0)
    decreases hi - lo
  {
    if lo < hi {
      RowsMembers(cs, gap, m, lo, hi - 1, e);
      var s := Sort(Crossings(cs, hi - 1, gap, |cs|));
      SpansMembers(s, |s| / 2, hi - 1, m, e);
    }
  }

  /** A cell is filled exactly when its row lies between the lowest and the
      highest vertex and its x lies between the two crossings of one of the
      pairs of that row's sorted crossings; every filled cell carries the
      material. */
  lemma FillMembers(points: seq<Entry>, material: int, gap: int, e: (Cell, int))
    requires |points| > 0
    ensures var cs := Coords(points);
      var s := Sort(Crossings(cs, e.0.1, gap, |cs|));
      e in Fill(points, material, gap) <==>
        MinY(cs) <= e.0.1 <= MaxY(cs) && e.1 == material && InSpan(s, |s| / 2, e.0.0)
  {
    var cs := Coords(points);
    RowsMembers(cs, gap, material, MinY(cs), MaxY(cs) + 1, e);
  }

  /** With a tolerance that skips only flat edges, every crossing of a row
      is paired: the last crossing is the end of a filled run. */
  lemma NoLeftover(points: seq<Entry>, gap: int, y: int)
    requires |points| > 0 && gap <= 0
    ensures var s := Sort(Crossings(Coords(points), y, gap, |points|));
      2 * (|s| / 2) == |s|
  {
    var cs := Coords(points);
    CrossingsEven(cs, y, gap);
    assert |Sort(Crossings(cs, y, gap, |cs|))| == |Crossings(cs, y, gap, |cs|)| by {
      assert multiset(Sort(Crossings(cs, y, gap, |cs|))) == multiset(Crossings(cs, y, gap, |cs|));
    }
  }
}
