/** The voxel map of blueshark/visualization/renderer.py: a list of rows
    of material indices, rows indexed by y and columns by x, that shapes
    are rasterised into and flood-filled, and that boundary points are
    checked against. */
module Visualize {
  import opened Wrappers
  import opened Definitions
  import Numbers

  /** SimulationType */
  datatype SimulationType = AxiSymmetric | Planar

  /** A cell as the flood fill's stack holds it: (row, column). */
  type Cell = (int, int)

  /** The shift added to every coordinate: half the window for a planar
      simulation, so that its origin sits mid-window, and none otherwise. */
  function ShiftOf(simType: SimulationType, window: (int, int)): (r: (int, int))
    ensures simType == Planar ==>
      2 * r.0 <= window.0 < 2 * r.0 + 2 && 2 * r.1 <= window.1 < 2 * r.1 + 2
    ensures simType == AxiSymmetric ==> r == (0, 0)
  {
    if simType == Planar then (window.0 / 2, window.1 / 2) else (0, 0)
  }

  /** Python's list indexing: a negative index counts from the end. */
  function PyIndex(i: int, length: nat): (r: Result<nat>)
    ensures r.Ok? <==> -(length as int) <= i < length
    ensures r.Ok? ==> r.value < length && (r.value == i || r.value == i + length)
    ensures r.Err? ==> r.error == IndexError
  {
    if 0 <= i < length then Ok(i)
    else if -(length as int) <= i < 0 then Ok((i + length) as nat)
    else Err(IndexError)
  }

  /** `voxel_map[y][x] = material` as Python evaluates it. */
  function AssignAsWritten(grid: seq<seq<int>>, x: int, y: int, material: int): (r: Result<seq<seq<int>>>)
    ensures r.Ok? ==> |r.value| == |grid|
  {
    var row :- PyIndex(y, |grid|);
    var column :- PyIndex(x, |grid[row]|);
    Ok(grid[row := grid[row][column := material]])
  }

  /** _set_points as written: a point left of or below the window is not
      rejected but lands on the opposite edge. With no shift, the point
      (-1, 0) of a 2 x 2 map is written into the last column of row 0. */
  lemma SetPointWrapsAsWritten()
    ensures AssignAsWritten([[0, 0], [0, 0]], -1 + 0, 0 + 0, 7) == Ok([[0, 7], [0, 0]])
  {
    var grid := [[0, 0], [0, 0]];
    assert PyIndex(0, |grid|) == Ok(0);
    assert PyIndex(-1, |grid[0]|) == Ok(1);
    assert grid[0][1 := 7] == [0, 7];
    assert grid[0 := [0, 7]] == [[0, 7], [0, 0]];
  }

  /** The start cell of _fill__regions as written: read with Python's
      indexing, so a centroid left of the window starts on the far edge. */
  function FillStartAsWritten(grid: seq<seq<int>>, x: int, y: int): (r: Result<int>)
  {
    var row :- PyIndex(y, |grid|);
    var column :- PyIndex(x, |grid[row]|);
    Ok(grid[row][column])
  }

  /** With no shift, the centroid (-1, 0) of a 2 x 2 map starts the fill
      at the last cell of row 0 instead of raising IndexError. */
  lemma FillStartWrapsAsWritten()
    ensures FillStartAsWritten([[1, 2], [3, 4]], -1 + 0, 0 + 0) == Ok(2)
  {
    var grid := [[1, 2], [3, 4]];
    assert PyIndex(0, |grid|) == Ok(0);
    assert PyIndex(-1, |grid[0]|) == Ok(1);
  }

  /** Every row has n cells. */
  predicate Rectangular(g: seq<seq<int>>, n: int) {
    forall i :: 0 <= i < |g| ==> |g[i]| == n
  }

  predicate InGrid(m: int, n: int, c: Cell) {
    0 <= c.0 < m && 0 <= c.1 < n
  }

  /** Two cells share a side. */
  predicate Adjacent(c: Cell, d: Cell) {
    (c.0 == d.0 && (c.1 - d.1 == 1 || d.1 - c.1 == 1)) ||
    (c.1 == d.1 && (c.0 - d.0 == 1 || d.0 - c.0 == 1))
  }

  /** A rows x columns map with every cell `fill`: initalize_map's loops,
      row by row. */
  method BlankMap(rows: int, columns: int, fill: int) returns (grid: seq<seq<int>>)
    ensures |grid| == (if rows < 0 then 0 else rows)
    ensures Rectangular(grid, if columns < 0 then 0 else columns)
    ensures forall i, j :: 0 <= i < |grid| && 0 <= j < |grid[i]| ==> grid[i][j] == fill
  {
    var height := if rows < 0 then 0 else rows;
    var width := if columns < 0 then 0 else columns;
    grid := [];
    for i := 0 to height
      invariant |grid| == i && Rectangular(grid, width)
      invariant forall i', j :: 0 <= i' < |grid| && 0 <= j < |grid[i']| ==> grid[i'][j] == fill
    {
      var row := [];
      for j := 0 to width
        invariant |row| == j && forall j' :: 0 <= j' < j ==> row[j'] == fill
      {
        row := row + [fill];
      }
      grid := grid + [row];
    }
  }

  /** The map with cell c set to v. */
  function SetCell(cur: seq<seq<int>>, n: int, c: Cell, v: int): (r: seq<seq<int>>)
    requires Rectangular(cur, n) && InGrid(|cur|, n, c)
    ensures |r| == |cur| && Rectangular(r, n)
    ensures forall i, j :: 0 <= i < |cur| && 0 <= j < n ==> r[i][j] == if (i, j) == c then v else cur[i][j]
  {
    cur[c.0 := cur[c.0][c.1 := v]]
  }

  /** A path of side-sharing cells, each holding `original`. */
  ghost predicate RegionPath(g: seq<seq<int>>, n: int, original: int, path: seq<Cell>) {
    Rectangular(g, n) && |path| > 0 &&
    (forall k :: 0 <= k < |path| ==> InGrid(|g|, n, path[k]) && g[path[k].0][path[k].1] == original) &&
    (forall k :: 0 <= k < |path| - 1 ==> Adjacent(path[k], path[k + 1]))
  }

  /** c lies in the 4-connected region of `original` cells around start. */
  ghost predicate Connected(g: seq<seq<int>>, n: int, original: int, start: Cell, c: Cell) {
    exists path :: RegionPath(g, n, original, path) && path[0] == start && path[|path| - 1] == c
  }

  /** The start is in its own region. */
  lemma ConnectedStart(g: seq<seq<int>>, n: int, start: Cell)
    requires Rectangular(g, n) && InGrid(|g|, n, start)
    ensures Connected(g, n, g[start.0][start.1], start, start)
  {
    assert RegionPath(g, n, g[start.0][start.1], [start]);
  }

  /** A region cell's neighbour of the same material is in the region. */
  lemma ConnectedExtend(g: seq<seq<int>>, n: int, original: int, start: Cell, r: Cell, c: Cell)
    requires Connected(g, n, original, start, r)
    requires Adjacent(r, c) && InGrid(|g|, n, c) && g[c.0][c.1] == original
    ensures Connected(g, n, original, start, c)
  {
    var path :| RegionPath(g, n, original, path) && path[0] == start && path[|path| - 1] == r;
    var longer := path + [c];
    assert RegionPath(g, n, original, longer);
  }

  /** Every cell of a region holds the region's material. */
  lemma ConnectedHolds(g: seq<seq<int>>, n: int, original: int, start: Cell, c: Cell)
    requires Connected(g, n, original, start, c)
    ensures InGrid(|g|, n, c) && g[c.0][c.1] == original
  {
    var path :| RegionPath(g, n, original, path) && path[0] == start && path[|path| - 1] == c;
    assert path[|path| - 1] == c;
  }

  /** Every cell of the start's region already holds the start's
      material, so a fill with that material changes nothing. */
  lemma RegionHoldsStart(g: seq<seq<int>>, n: int, start: Cell)
    requires Rectangular(g, n) && InGrid(|g|, n, start)
    ensures forall i, j :: 0 <= i < |g| && 0 <= j < n ==>
      g[i][j] == if Connected(g, n, g[start.0][start.1], start, (i, j)) then g[start.0][start.1] else g[i][j]
  {
    forall i, j | 0 <= i < |g| && 0 <= j < n && Connected(g, n, g[start.0][start.1], start, (i, j))
      ensures g[i][j] == g[start.0][start.1]
    {
      ConnectedHolds(g, n, g[start.0][start.1], start, (i, j));
    }
  }

  /** The in-grid neighbours of c in an m x n map, in the order the fill
      pushes them: below, above, right, left. */
  function Neighbours(c: Cell, m: int, n: int): (r: seq<Cell>)
    ensures InGrid(m, n, c) ==> forall d :: d in r <==> InGrid(m, n, d) && Adjacent(c, d)
  {
    (if c.0 + 1 < m then [(c.0 + 1, c.1)] else []) +
    (if c.0 - 1 >= 0 then [(c.0 - 1, c.1)] else []) +
    (if c.1 + 1 < n then [(c.0, c.1 + 1)] else []) +
    (if c.1 - 1 >= 0 then [(c.0, c.1 - 1)] else [])
  }

  /** k copies of cell c: the cell that pushed each of k neighbours. */
  function Repeat(c: Cell, k: nat): (r: seq<Cell>)
    ensures |r| == k && forall i :: 0 <= i < k ==> r[i] == c
  {
    seq(k, _ => c)
  }

  /** The cells of `cur` that still hold `original`. */
  function Remaining(cur: seq<seq<int>>, n: int, original: int): set<Cell>
    requires Rectangular(cur, n)
  {
    set i, j | 0 <= i < |cur| && 0 <= j < n && cur[i][j] == original :: (i, j)
  }

  /* The flood fill's invariant, in five parts. `g` is the map before the
     fill, `cur` the map now, `stack` the cells still to visit and
     `parents` the region cell that pushed each of them. */

  /** Both maps are m x n, the start is a cell of the original material
      and every stacked cell is in the map. */
  ghost predicate FillShape(g: seq<seq<int>>, cur: seq<seq<int>>, n: int, original: int, material: int,
                            start: Cell, stack: seq<Cell>, parents: seq<Cell>) {
    |cur| == |g| && Rectangular(g, n) && Rectangular(cur, n) && original != material &&
    InGrid(|g|, n, start) && g[start.0][start.1] == original && |parents| == |stack| &&
    forall k :: 0 <= k < |stack| ==> InGrid(|g|, n, stack[k])
  }

  /** Every changed cell is a region cell that now holds the material. */
  ghost predicate OnlyRegionChanged(g: seq<seq<int>>, cur: seq<seq<int>>, n: int, original: int, material: int,
                                    start: Cell)
    requires |cur| == |g| && Rectangular(g, n) && Rectangular(cur, n)
  {
    forall i, j :: 0 <= i < |g| && 0 <= j < n ==>
      cur[i][j] == g[i][j] || (cur[i][j] == material && Connected(g, n, original, start, (i, j)))
  }

  /** Every stacked cell is the start or was pushed by a region cell. */
  ghost predicate StackFromRegion(g: seq<seq<int>>, n: int, original: int, start: Cell,
                                  stack: seq<Cell>, parents: seq<Cell>)
    requires |parents| == |stack|
  {
    forall k :: 0 <= k < |stack| ==>
      stack[k] == start || (Adjacent(parents[k], stack[k]) && Connected(g, n, original, start, parents[k]))
  }

  /** Every neighbour of cell c still of the original material is
      stacked. */
  ghost predicate Covered(cur: seq<seq<int>>, n: int, stack: seq<Cell>, original: int, c: Cell)
    requires Rectangular(cur, n) && InGrid(|cur|, n, c)
  {
    forall d :: d in Neighbours(c, |cur|, n) ==> cur[d.0][d.1] != original || d in stack
  }

  /** Every recoloured cell has its pending neighbours stacked. */
  ghost predicate Closed(g: seq<seq<int>>, cur: seq<seq<int>>, n: int, original: int, material: int, stack: seq<Cell>)
    requires |cur| == |g| && Rectangular(g, n) && Rectangular(cur, n)
  {
    forall i, j :: 0 <= i < |g| && 0 <= j < n && g[i][j] == original && cur[i][j] == material ==>
      Covered(cur, n, stack, original, (i, j))
  }

  ghost predicate FloodInv(g: seq<seq<int>>, cur: seq<seq<int>>, n: int, original: int, material: int,
                           start: Cell, stack: seq<Cell>, parents: seq<Cell>) {
    FillShape(g, cur, n, original, material, start, stack, parents) &&
    OnlyRegionChanged(g, cur, n, original, material, start) &&
    StackFromRegion(g, n, original, start, stack, parents) &&
    Closed(g, cur, n, original, material, stack) &&
    (cur[start.0][start.1] != original || start in stack)
  }

  /** Before the first pop, only the start is stacked and nothing has
      changed. */
  lemma FloodStart(g: seq<seq<int>>, n: int, material: int, start: Cell)
    requires Rectangular(g, n) && InGrid(|g|, n, start) && g[start.0][start.1] != material
    ensures FloodInv(g, g, n, g[start.0][start.1], material, start, [start], [start])
  {
  }

  /** Popping a cell that no longer holds the original material keeps the
      invariant. */
  lemma SkipStep(g: seq<seq<int>>, cur: seq<seq<int>>, n: int, original: int, material: int,
                 start: Cell, stack: seq<Cell>, parents: seq<Cell>)
    requires FloodInv(g, cur, n, original, material, start, stack, parents) && |stack| > 0
    requires cur[stack[|stack| - 1].0][stack[|stack| - 1].1] != original
    ensures FloodInv(g, cur, n, original, material, start, stack[..|stack| - 1], parents[..|parents| - 1])
  {
    var c := stack[|stack| - 1];
    var popped := stack[..|stack| - 1];
    assert stack == popped + [c];
    forall i, j | 0 <= i < |g| && 0 <= j < n && g[i][j] == original && cur[i][j] == material
      ensures Covered(cur, n, popped, original, (i, j))
    {
      assert Covered(cur, n, stack, original, (i, j));
    }
  }

  /** Recolouring a region cell changes only a region cell. */
  lemma RecolourChanged(g: seq<seq<int>>, cur: seq<seq<int>>, n: int, original: int, material: int,
                        start: Cell, c: Cell)
    requires |cur| == |g| && Rectangular(g, n) && Rectangular(cur, n) && InGrid(|g|, n, c)
    requires OnlyRegionChanged(g, cur, n, original, material, start)
    requires Connected(g, n, original, start, c)
    ensures OnlyRegionChanged(g, SetCell(cur, n, c, material), n, original, material, start)
  {
  }

  /** The cells pushed from a region cell keep the stack's invariant. */
  lemma RecolourStack(g: seq<seq<int>>, n: int, original: int, start: Cell,
                      stack: seq<Cell>, parents: seq<Cell>, c: Cell, next: seq<Cell>)
    requires |parents| == |stack| && |stack| > 0
    requires StackFromRegion(g, n, original, start, stack, parents)
    requires Connected(g, n, original, start, c)
    requires forall d :: d in next ==> Adjacent(c, d)
    ensures StackFromRegion(g, n, original, start, stack[..|stack| - 1] + next,
                            parents[..|parents| - 1] + Repeat(c, |next|))
  {
    var stack' := stack[..|stack| - 1] + next;
    var parents' := parents[..|parents| - 1] + Repeat(c, |next|);
    forall k | 0 <= k < |stack'|
      ensures stack'[k] == start || (Adjacent(parents'[k], stack'[k]) && Connected(g, n, original, start, parents'[k]))
    {
      if k >= |stack| - 1 {
        assert stack'[k] == next[k - (|stack| - 1)] && parents'[k] == c;
      } else {
        assert stack'[k] == stack[k] && parents'[k] == parents[k];
      }
    }
  }

  /** Recolouring the popped cell and pushing its neighbours keeps every
      recoloured cell's pending neighbours stacked. */
  lemma RecolourClosed(g: seq<seq<int>>, cur: seq<seq<int>>, n: int, original: int, material: int,
                       stack: seq<Cell>)
    requires |cur| == |g| && Rectangular(g, n) && Rectangular(cur, n) && original != material && |stack| > 0
    requires InGrid(|g|, n, stack[|stack| - 1])
    requires Closed(g, cur, n, original, material, stack)
    ensures var c := stack[|stack| - 1];
      Closed(g, SetCell(cur, n, c, material), n, original, material, stack[..|stack| - 1] + Neighbours(c, |g|, n))
  {
    var c := stack[|stack| - 1];
    var popped := stack[..|stack| - 1];
    assert stack == popped + [c];
    var cur' := SetCell(cur, n, c, material);
    var stack' := popped + Neighbours(c, |g|, n);
    forall i, j | 0 <= i < |g| && 0 <= j < n && g[i][j] == original && cur'[i][j] == material
      ensures Covered(cur', n, stack', original, (i, j))
    {
      if (i, j) != c {
        assert Covered(cur, n, stack, original, (i, j));
        forall d | d in Neighbours((i, j), |cur'|, n)
          ensures cur'[d.0][d.1] != original || d in stack'
        {
          if d != c && cur[d.0][d.1] == original {
            assert d in stack;
          }
        }
      }
    }
  }

  /** A popped cell that still holds the original material is in the
      region: it is the start or a neighbour of a region cell. */
  lemma PoppedConnected(g: seq<seq<int>>, cur: seq<seq<int>>, n: int, original: int, material: int,
                        start: Cell, stack: seq<Cell>, parents: seq<Cell>)
    requires FillShape(g, cur, n, original, material, start, stack, parents) && |stack| > 0
    requires OnlyRegionChanged(g, cur, n, original, material, start)
    requires StackFromRegion(g, n, original, start, stack, parents)
    requires cur[stack[|stack| - 1].0][stack[|stack| - 1].1] == original
    ensures Connected(g, n, original, start, stack[|stack| - 1])
  {
    var c := stack[|stack| - 1];
    assert g[c.0][c.1] == original;
    if c == start {
      ConnectedStart(g, n, start);
    } else {
      ConnectedExtend(g, n, original, start, parents[|stack| - 1], c);
    }
  }

  /** Recolouring the popped cell and pushing its neighbours keeps the
      shape, and leaves the start recoloured or stacked. */
  lemma RecolourShape(g: seq<seq<int>>, cur: seq<seq<int>>, n: int, original: int, material: int,
                      start: Cell, stack: seq<Cell>, parents: seq<Cell>)
    requires FillShape(g, cur, n, original, material, start, stack, parents) && |stack| > 0
    requires cur[start.0][start.1] != original || start in stack
    ensures var c := stack[|stack| - 1];
      var next := Neighbours(c, |g|, n);
      var cur' := SetCell(cur, n, c, material);
      var stack' := stack[..|stack| - 1] + next;
      FillShape(g, cur', n, original, material, start, stack', parents[..|parents| - 1] + Repeat(c, |next|)) &&
      (cur'[start.0][start.1] != original || start in stack')
  {
    var c := stack[|stack| - 1];
    if start != c && cur[start.0][start.1] == original {
      assert stack == stack[..|stack| - 1] + [c];
    }
  }

  /** Popping a cell that still holds the original material, recolouring
      it and pushing its neighbours keeps the invariant. */
  lemma RecolourStep(g: seq<seq<int>>, cur: seq<seq<int>>, n: int, original: int, material: int,
                     start: Cell, stack: seq<Cell>, parents: seq<Cell>)
    requires FloodInv(g, cur, n, original, material, start, stack, parents) && |stack| > 0
    requires cur[stack[|stack| - 1].0][stack[|stack| - 1].1] == original
    ensures var c := stack[|stack| - 1];
      var next := Neighbours(c, |g|, n);
      FloodInv(g, SetCell(cur, n, c, material), n, original, material, start,
               stack[..|stack| - 1] + next, parents[..|parents| - 1] + Repeat(c, |next|))
  {
    var c := stack[|stack| - 1];
    PoppedConnected(g, cur, n, original, material, start, stack, parents);
    RecolourChanged(g, cur, n, original, material, start, c);
    RecolourStack(g, n, original, start, stack, parents, c, Neighbours(c, |g|, n));
    RecolourClosed(g, cur, n, original, material, stack);
    RecolourShape(g, cur, n, original, material, start, stack, parents);
  }

  /** Walking along a region path from the start, every cell is
      recoloured once the stack is empty. */
  lemma {:induction false} RegionRecoloured(g: seq<seq<int>>, cur: seq<seq<int>>, n: int, original: int, material: int,
                                            start: Cell, path: seq<Cell>, k: nat)
    requires FloodInv(g, cur, n, original, material, start, [], [])
    requires RegionPath(g, n, original, path) && path[0] == start && k < |path|
    ensures cur[path[k].0][path[k].1] == material
  {
    if k > 0 {
      RegionRecoloured(g, cur, n, original, material, start, path, k - 1);
      var r, c := path[k - 1], path[k];
      assert Covered(cur, n, [], original, r);
      assert c in Neighbours(r, |g|, n);
    }
  }

  /** When the stack is empty the fill is complete: every region cell
      holds the material and every other cell its old value. */
  lemma FloodDone(g: seq<seq<int>>, cur: seq<seq<int>>, n: int, original: int, material: int, start: Cell)
    requires FloodInv(g, cur, n, original, material, start, [], [])
    ensures forall i, j :: 0 <= i < |g| && 0 <= j < n ==>
      cur[i][j] == if Connected(g, n, original, start, (i, j)) then material else g[i][j]
  {
    forall i, j | 0 <= i < |g| && 0 <= j < n && Connected(g, n, original, start, (i, j))
      ensures cur[i][j] == material
    {
      var path :| RegionPath(g, n, original, path) && path[0] == start && path[|path| - 1] == (i, j);
      RegionRecoloured(g, cur, n, original, material, start, path, |path| - 1);
    }
  }

  /** The depth-first flood fill of _fill__regions from the cell `start`,
      which does not hold the material yet: exactly the 4-connected region
      of the start cell's material takes the new material, and every other
      cell keeps its own. */
  /** The map after a fill from an in-grid start: the start cell's region,
      the cells joined to it through cells of its value, holds the
      material, and every other cell is as it was. */
  ghost function Filled(g: seq<seq<int>>, n: int, start: Cell, material: int): (r: seq<seq<int>>)
    requires Rectangular(g, n) && InGrid(|g|, n, start)
    ensures |r| == |g| && Rectangular(r, n)
    ensures forall i, j :: 0 <= i < |g| && 0 <= j < n ==>
      r[i][j] == if Connected(g, n, g[start.0][start.1], start, (i, j)) then material else g[i][j]
  {
    seq(|g|, i requires 0 <= i < |g| =>
      seq(n, j requires 0 <= j < n => if Connected(g, n, g[start.0][start.1], start, (i, j)) then material else g[i][j]))
  }

  /** The fill from an in-grid start: nothing to do when the start already
      holds the material, a flood otherwise. */
  method FillFrom(grid: seq<seq<int>>, n: int, start: Cell, material: int) returns (filled: seq<seq<int>>)
    requires Rectangular(grid, n) && InGrid(|grid|, n, start)
    ensures filled == Filled(grid, n, start, material)
  {
    var expected := Filled(grid, n, start, material);
    if grid[start.0][start.1] == material {
      RegionHoldsStart(grid, n, start);
      filled := grid;
    } else {
      filled := Flood(grid, n, start, material);
    }
    forall i | 0 <= i < |grid| ensures filled[i] == expected[i] {
      assert |filled[i]| == |expected[i]| == n;
    }
  }

  method Flood(grid: seq<seq<int>>, n: int, start: Cell, material: int) returns (filled: seq<seq<int>>)
    requires Rectangular(grid, n) && InGrid(|grid|, n, start) && grid[start.0][start.1] != material
    ensures |filled| == |grid| && Rectangular(filled, n)
    ensures forall i, j :: 0 <= i < |grid| && 0 <= j < n ==>
      filled[i][j] == if Connected(grid, n, grid[start.0][start.1], start, (i, j)) then material else grid[i][j]
  {
    var original := grid[start.0][start.1];
    var m := |grid|;
    filled := grid;
    var stack := [start];
    ghost var parents: seq<Cell> := [start];
    FloodStart(grid, n, material, start);
    while |stack| > 0
      invariant FloodInv(grid, filled, n, original, material, start, stack, parents)
      decreases Remaining(filled, n, original), |stack|
    {
      var c := stack[|stack| - 1];
      if filled[c.0][c.1] == original {
        RecolourStep(grid, filled, n, original, material, start, stack, parents);
        assert c in Remaining(filled, n, original);
        var next := Neighbours(c, m, n);
        filled := SetCell(filled, n, c, material);
        stack := stack[..|stack| - 1] + next;
        parents := parents[..|parents| - 1] + Repeat(c, |next|);
      } else {
        SkipStep(grid, filled, n, original, material, start, stack, parents);
        stack := stack[..|stack| - 1];
        parents := parents[..|parents| - 1];
      }
    }
    FloodDone(grid, filled, n, original, material, start);
  }

  /** The fill recolours its start and never changes a cell of another
      material. */
  lemma FloodKeepsOtherMaterials(grid: seq<seq<int>>, n: int, start: Cell, material: int, filled: seq<seq<int>>)
    requires Rectangular(grid, n) && InGrid(|grid|, n, start) && grid[start.0][start.1] != material
    requires |filled| == |grid| && Rectangular(filled, n)
    requires forall i, j :: 0 <= i < |grid| && 0 <= j < n ==>
      filled[i][j] == if Connected(grid, n, grid[start.0][start.1], start, (i, j)) then material else grid[i][j]
    ensures filled[start.0][start.1] == material
    ensures forall i, j :: 0 <= i < |grid| && 0 <= j < n && grid[i][j] != grid[start.0][start.1] ==>
      filled[i][j] == grid[i][j]
  {
    ConnectedStart(grid, n, start);
    forall i, j | 0 <= i < |grid| && 0 <= j < n && grid[i][j] != grid[start.0][start.1]
      ensures filled[i][j] == grid[i][j]
    {
      if Connected(grid, n, grid[start.0][start.1], start, (i, j)) {
        ConnectedHolds(grid, n, grid[start.0][start.1], start, (i, j));
      }
    }
  }

  /** The neighbour (vx + d.0, vy + d.1) is in the map and holds the
      ambient index. */
  predicate AmbientAt(grid: seq<seq<int>>, n: int, vx: int, vy: int, d: (int, int), ambient: int)
    requires Rectangular(grid, n)
  {
    0 <= vx + d.0 < n && 0 <= vy + d.1 < |grid| && grid[vy + d.1][vx + d.0] == ambient
  }

  /** One of the four neighbours left, right, above and below holds the
      ambient index. */
  predicate NextToAmbient(grid: seq<seq<int>>, n: int, vx: int, vy: int, ambient: int)
    requires Rectangular(grid, n)
  {
    AmbientAt(grid, n, vx, vy, (-1, 0), ambient) || AmbientAt(grid, n, vx, vy, (1, 0), ambient) ||
    AmbientAt(grid, n, vx, vy, (0, -1), ambient) || AmbientAt(grid, n, vx, vy, (0, 1), ambient)
  }

  /** The neighbour loop of find_boundary_segments, stopping at the first
      neighbour that holds the ambient index. */
  method HasAmbientNeighbour(grid: seq<seq<int>>, n: int, vx: int, vy: int, ambient: int) returns (adjacent: bool)
    requires Rectangular(grid, n)
    ensures adjacent == NextToAmbient(grid, n, vx, vy, ambient)
  {
    var offsets := [(-1, 0), (1, 0), (0, -1), (0, 1)];
    for d := 0 to 4
      invariant forall e :: 0 <= e < d ==> !AmbientAt(grid, n, vx, vy, offsets[e], ambient)
    {
      var (dx, dy) := offsets[d];
      var nx, ny := vx + dx, vy + dy;
      if 0 <= nx < n && 0 <= ny < |grid| && grid[ny][nx] == ambient {
        assert AmbientAt(grid, n, vx, vy, offsets[d], ambient);
        return true;
      }
    }
    assert !AmbientAt(grid, n, vx, vy, offsets[0], ambient) && !AmbientAt(grid, n, vx, vy, offsets[1], ambient);
    assert !AmbientAt(grid, n, vx, vy, offsets[2], ambient) && !AmbientAt(grid, n, vx, vy, offsets[3], ambient);
    return false;
  }

  /** The voxel index of a coordinate: scaled, shifted and rounded. */
  function VoxelIndex(scale: int, v: real, offset: int): (r: int)
    ensures -0.5 <= r as real - (scale as real * v + offset as real) <= 0.5
  {
    Numbers.RoundHalfEven(scale as real * v + offset as real)
  }

  /** A point is kept when its voxel is in the map and one of its four
      neighbours holds the ambient index. */
  predicate KeepsPoint(grid: seq<seq<int>>, n: int, scale: int, shift: (int, int), p: Point, ambient: int)
    requires Rectangular(grid, n)
  {
    var (vx, vy) := (VoxelIndex(scale, p.0, shift.0), VoxelIndex(scale, p.1, shift.1));
    0 <= vx < n && 0 <= vy < |grid| && NextToAmbient(grid, n, vx, vy, ambient)
  }

  /** The points of one connector that are kept, in their order. */
  function BoundaryPoints(grid: seq<seq<int>>, n: int, scale: int, shift: (int, int), points: seq<Point>, ambient: int)
    : seq<Point>
    requires Rectangular(grid, n)
  {
    if |points| == 0 then []
    else
      var init := BoundaryPoints(grid, n, scale, shift, points[..|points| - 1], ambient);
      if KeepsPoint(grid, n, scale, shift, points[|points| - 1], ambient) then init + [points[|points| - 1]] else init
  }

  /** The kept points are exactly the input points that pass, in their
      order: keeping everything keeps the input, and no point is made up. */
  lemma {:induction false} BoundaryPointsMembers(grid: seq<seq<int>>, n: int, scale: int, shift: (int, int),
                                                 points: seq<Point>, ambient: int)
    requires Rectangular(grid, n)
    ensures forall p :: p in BoundaryPoints(grid, n, scale, shift, points, ambient) <==>
      p in points && KeepsPoint(grid, n, scale, shift, p, ambient)
    ensures |BoundaryPoints(grid, n, scale, shift, points, ambient)| <= |points|
    ensures (forall k :: 0 <= k < |points| ==> KeepsPoint(grid, n, scale, shift, points[k], ambient)) ==>
      BoundaryPoints(grid, n, scale, shift, points, ambient) == points
  {
    if |points| > 0 {
      var init := points[..|points| - 1];
      BoundaryPointsMembers(grid, n, scale, shift, init, ambient);
      assert points == init + [points[|points| - 1]];
    }
  }

  /** A point whose voxel column lies outside the map is never kept. */
  lemma OutsidePointDropped(grid: seq<seq<int>>, n: int, scale: int, shift: (int, int), p: Point, ambient: int)
    requires Rectangular(grid, n)
    requires scale as real * p.0 + shift.0 as real < -0.5 || scale as real * p.0 + shift.0 as real > n as real - 0.5
    ensures !KeepsPoint(grid, n, scale, shift, p, ambient)
  {
  }

  /** The loop over one connector's points. */
  method FilterPoints(grid: seq<seq<int>>, n: int, scale: int, shift: (int, int), points: seq<Point>, ambient: int)
    returns (kept: seq<Point>)
    requires Rectangular(grid, n)
    ensures kept == BoundaryPoints(grid, n, scale, shift, points, ambient)
  {
    kept := [];
    for k := 0 to |points|
      invariant kept == BoundaryPoints(grid, n, scale, shift, points[..k], ambient)
    {
      assert points[..k + 1][..k] == points[..k];
      var vx, vy := VoxelIndex(scale, points[k].0, shift.0), VoxelIndex(scale, points[k].1, shift.1);
      if 0 <= vx < n && 0 <= vy < |grid| {
        var adjacent := HasAmbientNeighbour(grid, n, vx, vy, ambient);
        if adjacent {
          kept := kept + [points[k]];
        }
      }
    }
    assert points[..|points|] == points;
  }

  /** find_boundary_segments as a value: an empty map raises IndexError,
      an unknown ambient material KeyError; otherwise every connector type
      keeps its place, with its kept points. */
  function BoundaryOf(grid: seq<seq<int>>, n: int, scale: int, shift: (int, int), materials: map<string, int>,
                      connectors: seq<(Connector, seq<Point>)>, ambientMaterial: string)
    : (r: Result<seq<(Connector, seq<Point>)>>)
    requires Rectangular(grid, n)
    ensures r.Err? <==> |grid| == 0 || ambientMaterial !in materials
    ensures r.Err? ==> r.error == if |grid| == 0 then IndexError else KeyError
    ensures r.Ok? ==> |r.value| == |connectors|
    ensures r.Ok? ==> forall k :: 0 <= k < |connectors| ==>
      r.value[k] == (connectors[k].0, BoundaryPoints(grid, n, scale, shift, connectors[k].1, materials[ambientMaterial]))
  {
    if |grid| == 0 then Err(IndexError)
    else if ambientMaterial !in materials then Err(KeyError)
    else
      var ambient := materials[ambientMaterial];
      Ok(seq(|connectors|, k requires 0 <= k < |connectors| =>
        (connectors[k].0, BoundaryPoints(grid, n, scale, shift, connectors[k].1, ambient))))
  }

  /** The material indices are 0 .. n-1 for n materials, each used once. */
  predicate Indexed(materials: map<string, int>) {
    (forall k :: k in materials ==> 0 <= materials[k] < |materials|) &&
    (forall k, l :: k in materials && l in materials && k != l ==> materials[k] != materials[l])
  }

  /** The registration at the start of draw: a material seen for the first
      time gets the next index, one already known keeps its own. */
  function WithMaterial(materials: map<string, int>, name: string): (r: map<string, int>)
    ensures name in r && forall k :: k in materials ==> k in r && r[k] == materials[k]
    ensures forall k :: k in r ==> k in materials || k == name
    ensures name !in materials ==> r[name] == |materials| && |r| == |materials| + 1
  {
    if name in materials then materials else materials[name := |materials|]
  }

  /** Registering a material keeps the indices dense and distinct, so the
      new material's index is one no other material has. */
  lemma WithMaterialIndexed(materials: map<string, int>, name: string)
    requires Indexed(materials)
    ensures Indexed(WithMaterial(materials, name))
  {
    if name !in materials {
      var r := WithMaterial(materials, name);
      forall k | k in r ensures 0 <= r[k] < |r| {
        if k != name {
          assert r[k] == materials[k];
        }
      }
    }
  }

  /** The ambient material alone, at index 0, is indexed. */
  lemma AmbientIndexed(ambient: string)
    ensures Indexed(map[ambient := 0])
  {
    assert |map[ambient := 0]| == 1 by {
      assert map[ambient := 0].Keys == {ambient};
    }
  }

  /** Visualize: the window, the material indices and the voxel map. */
  class Visualizer {
    var scale: int
    var window: (int, int)
    var materials: map<string, int>
    var simType: SimulationType
    var ambientMaterial: string
    var shift: (int, int)
    var voxelMap: seq<seq<int>>

    /** The number of columns of the map: the window's width. */
    function Width(): int
      reads this
    {
      if window.0 < 0 then 0 else window.0
    }

    predicate Valid()
      reads this
    {
      ambientMaterial in materials && Rectangular(voxelMap, Width())
    }

    /** __init__: the window is the size times the scale, the ambient
      material gets index 0 and the map is empty. */
    constructor (xSize: int, ySize: int, ambientMaterial: string, simType: SimulationType, scale: int)
      ensures Valid()
      ensures this.scale == scale && window == (xSize * scale, ySize * scale)
      ensures materials == map[ambientMaterial := 0] && this.ambientMaterial == ambientMaterial
      ensures this.simType == simType && shift == ShiftOf(simType, window)
      ensures voxelMap == []
    {
      this.scale := scale;
      window := (xSize * scale, ySize * scale);
      this.simType := simType;
      voxelMap := [];
      var x, y := 0, 0;
      if simType == Planar {
        x := (xSize * scale) / 2;
        y := (ySize * scale) / 2;
      }
      this.ambientMaterial := ambientMaterial;
      materials := map[ambientMaterial := 0];
      shift := (x, y);
    }

    /** initalize_map: window[1] rows of window[0] cells, every one the
      ambient material. */
    method InitializeMap()
      requires Valid()
      modifies this
      ensures Valid()
      ensures scale == old(scale) && window == old(window) && materials == old(materials)
      ensures simType == old(simType) && ambientMaterial == old(ambientMaterial) && shift == old(shift)
      ensures |voxelMap| == (if window.1 < 0 then 0 else window.1) && Rectangular(voxelMap, Width())
      ensures forall i, j :: 0 <= i < |voxelMap| && 0 <= j < |voxelMap[i]| ==>
        voxelMap[i][j] == materials[ambientMaterial]
    {
      voxelMap := BlankMap(window.1, window.0, materials[ambientMaterial]);
    }

    /** The first lines of draw: the material's index, registered when the
      material is new. */
    method AddMaterial(name: string) returns (index: int)
      requires Valid()
      modifies this
      ensures Valid() && voxelMap == old(voxelMap)
      ensures scale == old(scale) && window == old(window) && shift == old(shift)
      ensures simType == old(simType) && ambientMaterial == old(ambientMaterial)
      ensures materials == WithMaterial(old(materials), name) && index == materials[name]
    {
      if name !in materials {
        materials := materials[name := |materials|];
      }
      index := materials[name];
    }

    /** _set_points: exactly one cell, at the shifted coordinate, takes the
      material; a coordinate outside the map raises IndexError and changes
      nothing. */
    method SetPoint(coord: (int, int), material: int) returns (r: Outcome)
      requires Valid()
      modifies this
      ensures Valid() && |voxelMap| == |old(voxelMap)|
      ensures scale == old(scale) && window == old(window) && materials == old(materials)
      ensures simType == old(simType) && ambientMaterial == old(ambientMaterial) && shift == old(shift)
      ensures var (x, y) := (coord.0 + shift.0, coord.1 + shift.1);
        r.Pass? <==> 0 <= y < |voxelMap| && 0 <= x < Width()
      ensures r.Fail? ==> r.error == IndexError
      ensures forall i, j :: 0 <= i < |voxelMap| && 0 <= j < Width() ==>
        voxelMap[i][j] == if r.Pass? && (i, j) == (coord.1 + shift.1, coord.0 + shift.0) then material
                          else old(voxelMap)[i][j]
    {
      var x, y := coord.0 + shift.0, coord.1 + shift.1;
      if !(0 <= y < |voxelMap| && 0 <= x < Width()) {
        return Fail(IndexError);
      }
      voxelMap := SetCell(voxelMap, Width(), (y, x), material);
      return Pass;
    }

    /** _fill__regions: a start outside the map raises IndexError; a start
      that already holds the material changes nothing; otherwise exactly the
      4-connected region of the start cell's material takes the material. */
    method FillRegions(centroid: (int, int), material: int) returns (r: Outcome)
      requires Valid()
      modifies this
      ensures Valid() && |voxelMap| == |old(voxelMap)|
      ensures scale == old(scale) && window == old(window) && materials == old(materials)
      ensures simType == old(simType) && ambientMaterial == old(ambientMaterial) && shift == old(shift)
      ensures r.Pass? <==> InGrid(|voxelMap|, Width(), (centroid.1 + shift.1, centroid.0 + shift.0))
      ensures r.Fail? ==> r.error == IndexError && voxelMap == old(voxelMap)
      ensures r.Pass? ==> voxelMap == Filled(old(voxelMap), Width(), (centroid.1 + shift.1, centroid.0 + shift.0), material)
    {
      var start := (centroid.1 + shift.1, centroid.0 + shift.0);
      var grid, n := voxelMap, Width();
      if !InGrid(|grid|, n, start) {
        return Fail(IndexError);
      }
      voxelMap := FillFrom(grid, n, start, material);
      assert Width() == n;
      return Pass;
    }

    /** find_boundary_segments */
    method FindBoundarySegments(connectors: seq<(Connector, seq<Point>)>, ambientMaterial: string)
      returns (r: Result<seq<(Connector, seq<Point>)>>)
      requires Valid()
      ensures r == BoundaryOf(voxelMap, Width(), scale, shift, materials, connectors, ambientMaterial)
    {
      if |voxelMap| == 0 {
        return Err(IndexError);
      }
      if ambientMaterial !in materials {
        return Err(KeyError);
      }
      var ambient := materials[ambientMaterial];
      var grid, n := voxelMap, Width();
      ghost var expected := BoundaryOf(grid, n, scale, shift, materials, connectors, ambientMaterial).value;
      var filtered := [];
      for k := 0 to |connectors|
        invariant |filtered| == k
        invariant forall i :: 0 <= i < k ==> filtered[i] == expected[i]
      {
        var kept := FilterPoints(grid, n, scale, shift, connectors[k].1, ambient);
        filtered := filtered + [(connectors[k].0, kept)];
      }
      assert filtered == expected;
      return Ok(filtered);
    }
  }
}
