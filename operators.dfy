/** draw_line of blueshark/addons/topology/operators.py: Bresenham's line
    algorithm on a topology map, whose rows are indexed by y and columns by
    x. */
module Operators {
  import opened Wrappers
  import Numbers

  /** A cell of the line as (x, y). */
  type Cell = (int, int)

  /** The constants of one line: its end, the extents dx >= 0 and dy <= 0
      as the source keeps them, and the step direction on each axis. */
  datatype Line = Line(x1: int, y1: int, dx: int, dy: int, sx: int, sy: int)

  function LineOf(x0: int, y0: int, x1: int, y1: int): (l: Line)
    ensures l.dx == Numbers.IAbs(x1 - x0) && l.dy == -Numbers.IAbs(y1 - y0)
    ensures (l.sx == 1 <==> x0 < x1) && (l.sx == -1 <==> x0 >= x1)
    ensures (l.sy == 1 <==> y0 < y1) && (l.sy == -1 <==> y0 >= y1)
  {
    Line(x1, y1, Numbers.IAbs(x1 - x0), -Numbers.IAbs(y1 - y0), if x0 < x1 then 1 else -1, if y0 < y1 then 1 else -1)
  }

  /** How far x still is from the end, counted in the step direction. */
  function XLeft(l: Line, x: int): int {
    if l.sx == 1 then l.x1 - x else x - l.x1
  }

  function YLeft(l: Line, y: int): int {
    if l.sy == 1 then l.y1 - y else y - l.y1
  }

  /** Bresenham's invariant: neither coordinate has passed the end, and the
      error term is the one the steps so far leave behind. */
  predicate OnCourse(l: Line, x: int, y: int, err: int) {
    (l.sx == 1 || l.sx == -1) && (l.sy == 1 || l.sy == -1) &&
    0 <= XLeft(l, x) <= l.dx && 0 <= YLeft(l, y) <= -l.dy &&
    err == l.dx + l.dy - l.dy * XLeft(l, x) - l.dx * YLeft(l, y)
  }

  /** One pass of the loop body after the end test: both tests use the
      doubled error from before either update. */
  function Step(l: Line, x: int, y: int, err: int): (int, int, int) {
    var e2 := 2 * err;
    var (x', err') := if e2 >= l.dy then (x + l.sx, err + l.dy) else (x, err);
    if e2 <= l.dx then (x', y + l.sy, err' + l.dx) else (x', y, err')
  }

  /** On the end column, a step in x would need 2 * err >= dy, which the
      error term rules out while rows remain. */
  lemma NoOvershootX(dx: int, dy: int, y: int)
    requires dx >= 0 && -dy >= y >= 1
    ensures 2 * (dx + dy - dx * y) < dy
  {
    assert dx * y >= dx * 1;
  }

  /** On the end row, a step in y would need 2 * err <= dx, which the
      error term rules out while columns remain. */
  lemma NoOvershootY(dx: int, dy: int, x: int)
    requires dx >= x >= 1 && dy <= 0
    ensures 2 * (dx + dy - dy * x) > dx
  {
    assert -dy * x >= -dy * 1;
  }

  /** The error term after a step, from the one before it. */
  lemma ErrorAfterStep(dx: int, dy: int, x: int, y: int, stepX: bool, stepY: bool)
    ensures var x' := if stepX then x - 1 else x;
      var y' := if stepY then y - 1 else y;
      dx + dy - dy * x - dx * y + (if stepX then dy else 0) + (if stepY then dx else 0) ==
      dx + dy - dy * x' - dx * y'
  {
    var x' := if stepX then x - 1 else x;
    var y' := if stepY then y - 1 else y;
    assert dy * x' == dy * x - (if stepX then dy else 0);
    assert dx * y' == dx * y - (if stepY then dx else 0);
  }

  /** The start is on course with the source's initial error dx + dy. */
  lemma {:induction false} LineStarts(x0: int, y0: int, x1: int, y1: int)
    ensures var l := LineOf(x0, y0, x1, y1);
      XLeft(l, x0) == l.dx && YLeft(l, y0) == -l.dy && OnCourse(l, x0, y0, l.dx + l.dy)
  {
    var l := LineOf(x0, y0, x1, y1);
    assert XLeft(l, x0) == l.dx && YLeft(l, y0) == -l.dy;
    assert l.dy * l.dx == l.dx * l.dy;
  }

  /** A step away from the end keeps the walker on course, moves each
      coordinate by at most one cell toward the end and brings it strictly
      closer. */
  lemma {:induction false} StepKeepsCourse(l: Line, x: int, y: int, err: int)
    requires OnCourse(l, x, y, err) && (x != l.x1 || y != l.y1)
    ensures var (x', y', err') := Step(l, x, y, err);
      OnCourse(l, x', y', err') &&
      (x' == x || x' == x + l.sx) && (y' == y || y' == y + l.sy) && (x', y') != (x, y) &&
      XLeft(l, x') + YLeft(l, y') < XLeft(l, x) + YLeft(l, y)
  {
    var X, Y := XLeft(l, x), YLeft(l, y);
    var stepX, stepY := 2 * err >= l.dy, 2 * err <= l.dx;
    assert X == 0 ==> !stepX by {
      if X == 0 {
        assert err == l.dx + l.dy - l.dx * Y;
        NoOvershootX(l.dx, l.dy, Y);
      }
    }
    assert Y == 0 ==> !stepY by {
      if Y == 0 {
        assert err == l.dx + l.dy - l.dy * X;
        NoOvershootY(l.dx, l.dy, X);
      }
    }
    var (x', y', err') := Step(l, x, y, err);
    var X' := if stepX then X - 1 else X;
    var Y' := if stepY then Y - 1 else Y;
    assert XLeft(l, x') == X' && YLeft(l, y') == Y';
    assert err' == err + (if stepX then l.dy else 0) + (if stepY then l.dx else 0);
    ErrorAfterStep(l.dx, l.dy, X, Y, stepX, stepY);
  }

  /** The cells the loop visits from (x, y) on, ending at the line's end. */
  function Trace(l: Line, x: int, y: int, err: int): seq<Cell>
    requires OnCourse(l, x, y, err)
    decreases XLeft(l, x) + YLeft(l, y)
  {
    if x == l.x1 && y == l.y1 then [(x, y)]
    else
      StepKeepsCourse(l, x, y, err);
      var (x', y', err') := Step(l, x, y, err);
      [(x, y)] + Trace(l, x', y', err')
  }

  /** The cells of the line from `start` to `end`, both truncated to
      integers as `int` does. */
  function LineTrace(start: (real, real), end: (real, real)): seq<Cell> {
    var (x0, y0) := (Numbers.Trunc(start.0), Numbers.Trunc(start.1));
    var (x1, y1) := (Numbers.Trunc(end.0), Numbers.Trunc(end.1));
    LineStarts(x0, y0, x1, y1);
    var l := LineOf(x0, y0, x1, y1);
    Trace(l, x0, y0, l.dx + l.dy)
  }

  /** The walker moves to the next cell by at most one step on each axis,
      toward the end, and never stands still. */
  predicate StepToward(l: Line, c: Cell, d: Cell) {
    (d.0 == c.0 || d.0 == c.0 + l.sx) && (d.1 == c.1 || d.1 == c.1 + l.sy) && d != c
  }

  /** The trace starts at the walker, ends exactly at the line's end, takes
      king's-move steps toward it, stays in the box between the two and has
      at most one cell per unit of distance travelled. */
  lemma {:induction false} TraceShape(l: Line, x: int, y: int, err: int)
    requires OnCourse(l, x, y, err)
    ensures var t := Trace(l, x, y, err);
      |t| > 0 && t[0] == (x, y) && t[|t| - 1] == (l.x1, l.y1) &&
      |t| <= XLeft(l, x) + YLeft(l, y) + 1 &&
      (forall k :: 0 <= k < |t| - 1 ==> StepToward(l, t[k], t[k + 1])) &&
      (forall k :: 0 <= k < |t| ==> 0 <= XLeft(l, t[k].0) <= XLeft(l, x) && 0 <= YLeft(l, t[k].1) <= YLeft(l, y))
    decreases XLeft(l, x) + YLeft(l, y)
  {
    if x != l.x1 || y != l.y1 {
      StepKeepsCourse(l, x, y, err);
      var (x', y', err') := Step(l, x, y, err);
      TraceShape(l, x', y', err');
      var t, rest := Trace(l, x, y, err), Trace(l, x', y', err');
      assert t == [(x, y)] + rest;
      forall k | 0 <= k < |t| - 1
        ensures StepToward(l, t[k], t[k + 1])
      {
        if k > 0 {
          assert t[k] == rest[k - 1] && t[k + 1] == rest[k];
        }
      }
      forall k | 0 <= k < |t|
        ensures 0 <= XLeft(l, t[k].0) <= XLeft(l, x) && 0 <= YLeft(l, t[k].1) <= YLeft(l, y)
      {
        if k > 0 {
          assert t[k] == rest[k - 1];
        }
      }
    }
  }

  /** Both endpoints, truncated, are on the line. */
  lemma LineEndpoints(start: (real, real), end: (real, real))
    ensures var t := LineTrace(start, end);
      |t| > 0 && t[0] == (Numbers.Trunc(start.0), Numbers.Trunc(start.1)) &&
      t[|t| - 1] == (Numbers.Trunc(end.0), Numbers.Trunc(end.1))
  {
    var (x0, y0) := (Numbers.Trunc(start.0), Numbers.Trunc(start.1));
    var (x1, y1) := (Numbers.Trunc(end.0), Numbers.Trunc(end.1));
    LineStarts(x0, y0, x1, y1);
    var l := LineOf(x0, y0, x1, y1);
    TraceShape(l, x0, y0, l.dx + l.dy);
  }

  /** One unfolding of the trace: the walker's cell, then the trace from
      the state one step later. */
  lemma TraceUnfold(l: Line, x: int, y: int, err: int)
    requires OnCourse(l, x, y, err) && (x != l.x1 || y != l.y1)
    ensures OnCourse(l, Step(l, x, y, err).0, Step(l, x, y, err).1, Step(l, x, y, err).2)
    ensures Trace(l, x, y, err) ==
      [(x, y)] + Trace(l, Step(l, x, y, err).0, Step(l, x, y, err).1, Step(l, x, y, err).2)
  {
    StepKeepsCourse(l, x, y, err);
  }

  /** The write of one cell: inside the map the cell takes the material,
      outside it nothing changes; on a map without rows the width test
      `len(top_map[0])` raises IndexError once x >= 0. */
  method Plot(topMap: array2<int>, x: int, y: int, material: int) returns (r: Outcome)
    modifies topMap
    ensures r.Fail? <==> topMap.Length0 == 0 && x >= 0
    ensures r.Fail? ==> r.error == IndexError
    ensures forall i, j :: 0 <= i < topMap.Length0 && 0 <= j < topMap.Length1 ==>
      topMap[i, j] == if (j, i) == (x, y) then material else old(topMap[i, j])
  {
    if 0 <= x {
      if topMap.Length0 == 0 {
        return Fail(IndexError);
      }
      if x < topMap.Length1 && 0 <= y < topMap.Length0 {
        topMap[y, x] := material;
      }
    }
    return Pass;
  }

  /** One step of the walk: the doubled error decides, from its value
      before either update, whether x moves, y moves, or both. */
  method Advance(l: Line, x: int, y: int, err: int) returns (x': int, y': int, err': int)
    ensures (x', y', err') == Step(l, x, y, err)
  {
    x', y', err' := x, y, err;
    var e2 := 2 * err;
    if e2 >= l.dy {
      err' := err' + l.dy;
      x' := x' + l.sx;
    }
    if e2 <= l.dx {
      err' := err' + l.dx;
      y' := y' + l.sy;
    }
  }

  /** The walk of draw_line from a state on course: every cell of the
      remaining trace inside the map takes the material, and the walk fails
      exactly when the map has no rows and the trace reaches x >= 0. */
  method Walk(topMap: array2<int>, l: Line, x: int, y: int, err: int, material: int) returns (r: Outcome)
    requires OnCourse(l, x, y, err)
    modifies topMap
    ensures var t := Trace(l, x, y, err);
      r.Fail? <==> topMap.Length0 == 0 && exists k :: 0 <= k < |t| && t[k].0 >= 0
    ensures r.Fail? ==> r.error == IndexError
    ensures var t := Trace(l, x, y, err);
      forall i, j :: 0 <= i < topMap.Length0 && 0 <= j < topMap.Length1 ==>
        topMap[i, j] == if (j, i) in t then material else old(topMap[i, j])
  {
    var x0, y0, e := x, y, err;
    ghost var whole := Trace(l, x, y, err);
    ghost var visited: seq<Cell> := [];
    while true
      invariant OnCourse(l, x0, y0, e)
      invariant visited + Trace(l, x0, y0, e) == whole
      invariant topMap.Length0 == 0 ==> forall k :: 0 <= k < |visited| ==> visited[k].0 < 0
      invariant forall i, j :: 0 <= i < topMap.Length0 && 0 <= j < topMap.Length1 ==>
        topMap[i, j] == if (j, i) in visited then material else old(topMap[i, j])
      decreases XLeft(l, x0) + YLeft(l, y0)
    {
      assert whole[|visited|] == (x0, y0);
      r := Plot(topMap, x0, y0, material);
      if r.Fail? {
        assert whole[|visited|].0 >= 0;
        return;
      }
      visited := visited + [(x0, y0)];
      if x0 == l.x1 && y0 == l.y1 {
        assert visited == whole;
        break;
      }
      ghost var before := visited;
      TraceUnfold(l, x0, y0, e);
      x0, y0, e := Advance(l, x0, y0, e);
      assert before + Trace(l, x0, y0, e) == whole;
    }
  }

  /** draw_line: both endpoints are truncated to integers, then every cell
      of the traced line inside the map takes the material and every other
      cell keeps its value. On a map without rows the width test raises
      IndexError as soon as the line reaches x >= 0. */
  method DrawLine(topMap: array2<int>, start: (real, real), end: (real, real), material: int) returns (r: Outcome)
    modifies topMap
    ensures var t := LineTrace(start, end);
      r.Fail? <==> topMap.Length0 == 0 && exists k :: 0 <= k < |t| && t[k].0 >= 0
    ensures r.Fail? ==> r.error == IndexError
    ensures var t := LineTrace(start, end);
      forall i, j :: 0 <= i < topMap.Length0 && 0 <= j < topMap.Length1 ==>
        topMap[i, j] == if (j, i) in t then material else old(topMap[i, j])
  {
    var x0, y0 := Numbers.Trunc(start.0), Numbers.Trunc(start.1);
    var x1, y1 := Numbers.Trunc(end.0), Numbers.Trunc(end.1);
    var l := LineOf(x0, y0, x1, y1);
    LineStarts(x0, y0, x1, y1);
    r := Walk(topMap, l, x0, y0, l.dx + l.dy, material);
  }
}
