/** Point-list clean-up of blueshark/addons/topology/smoothing.py: dropping
    points that crowd the previous one, a moving average, and the greedy
    nearest-neighbour ordering of boundary cells. Euclidean distances are
    compared through their squares, which orders them the same way. */
module Smoothing {
  import Numbers

  /** A point of a traced outline, in floating point. */
  type Point = (real, real)

  /** A boundary cell of the voxel map, as (x, y). */
  type Cell = (int, int)

  function SqDist(p: Point, q: Point): (r: real)
    ensures r >= 0.0
  {
    Numbers.Sqr(p.0 - q.0) + Numbers.Sqr(p.1 - q.1)
  }

  /** `_distance(p, q) >= min_dist`: the distance is never negative, so any
      distance passes a bound that is not positive; otherwise the squares
      decide. */
  predicate FarEnough(p: Point, q: Point, minDist: real) {
    minDist <= 0.0 || SqDist(p, q) >= minDist * minDist
  }

  // ---------------------------------------------------------------------
  // simplify_points
  // ---------------------------------------------------------------------

  /** The points of `rest` that simplify_points keeps after having last
      kept `last`: a point is kept when it is far enough from the point
      kept before it. */
  function Kept(last: Point, rest: seq<Point>, minDist: real): seq<Point>
    decreases |rest|
  {
    if |rest| == 0 then []
    else if FarEnough(last, rest[0], minDist) then [rest[0]] + Kept(rest[0], rest[1..], minDist)
    else Kept(last, rest[1..], minDist)
  }

  /** simplify_points as a value: nothing for no points, otherwise the first
      point followed by the points kept after it. */
  function Simplify(points: seq<Point>, minDist: real): (r: seq<Point>)
    ensures |points| == 0 ==> r == []
    ensures |points| > 0 ==> |r| > 0 && r[0] == points[0]
  {
    if |points| == 0 then [] else [points[0]] + Kept(points[0], points[1..], minDist)
  }

  /** simplify_points: the loop over points[1:] appending each point that is
      far enough from the last one kept. */
  method SimplifyPoints(points: seq<Point>, minDist: real) returns (simplified: seq<Point>)
    ensures simplified == Simplify(points, minDist)
  {
    if |points| == 0 {
      return [];
    }
    simplified := [points[0]];
    var k := 1;
    while k < |points|
      invariant 1 <= k <= |points|
      invariant |simplified| > 0
      invariant simplified + Kept(simplified[|simplified| - 1], points[k..], minDist) == Simplify(points, minDist)
    {
      var last := simplified[|simplified| - 1];
      var pt := points[k];
      assert points[k..] == [pt] + points[k + 1..];
      if FarEnough(last, pt, minDist) {
        simplified := simplified + [pt];
      }
      k := k + 1;
    }
  }

  /** `a` occurs in `b` in order, possibly with gaps. */
  predicate Subsequence<T(==)>(a: seq<T>, b: seq<T>)
    decreases |b|
  {
    if |a| == 0 then true
    else if |b| == 0 then false
    else if a[0] == b[0] then Subsequence(a[1..], b[1..])
    else Subsequence(a, b[1..])
  }

  lemma {:induction false} KeptSubsequence(last: Point, rest: seq<Point>, minDist: real)
    ensures Subsequence(Kept(last, rest, minDist), rest)
    decreases |rest|
  {
    if |rest| > 0 {
      var k := Kept(last, rest, minDist);
      if FarEnough(last, rest[0], minDist) {
        KeptSubsequence(rest[0], rest[1..], minDist);
        assert k[1..] == Kept(rest[0], rest[1..], minDist);
      } else {
        KeptSubsequence(last, rest[1..], minDist);
        SubsequenceSkip(k, rest[0], rest[1..]);
      }
    }
  }

  /** Putting an element in front of the larger sequence keeps a
      subsequence a subsequence. */
  lemma {:induction false} SubsequenceSkip<T>(a: seq<T>, x: T, b: seq<T>)
    requires Subsequence(a, b)
    ensures Subsequence(a, [x] + b)
    decreases |b|, 1
  {
    if |a| > 0 && a[0] == x {
      assert ([x] + b)[1..] == b;
      SubsequenceDrop(a, b);
    } else {
      assert ([x] + b)[1..] == b;
    }
  }

  /** Dropping the first element of a subsequence keeps it one. */
  lemma {:induction false} SubsequenceDrop<T>(a: seq<T>, b: seq<T>)
    requires |a| > 0 && Subsequence(a, b)
    ensures Subsequence(a[1..], b)
    decreases |b|, 0
  {
    if |b| > 0 {
      if a[0] == b[0] {
        SubsequenceSkip(a[1..], b[0], b[1..]);
        assert [b[0]] + b[1..] == b;
      } else {
        SubsequenceDrop(a, b[1..]);
        SubsequenceSkip(a[1..], b[0], b[1..]);
        assert [b[0]] + b[1..] == b;
      }
    }
  }

  /** The simplified list draws its points from the input, in order. */
  lemma SimplifySubsequence(points: seq<Point>, minDist: real)
    ensures Subsequence(Simplify(points, minDist), points)
  {
    if |points| > 0 {
      KeptSubsequence(points[0], points[1..], minDist);
      assert Simplify(points, minDist)[1..] == Kept(points[0], points[1..], minDist);
    }
  }

  /** Every point kept is far enough from the point kept just before it. */
  predicate Spaced(s: seq<Point>, minDist: real) {
    forall i :: 0 < i < |s| ==> FarEnough(s[i - 1], s[i], minDist)
  }

  lemma {:induction false} KeptSpaced(last: Point, rest: seq<Point>, minDist: real)
    ensures Spaced([last] + Kept(last, rest, minDist), minDist)
    decreases |rest|
  {
    if |rest| > 0 {
      if FarEnough(last, rest[0], minDist) {
        KeptSpaced(rest[0], rest[1..], minDist);
        assert [last] + Kept(last, rest, minDist) == [last] + ([rest[0]] + Kept(rest[0], rest[1..], minDist));
      } else {
        KeptSpaced(last, rest[1..], minDist);
      }
    }
  }

  lemma SimplifySpaced(points: seq<Point>, minDist: real)
    ensures Spaced(Simplify(points, minDist), minDist)
  {
    if |points| > 0 {
      KeptSpaced(points[0], points[1..], minDist);
    }
  }

  /** Points that are already spaced lose nothing. */
  lemma {:induction false} KeptAllWhenSpaced(last: Point, rest: seq<Point>, minDist: real)
    requires Spaced([last] + rest, minDist)
    ensures Kept(last, rest, minDist) == rest
    decreases |rest|
  {
    if |rest| > 0 {
      assert ([last] + rest)[0] == last && ([last] + rest)[1] == rest[0];
      assert FarEnough(last, rest[0], minDist);
      assert [rest[0]] + rest[1..] == rest;
      forall i | 0 < i < |rest|
        ensures FarEnough(rest[i - 1], rest[i], minDist)
      {
        assert ([last] + rest)[i] == rest[i - 1];
        assert ([last] + rest)[i + 1] == rest[i];
      }
      KeptAllWhenSpaced(rest[0], rest[1..], minDist);
    }
  }

  /** Simplifying twice is simplifying once. */
  lemma SimplifyIdempotent(points: seq<Point>, minDist: real)
    ensures Simplify(Simplify(points, minDist), minDist) == Simplify(points, minDist)
  {
    var s := Simplify(points, minDist);
    if |s| > 0 {
      SimplifySpaced(points, minDist);
      assert [s[0]] + s[1..] == s;
      KeptAllWhenSpaced(s[0], s[1..], minDist);
    }
  }

  // ---------------------------------------------------------------------
  // smooth_points
  // ---------------------------------------------------------------------

  /** First index of the window around i: `max(0, i - window // 2)`. */
  function Lo(i: int, window: int): int
    requires window >= 2
  {
    if i - window / 2 < 0 then 0 else i - window / 2
  }

  /** One past the last index of the window: `min(n, i + window // 2 + 1)`. */
  function Hi(i: int, n: int, window: int): int
    requires window >= 2
  {
    if n < i + window / 2 + 1 then n else i + window / 2 + 1
  }

  /** The window of an index of the list holds that index and lies within
      the list, so it is never empty and its mean is defined. */
  lemma WindowBounds(i: int, n: int, window: int)
    requires window >= 2 && 0 <= i < n
    ensures 0 <= Lo(i, window) <= i < Hi(i, n, window) <= n
    ensures Hi(i, n, window) - Lo(i, window) <= 2 * (window / 2) + 1
  {
  }

  /** sum(points[j][0] for j in range(lo, hi)) */
  function SumX(points: seq<Point>, lo: int, hi: int): real
    requires 0 <= lo <= hi <= |points|
    decreases hi - lo
  {
    if lo == hi then 0.0 else SumX(points, lo, hi - 1) + points[hi - 1].0
  }

  /** sum(points[j][1] for j in range(lo, hi)) */
  function SumY(points: seq<Point>, lo: int, hi: int): real
    requires 0 <= lo <= hi <= |points|
    decreases hi - lo
  {
    if lo == hi then 0.0 else SumY(points, lo, hi - 1) + points[hi - 1].1
  }

  /** The smoothed point at index i: the mean of its clamped window. */
  function Averaged(points: seq<Point>, i: int, window: int): Point
    requires window >= 2 && 0 <= i < |points|
  {
    WindowBounds(i, |points|, window);
    var lo, hi := Lo(i, window), Hi(i, |points|, window);
    (SumX(points, lo, hi) / (hi - lo) as real, SumY(points, lo, hi) / (hi - lo) as real)
  }

  /** smooth_points as a value. */
  function Smooth(points: seq<Point>, window: int := 3): (r: seq<Point>)
    ensures |r| == |points|
    ensures |points| == 0 || window < 2 ==> r == points
    ensures window >= 2 ==> forall i :: 0 <= i < |points| ==> r[i] == Averaged(points, i, window)
  {
    if |points| == 0 || window < 2 then points
    else seq(|points|, i requires 0 <= i < |points| => Averaged(points, i, window))
  }

  /** smooth_points: one averaged point appended per index. */
  method SmoothPoints(points: seq<Point>, window: int := 3) returns (smoothed: seq<Point>)
    ensures smoothed == Smooth(points, window)
  {
    if |points| == 0 || window < 2 {
      return points;
    }
    var n := |points|;
    smoothed := [];
    for i := 0 to n
      invariant |smoothed| == i
      invariant forall k :: 0 <= k < i ==> smoothed[k] == Averaged(points, k, window)
    {
      var start := if i - window / 2 < 0 then 0 else i - window / 2;
      var end := if n < i + window / 2 + 1 then n else i + window / 2 + 1;
      WindowBounds(i, n, window);
      var avgX := SumX(points, start, end) / (end - start) as real;
      var avgY := SumY(points, start, end) / (end - start) as real;
      smoothed := smoothed + [(avgX, avgY)];
    }
  }

  /** With the default window of 3, a point between two others is the mean
      of the three. */
  lemma SmoothDefaultWindow(a: Point, b: Point, c: Point)
    ensures Smooth([a, b, c])[1] == ((a.0 + b.0 + c.0) / 3.0, (a.1 + b.1 + c.1) / 3.0)
  {
    var ps := [a, b, c];
    assert |ps| == 3 && Lo(1, 3) == 0 && Hi(1, |ps|, 3) == 3;
    assert (Hi(1, |ps|, 3) - Lo(1, 3)) as real == 3.0;
    assert SumX(ps, 0, 3) == a.0 + b.0 + c.0;
    assert SumY(ps, 0, 3) == a.1 + b.1 + c.1;
    assert Averaged(ps, 1, 3).0 == SumX(ps, Lo(1, 3), Hi(1, |ps|, 3)) / (Hi(1, |ps|, 3) - Lo(1, 3)) as real;
    assert Averaged(ps, 1, 3).1 == SumY(ps, Lo(1, 3), Hi(1, |ps|, 3)) / (Hi(1, |ps|, 3) - Lo(1, 3)) as real;
    assert Averaged(ps, 1, 3).0 == (a.0 + b.0 + c.0) / 3.0;
    assert Averaged(ps, 1, 3).1 == (a.1 + b.1 + c.1) / 3.0;
    assert Smooth(ps)[1] == Averaged(ps, 1, 3);
  }

  /** Bounds on every x of a window bound the window's sum. */
  lemma {:induction false} SumXBounds(points: seq<Point>, lo: int, hi: int, a: real, b: real)
    requires 0 <= lo <= hi <= |points|
    requires forall j :: lo <= j < hi ==> a <= points[j].0 <= b
    ensures (hi - lo) as real * a <= SumX(points, lo, hi) <= (hi - lo) as real * b
    decreases hi - lo
  {
    if lo < hi {
      SumXBounds(points, lo, hi - 1, a, b);
    }
  }

  lemma {:induction false} SumYBounds(points: seq<Point>, lo: int, hi: int, a: real, b: real)
    requires 0 <= lo <= hi <= |points|
    requires forall j :: lo <= j < hi ==> a <= points[j].1 <= b
    ensures (hi - lo) as real * a <= SumY(points, lo, hi) <= (hi - lo) as real * b
    decreases hi - lo
  {
    if lo < hi {
      SumYBounds(points, lo, hi - 1, a, b);
    }
  }

  /** A mean stays between the bounds of what it averages. */
  lemma MeanBetween(sum: real, count: real, a: real, b: real)
    requires count > 0.0 && count * a <= sum <= count * b
    ensures a <= sum / count <= b
  {
    assert sum / count - a == (sum - count * a) / count;
    assert b - sum / count == (count * b - sum) / count;
  }

  /** A smoothed point lies in any box that holds every input point. */
  lemma AveragedInBox(points: seq<Point>, window: int, i: int, xLo: real, xHi: real, yLo: real, yHi: real)
    requires window >= 2 && 0 <= i < |points|
    requires forall j :: 0 <= j < |points| ==> xLo <= points[j].0 <= xHi && yLo <= points[j].1 <= yHi
    ensures xLo <= Averaged(points, i, window).0 <= xHi && yLo <= Averaged(points, i, window).1 <= yHi
  {
    WindowBounds(i, |points|, window);
    var lo, hi := Lo(i, window), Hi(i, |points|, window);
    MeanXBetween(points, lo, hi, xLo, xHi);
    MeanYBetween(points, lo, hi, yLo, yHi);
  }

  lemma MeanXBetween(points: seq<Point>, lo: int, hi: int, a: real, b: real)
    requires 0 <= lo < hi <= |points|
    requires forall j :: 0 <= j < |points| ==> a <= points[j].0 <= b
    ensures a <= SumX(points, lo, hi) / (hi - lo) as real <= b
  {
    SumXBounds(points, lo, hi, a, b);
    MeanBetween(SumX(points, lo, hi), (hi - lo) as real, a, b);
  }

  lemma MeanYBetween(points: seq<Point>, lo: int, hi: int, a: real, b: real)
    requires 0 <= lo < hi <= |points|
    requires forall j :: 0 <= j < |points| ==> a <= points[j].1 <= b
    ensures a <= SumY(points, lo, hi) / (hi - lo) as real <= b
  {
    SumYBounds(points, lo, hi, a, b);
    MeanBetween(SumY(points, lo, hi), (hi - lo) as real, a, b);
  }

  /** Smoothing never leaves the bounding box of the input: if every point
      lies in [xLo, xHi] x [yLo, yHi], so does every smoothed point. */
  lemma SmoothStaysInBox(points: seq<Point>, window: int, xLo: real, xHi: real, yLo: real, yHi: real)
    requires forall j :: 0 <= j < |points| ==> xLo <= points[j].0 <= xHi && yLo <= points[j].1 <= yHi
    ensures var r := Smooth(points, window);
      forall i :: 0 <= i < |r| ==> xLo <= r[i].0 <= xHi && yLo <= r[i].1 <= yHi
  {
    var r := Smooth(points, window);
    if |points| > 0 && window >= 2 {
      forall i | 0 <= i < |r|
        ensures xLo <= r[i].0 <= xHi && yLo <= r[i].1 <= yHi
      {
        AveragedInBox(points, window, i, xLo, xHi, yLo, yHi);
      }
    }
  }

  /** A run of equal points is left where it is. */
  lemma SmoothConstant(points: seq<Point>, window: int, c: Point)
    requires forall j :: 0 <= j < |points| ==> points[j] == c
    ensures Smooth(points, window) == points
  {
    SmoothStaysInBox(points, window, c.0, c.0, c.1, c.1);
  }

  // ---------------------------------------------------------------------
  // _influence_points and order_points
  // ---------------------------------------------------------------------

  /** c lies strictly inside the square of side 2 * radius centred on
      centre. */
  predicate Inside(c: Cell, centre: Cell, radius: int) {
    Numbers.IAbs(c.0 - centre.0) < radius && Numbers.IAbs(c.1 - centre.1) < radius
  }

  /** The points inside the square around centre, in their input order. */
  function Influence(points: seq<Cell>, centre: Cell, radius: int): (r: seq<Cell>)
    ensures |r| <= |points|
    ensures forall c :: c in r <==> c in points && Inside(c, centre, radius)
  {
    if |points| == 0 then []
    else
      var rest := Influence(points[..|points| - 1], centre, radius);
      var last := points[|points| - 1];
      assert points == points[..|points| - 1] + [last];
      if Inside(last, centre, radius) then rest + [last] else rest
  }

  /** _influence_points: the loop collecting the points inside the square. */
  method InfluencePoints(points: seq<Cell>, centre: Cell, radius: int) returns (local: seq<Cell>)
    ensures local == Influence(points, centre, radius)
  {
    local := [];
    for k := 0 to |points|
      invariant local == Influence(points[..k], centre, radius)
    {
      assert points[..k + 1][..k] == points[..k];
      if Inside(points[k], centre, radius) {
        local := local + [points[k]];
      }
    }
    assert points[..|points|] == points;
  }

  function SqLen(p: Cell, q: Cell): int {
    (p.0 - q.0) * (p.0 - q.0) + (p.1 - q.1) * (p.1 - q.1)
  }

  /** The position `min(local, key=distance to current)` picks: a closest
      point, and the first of them. */
  function NearestIndex(local: seq<Cell>, current: Cell): (i: nat)
    requires |local| > 0
    ensures i < |local|
    ensures forall j :: 0 <= j < |local| ==> SqLen(local[i], current) <= SqLen(local[j], current)
    ensures forall j :: 0 <= j < i ==> SqLen(local[j], current) > SqLen(local[i], current)
  {
    if |local| == 1 then 0
    else
      var k := 1 + NearestIndex(local[1..], current);
      assert forall j :: 1 <= j < |local| ==> local[j] == local[1..][j - 1];
      if SqLen(local[0], current) <= SqLen(local[k], current) then 0 else k
  }

  /** `min(local, key=distance to current)` */
  function Nearest(local: seq<Cell>, current: Cell): (r: Cell)
    requires |local| > 0
    ensures r in local
    ensures forall q :: q in local ==> SqLen(r, current) <= SqLen(q, current)
  {
    local[NearestIndex(local, current)]
  }

  /** `list.remove(x)`: drops the first occurrence of x. */
  function RemoveFirst(s: seq<Cell>, x: Cell): (r: seq<Cell>)
    requires x in s
    ensures multiset(r) == multiset(s) - multiset{x}
    ensures |r| == |s| - 1
  {
    if s[0] == x then
      assert s == [s[0]] + s[1..];
      s[1..]
    else
      assert s == [s[0]] + s[1..];
      [s[0]] + RemoveFirst(s[1..], x)
  }

  /** n is a closest remaining point strictly inside the square around
      current. */
  predicate ClosestInside(temp: seq<Cell>, current: Cell, radius: int, n: Cell) {
    n in temp && Inside(n, current, radius) &&
    forall q :: q in temp && Inside(q, current, radius) ==> SqLen(n, current) <= SqLen(q, current)
  }

  /** n is a closest point of the multiset m strictly inside the square
      around current. */
  predicate ClosestAmong(m: multiset<Cell>, current: Cell, radius: int, n: Cell) {
    n in m && Inside(n, current, radius) &&
    forall q :: q in m && Inside(q, current, radius) ==> SqLen(n, current) <= SqLen(q, current)
  }

  /** No point of s lies inside the square around current. */
  predicate NoneInside(s: seq<Cell>, current: Cell, radius: int) {
    forall q :: q in s ==> !Inside(q, current, radius)
  }

  /** One round of order_points on the remaining and the ordered points:
      when some remaining point lies inside the square around the last
      point taken, the first closest of them moves from the remaining
      points to the end of the ordered ones; otherwise nothing changes. */
  function Step(temp: seq<Cell>, ordered: seq<Cell>, radius: int): (r: (seq<Cell>, seq<Cell>))
    requires |ordered| > 0
    ensures r.1 == ordered ==> r.0 == temp
    ensures r.1 == ordered || (|r.1| == |ordered| + 1 && r.1[..|ordered|] == ordered && |r.0| == |temp| - 1)
    ensures multiset(r.1) + multiset(r.0) == multiset(ordered) + multiset(temp)
  {
    var current := ordered[|ordered| - 1];
    var local := Influence(temp, current, radius);
    if |local| > 0 then
      var nearest := Nearest(local, current);
      assert (ordered + [nearest])[..|ordered|] == ordered;
      (RemoveFirst(temp, nearest), ordered + [nearest])
    else (temp, ordered)
  }

  /** A round takes no point exactly when no remaining point lies inside
      the square around the last point taken, and otherwise takes a
      closest such point. */
  lemma StepChoice(temp: seq<Cell>, ordered: seq<Cell>, radius: int)
    requires |ordered| > 0
    ensures var r := Step(temp, ordered, radius);
      r.1 == ordered <==> NoneInside(temp, ordered[|ordered| - 1], radius)
    ensures var r := Step(temp, ordered, radius);
      r.1 != ordered ==> ClosestInside(temp, ordered[|ordered| - 1], radius, r.1[|ordered|])
  {
    var current := ordered[|ordered| - 1];
    var local := Influence(temp, current, radius);
    if |local| > 0 {
      assert local[0] in temp && Inside(local[0], current, radius);
    }
  }

  /** Rounds repeated until none takes a point: the points left over and
      the ordering order_points reaches. The ordering extends the ordered
      points by at most the remaining ones. */
  function Order(temp: seq<Cell>, ordered: seq<Cell>, radius: int): (r: (seq<Cell>, seq<Cell>))
    requires |ordered| > 0
    ensures |ordered| <= |r.1| <= |ordered| + |temp| && r.1[..|ordered|] == ordered
    decreases |temp|
  {
    var next := Step(temp, ordered, radius);
    if next.1 == ordered then (temp, ordered)
    else
      assert |next.1| == |ordered| + 1 && |next.0| == |temp| - 1 && next.1[..|ordered|] == ordered;
      var r := Order(next.0, next.1, radius);
      assert r.1[..|ordered|] == r.1[..|next.1|][..|ordered|];
      r
  }

  /** Every point ends up either ordered or left over, as often as it
      occurs. */
  lemma {:induction false} OrderKeepsPoints(temp: seq<Cell>, ordered: seq<Cell>, radius: int)
    requires |ordered| > 0
    ensures var r := Order(temp, ordered, radius);
      multiset(r.1) + multiset(r.0) == multiset(ordered) + multiset(temp)
    decreases |temp|
  {
    var next := Step(temp, ordered, radius);
    if next.1 != ordered {
      OrderKeepsPoints(next.0, next.1, radius);
    }
  }

  /** Order stops at a point whose square holds no point left over. */
  lemma {:induction false} OrderStops(temp: seq<Cell>, ordered: seq<Cell>, radius: int)
    requires |ordered| > 0
    ensures NoneInside(Order(temp, ordered, radius).0, Last(Order(temp, ordered, radius).1), radius)
    decreases |temp|
  {
    var next := Step(temp, ordered, radius);
    if next.1 == ordered {
      StepChoice(temp, ordered, radius);
      OrderAtRest(temp, ordered, radius);
    } else {
      OrderStops(next.0, next.1, radius);
      OrderUnfolds(temp, ordered, radius);
    }
  }

  /** The last element of a non-empty sequence. */
  function Last(s: seq<Cell>): Cell
    requires |s| > 0
  {
    s[|s| - 1]
  }

  /** A round that takes nothing ends the ordering where it is. */
  lemma OrderAtRest(temp: seq<Cell>, ordered: seq<Cell>, radius: int)
    requires |ordered| > 0 && Step(temp, ordered, radius).1 == ordered
    ensures Order(temp, ordered, radius) == (temp, ordered)
  {
  }

  /** A round that takes a point leaves the ordering to the next round. */
  lemma OrderUnfolds(temp: seq<Cell>, ordered: seq<Cell>, radius: int)
    requires |ordered| > 0 && Step(temp, ordered, radius).1 != ordered
    ensures Order(temp, ordered, radius) == Order(Step(temp, ordered, radius).0, Step(temp, ordered, radius).1, radius)
  {
  }

  /** Each point Order appends lies inside the square around the one
      before it. */
  lemma {:induction false} OrderSteps(temp: seq<Cell>, ordered: seq<Cell>, radius: int)
    requires |ordered| > 0
    ensures var r := Order(temp, ordered, radius).1;
      forall i :: |ordered| <= i < |r| ==> Inside(r[i], r[i - 1], radius)
    decreases |temp|
  {
    var next := Step(temp, ordered, radius);
    var r := Order(temp, ordered, radius).1;
    if next.1 == ordered {
      OrderAtRest(temp, ordered, radius);
    } else {
      OrderUnfolds(temp, ordered, radius);
      OrderSteps(next.0, next.1, radius);
      StepChoice(temp, ordered, radius);
      var k := |ordered|;
      assert r[..k + 1] == next.1;
      assert r[k] == next.1[k] && r[k - 1] == ordered[k - 1];
      ChainExtends(r, k, radius);
    }
  }

  /** A chain of steps inside the radius from k + 1 on, with one more step
      at k, runs from k on. */
  lemma ChainExtends(r: seq<Cell>, k: int, radius: int)
    requires 1 <= k < |r|
    requires Inside(r[k], r[k - 1], radius)
    requires forall i :: k + 1 <= i < |r| ==> Inside(r[i], r[i - 1], radius)
    ensures forall i :: k <= i < |r| ==> Inside(r[i], r[i - 1], radius)
  {
  }

  /** Every point Order appends is a closest point, among those not yet
      taken, inside the square around the point before it. */
  lemma {:induction false} OrderGreedy(temp: seq<Cell>, ordered: seq<Cell>, radius: int, i: int)
    requires |ordered| > 0
    requires |ordered| <= i < |Order(temp, ordered, radius).1|
    ensures var r := Order(temp, ordered, radius).1;
      ClosestAmong(multiset(ordered) + multiset(temp) - multiset(r[..i]), r[i - 1], radius, r[i])
    decreases |temp|
  {
    var r := Order(temp, ordered, radius).1;
    var next := Step(temp, ordered, radius);
    assert next.1 != ordered;
    assert r == Order(next.0, next.1, radius).1;
    if i == |ordered| {
      StepChoice(temp, ordered, radius);
      assert r[..i] == ordered;
      assert multiset(ordered) + multiset(temp) - multiset(r[..i]) == multiset(temp);
      assert r[i] == next.1[|ordered|];
      assert r[i - 1] == ordered[|ordered| - 1];
    } else {
      OrderGreedy(next.0, next.1, radius, i);
    }
  }

  /** A round does not change where the ordering ends up; a round that
      takes a point leaves one fewer, and one that takes none is at rest. */
  lemma RoundKeepsOrder(temp: seq<Cell>, ordered: seq<Cell>, radius: int)
    requires |ordered| > 0
    ensures var next := Step(temp, ordered, radius);
      && Order(next.0, next.1, radius) == Order(temp, ordered, radius)
      && (next.1 == ordered ==> Order(temp, ordered, radius) == (temp, ordered))
      && (next.1 != ordered ==> |next.0| == |temp| - 1)
  {
    var next := Step(temp, ordered, radius);
    if next.1 == ordered {
      OrderAtRest(temp, ordered, radius);
    } else {
      OrderUnfolds(temp, ordered, radius);
    }
  }

  /** One round of order_points: the state Step gives. */
  method OrderRound(temp: seq<Cell>, ordered: seq<Cell>, radius: int) returns (temp': seq<Cell>, ordered': seq<Cell>)
    requires |ordered| > 0
    ensures (temp', ordered') == Step(temp, ordered, radius)
    ensures var current := ordered[|ordered| - 1];
      (ordered' == ordered && temp' == temp) <==> forall q :: q in temp ==> !Inside(q, current, radius)
    ensures ordered' == ordered || (|ordered'| == |ordered| + 1 && ordered'[..|ordered|] == ordered &&
      ClosestInside(temp, ordered[|ordered| - 1], radius, ordered'[|ordered|]))
    ensures multiset(ordered') + multiset(temp') == multiset(ordered) + multiset(temp)
  {
    var current := ordered[|ordered| - 1];
    var local := InfluencePoints(temp, current, radius);
    if |local| > 0 {
      var nearest := Nearest(local, current);
      temp' := RemoveFirst(temp, nearest);
      ordered' := ordered + [nearest];
    } else {
      temp', ordered' := temp, ordered;
    }
    StepChoice(temp, ordered, radius);
  }

  /** order_points: starting from the first point, len(points) - 1 rounds,
      which is enough for the rounds to reach Order: each round that takes
      a point leaves one fewer, and a round that takes none leaves the
      state as it is. */
  method OrderPoints(points: seq<Cell>, radius: int := 20) returns (ordered: seq<Cell>)
    ensures |points| == 0 ==> ordered == []
    ensures |points| > 0 ==> ordered == Order(points[1..], [points[0]], radius).1
    ensures |points| > 0 ==> |ordered| > 0 && ordered[0] == points[0]
    ensures multiset(ordered) <= multiset(points)
    ensures |ordered| <= |points|
    ensures forall i :: 0 < i < |ordered| ==> Inside(ordered[i], ordered[i - 1], radius)
  {
    if |points| == 0 {
      return [];
    }
    var temp := points[1..];
    ordered := [points[0]];
    assert points == [points[0]] + temp;
    for round := 0 to |points| - 1
      invariant |ordered| > 0
      invariant Order(temp, ordered, radius) == Order(points[1..], [points[0]], radius)
      invariant |temp| + round <= |points| - 1 || Order(temp, ordered, radius) == (temp, ordered)
    {
      RoundKeepsOrder(temp, ordered, radius);
      temp, ordered := OrderRound(temp, ordered, radius);
    }
    if |temp| == 0 {
      assert Step(temp, ordered, radius).1 == ordered;
      OrderAtRest(temp, ordered, radius);
    }
    OrderKeepsPoints(points[1..], [points[0]], radius);
    OrderSteps(points[1..], [points[0]], radius);
    assert |multiset(ordered)| <= |multiset(points)|;
  }
}
