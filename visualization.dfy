/** The plot of components/Visualization.tsx: the curve drawn as a polyline of
    path commands, and the plotting window fitted around the nodes it shows. */
module Visualization {
  import opened HermiteBasis
  import App

  /** One command of the SVG path: the pen moves to a point or draws a line to it. */
  datatype Command = MoveTo(p: Point) | LineTo(p: Point)

  /** The number of segments the plotted curve is drawn with. */
  const CurveSteps: int := 100

  /** `path` is the polyline the plot draws for the segment with `steps` steps:
      it moves to P0 and then draws a line to the curve point at u = i / steps
      for i = 1 .. steps (no line when steps < 1). */
  predicate IsCurvePath(path: seq<Command>, p0: Point, p1: Point, t0: Point, t1: Point, steps: int)
  {
    |path| == (if steps >= 1 then steps + 1 else 1) &&
    path[0] == MoveTo(p0) &&
    forall i :: 1 <= i < |path| ==> path[i] == LineTo(Evaluate(p0, p1, t0, t1, i as real / steps as real))
  }

  /** Builds the path command by command, as the plot does with its string accumulator. */
  method CalculateCurvePath(p0: Point, p1: Point, t0: Point, t1: Point, steps: int)
    returns (path: seq<Command>)
    ensures IsCurvePath(path, p0, p1, t0, t1, steps)
  {
    path := [MoveTo(p0)];
    var i := 1;
    while i <= steps
      invariant 1 <= i <= (if steps >= 1 then steps + 1 else 1)
      invariant |path| == i && path[0] == MoveTo(p0)
      invariant forall k :: 1 <= k < i ==> path[k] == LineTo(Evaluate(p0, p1, t0, t1, k as real / steps as real))
    {
      var u := i as real / steps as real;
      var x := H00(u) * p0.x + H10(u) * p1.x + H01(u) * t0.x + H11(u) * t1.x;
      var y := H00(u) * p0.y + H10(u) * p1.y + H01(u) * t0.y + H11(u) * t1.y;
      path := path + [LineTo(Point(x, y))];
      i := i + 1;
    }
  }

  /** With at least one step, the path's last vertex is exactly P1. */
  lemma CurvePathEndsAtP1(path: seq<Command>, p0: Point, p1: Point, t0: Point, t1: Point, steps: int)
    requires steps >= 1 && IsCurvePath(path, p0, p1, t0, t1, steps)
    ensures path[|path| - 1] == LineTo(p1)
  {
    DivideBySelf(steps as real);
    EvaluateAtEnds(p0, p1, t0, t1);
  }

  /** A nonzero number divided by itself is 1. */
  lemma DivideBySelf(d: real)
    requires d != 0.0
    ensures d / d == 1.0
  {
  }

  /** The plotted path has 101 vertices. */
  lemma PlotPathLength(path: seq<Command>, p0: Point, p1: Point, t0: Point, t1: Point)
    requires IsCurvePath(path, p0, p1, t0, t1, CurveSteps)
    ensures |path| == 101
  {
  }

  /** The x coordinates of the path depend only on the x components of the
      inputs, and the y coordinates only on the y components. */
  lemma AxesAreIndependent(path: seq<Command>, p0: Point, p1: Point, t0: Point, t1: Point,
                           path': seq<Command>, q0: Point, q1: Point, s0: Point, s1: Point, steps: int)
    requires IsCurvePath(path, p0, p1, t0, t1, steps) && IsCurvePath(path', q0, q1, s0, s1, steps)
    ensures p0.x == q0.x && p1.x == q1.x && t0.x == s0.x && t1.x == s1.x ==>
      forall i :: 0 <= i < |path| ==> path[i].p.x == path'[i].p.x
    ensures p0.y == q0.y && p1.y == q1.y && t0.y == s0.y && t1.y == s1.y ==>
      forall i :: 0 <= i < |path| ==> path[i].p.y == path'[i].p.y
  {
  }

  /** For the editor's points and tangents, the five tabulated samples are the
      plotted vertices 20, 40, 60, 80 and 100. */
  lemma SamplesLieOnPlotPath(points: seq<Point>, path: seq<Command>)
    requires |points| >= 2
    requires var t := App.DerivedTangents(points);
      IsCurvePath(path, points[0], points[1], t.t0, t.t1, CurveSteps)
    ensures forall k :: 0 <= k < 5 ==> path[20 * (k + 1)] == LineTo(App.IntermediatePoints(points, true)[k])
  {
    var samples := App.IntermediatePoints(points, true);
    assert 20 as real / 100 as real == App.UValues[0];
    assert 40 as real / 100 as real == App.UValues[1];
    assert 60 as real / 100 as real == App.UValues[2];
    assert 80 as real / 100 as real == App.UValues[3];
    assert 100 as real / 100 as real == App.UValues[4];
    forall k | 0 <= k < 5
      ensures path[20 * (k + 1)] == LineTo(samples[k])
    {
      assert (20 * (k + 1)) as real / CurveSteps as real == App.UValues[k];
    }
  }

  /** The least of a nonempty list of numbers (`Math.min(...)`). */
  function MinOf(s: seq<real>): (m: real)
    requires |s| > 0
    ensures forall i :: 0 <= i < |s| ==> m <= s[i]
    ensures exists i :: 0 <= i < |s| && s[i] == m
  {
    if |s| == 1 then s[0]
    else
      var rest := MinOf(s[1..]);
      if s[0] <= rest then s[0] else rest
  }

  /** The greatest of a nonempty list of numbers (`Math.max(...)`). */
  function MaxOf(s: seq<real>): (m: real)
    requires |s| > 0
    ensures forall i :: 0 <= i < |s| ==> s[i] <= m
    ensures exists i :: 0 <= i < |s| && s[i] == m
  {
    if |s| == 1 then s[0]
    else
      var rest := MaxOf(s[1..]);
      if s[0] >= rest then s[0] else rest
  }

  /** The smallest margin the window keeps around the nodes. */
  const MinMargin: real := 2.0

  /** The margin for nodes spread over `range`: 15% of it, but at least MinMargin. */
  function Margin(range: real): (m: real)
    ensures m >= MinMargin && m >= range * 0.15
    ensures m == MinMargin || m == range * 0.15
  {
    if range * 0.15 >= MinMargin then range * 0.15 else MinMargin
  }

  /** The plotting window on one axis: its two ends and its size. */
  datatype Extent = Extent(lo: real, hi: real, size: real)

  /** The window on one axis around the given node coordinates. It keeps every
      node at least MinMargin inside, extends the same margin beyond the lowest
      and the highest node, and so measures at least 4 and at least 1.3 times the
      spread of the nodes. */
  function AxisExtent(cs: seq<real>): (e: Extent)
    requires |cs| > 0
    ensures e.size == e.hi - e.lo
    ensures forall i :: 0 <= i < |cs| ==> e.lo + MinMargin <= cs[i] <= e.hi - MinMargin
    ensures MinOf(cs) - e.lo == e.hi - MaxOf(cs) == Margin(MaxOf(cs) - MinOf(cs))
    ensures e.size >= 2.0 * MinMargin && e.size >= 1.3 * (MaxOf(cs) - MinOf(cs))
  {
    var range := MaxOf(cs) - MinOf(cs);
    var margin := Margin(range);
    var lo := MinOf(cs) - margin;
    var hi := MaxOf(cs) + margin;
    Extent(lo, hi, hi - lo)
  }

  /** The x coordinates of a list of points. */
  function Xs(ps: seq<Point>): (r: seq<real>)
    ensures |r| == |ps| && forall i :: 0 <= i < |ps| ==> r[i] == ps[i].x
  {
    seq(|ps|, i requires 0 <= i < |ps| => ps[i].x)
  }

  /** The y coordinates of a list of points. */
  function Ys(ps: seq<Point>): (r: seq<real>)
    ensures |r| == |ps| && forall i :: 0 <= i < |ps| ==> r[i] == ps[i].y
  {
    seq(|ps|, i requires 0 <= i < |ps| => ps[i].y)
  }

  /** The plotting window: x-extent and y-extent. */
  datatype Frame = Frame(x: Extent, y: Extent)

  /** The window fitted around the plotted nodes: both end points and the samples. */
  function PlotFrame(p0: Point, p1: Point, intermediatePoints: seq<Point>): (f: Frame)
    ensures var nodes := [p0, p1] + intermediatePoints;
      forall i :: 0 <= i < |nodes| ==>
        f.x.lo + MinMargin <= nodes[i].x <= f.x.hi - MinMargin &&
        f.y.lo + MinMargin <= nodes[i].y <= f.y.hi - MinMargin
    ensures f.x.size == f.x.hi - f.x.lo && f.y.size == f.y.hi - f.y.lo
    ensures f.x.size >= 4.0 && f.y.size >= 4.0
  {
    var allNodes := [p0, p1] + intermediatePoints;
    Frame(AxisExtent(Xs(allNodes)), AxisExtent(Ys(allNodes)))
  }
}
