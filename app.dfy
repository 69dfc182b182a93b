/** The editor of App.tsx: the three control points and the visibility flag it
    holds as state, the tangents derived from the points, the five tabulated
    curve samples, and the three user actions that change the state. */
module App {
  import opened HermiteBasis

  /** P0 (start), P1 (end) and P2 (the shaping point), as the editor starts. */
  const InitialPoints: seq<Point> := [Point(2.0, 2.0), Point(12.0, 10.0), Point(4.0, 8.0)]

  /** The Cardinal-spline tension used for both tangents. */
  const Tension: real := 0.5

  /** The fixed parameters of the tabulated samples Q1..Q5. */
  const UValues: seq<real> := [0.2, 0.4, 0.6, 0.8, 1.0]

  /** The tangent at P0 and the tangent at P1. */
  datatype Tangents = Tangents(t0: Point, t1: Point)

  /** Tangents from the control points: half the chord P0 -> P2 at the start and
      half the chord P2 -> P1 at the end; two zero tangents when a point is missing. */
  function DerivedTangents(points: seq<Point>): (r: Tangents)
    ensures |points| < 3 ==> r == Tangents(Origin, Origin)
    ensures |points| >= 3 ==>
      r.t0.x == (points[2].x - points[0].x) / 2.0 && r.t0.y == (points[2].y - points[0].y) / 2.0 &&
      r.t1.x == (points[1].x - points[2].x) / 2.0 && r.t1.y == (points[1].y - points[2].y) / 2.0
    ensures |points| >= 3 ==> (r.t0 == Origin <==> points[0] == points[2])
    ensures |points| >= 3 ==> (r.t1 == Origin <==> points[1] == points[2])
  {
    if |points| < 3 then Tangents(Origin, Origin)
    else
      var p0, p1, p2 := points[0], points[1], points[2];
      Tangents(Point(Tension * (p2.x - p0.x), Tension * (p2.y - p0.y)),
               Point(Tension * (p1.x - p2.x), Tension * (p1.y - p2.y)))
  }

  /** For the initial points (2,2), (12,10), (4,8) the tangents are (1,3) and (4,1). */
  lemma InitialTangents()
    ensures DerivedTangents(InitialPoints) == Tangents(Point(1.0, 3.0), Point(4.0, 1.0))
  {
  }

  /** The curve evaluated at each parameter of us, in order (the `map` over the parameters). */
  function SampleAt(p0: Point, p1: Point, t0: Point, t1: Point, us: seq<real>): (r: seq<Point>)
    ensures |r| == |us|
    ensures forall k :: 0 <= k < |us| ==> r[k] == Evaluate(p0, p1, t0, t1, us[k])
  {
    if us == [] then []
    else [Evaluate(p0, p1, t0, t1, us[0])] + SampleAt(p0, p1, t0, t1, us[1..])
  }

  /** The tabulated samples: nothing while the curve is hidden or when fewer than
      two points exist, otherwise the curve at each of the five fixed parameters. */
  function IntermediatePoints(points: seq<Point>, isCurveVisible: bool): (r: seq<Point>)
    ensures r == [] <==> !isCurveVisible || |points| < 2
    ensures r != [] ==>
      |r| == |UValues| &&
      var t := DerivedTangents(points);
      forall k :: 0 <= k < |UValues| ==> r[k] == Evaluate(points[0], points[1], t.t0, t.t1, UValues[k])
  {
    if !isCurveVisible || |points| < 2 then []
    else
      var t := DerivedTangents(points);
      SampleAt(points[0], points[1], t.t0, t.t1, UValues)
  }

  /** The samples are taken in strictly increasing order of u, all in (0, 1],
      and the last one (u = 1) is the end point P1 itself. */
  lemma SamplesEndAtP1(points: seq<Point>)
    requires |points| >= 2
    ensures forall j, k :: 0 <= j < k < |UValues| ==> 0.0 < UValues[j] < UValues[k] <= 1.0
    ensures |IntermediatePoints(points, true)| == 5
    ensures IntermediatePoints(points, true)[4] == points[1]
  {
    var t := DerivedTangents(points);
    EvaluateAtEnds(points[0], points[1], t.t0, t.t1);
  }

  /** Which coordinate an edit changes. */
  datatype Axis = X | Y {
    function Other(): Axis { if this == X then Y else X }
  }

  /** The given coordinate of a point. */
  function Coord(p: Point, axis: Axis): real
  {
    if axis == X then p.x else p.y
  }

  /** The point list after replacing one coordinate of point `index` by `value`. */
  function SetCoordinate(points: seq<Point>, index: nat, axis: Axis, value: real): (r: seq<Point>)
    requires index < |points|
    ensures |r| == |points|
    ensures Coord(r[index], axis) == value
    ensures Coord(r[index], axis.Other()) == Coord(points[index], axis.Other())
    ensures forall j :: 0 <= j < |points| && j != index ==> r[j] == points[j]
  {
    var p := points[index];
    points[index := if axis == X then p.(x := value) else p.(y := value)]
  }

  /** The editor's state: the control points and whether the curve is shown. */
  class Editor {
    var points: seq<Point>
    var isCurveVisible: bool

    /** Exactly three control points are held. */
    ghost predicate Valid()
      reads this
    {
      |points| == 3
    }

    /** The tangents the editor currently derives from its points. */
    function CurrentTangents(): Tangents
      reads this
    {
      DerivedTangents(points)
    }

    /** The samples the editor currently tabulates. */
    function Samples(): seq<Point>
      reads this
    {
      IntermediatePoints(points, isCurveVisible)
    }

    /** The editor opens on the initial points with the curve hidden. */
    constructor ()
      ensures Valid()
      ensures points == InitialPoints && !isCurveVisible
      ensures Samples() == []
    {
      points := InitialPoints;
      isCurveVisible := false;
    }

    /** Edits one coordinate of one point; any edit hides the curve, so no
        sample survives an edit. */
    method UpdatePoint(index: nat, axis: Axis, value: real)
      requires index < |points|
      modifies this
      ensures points == SetCoordinate(old(points), index, axis, value)
      ensures !isCurveVisible
      ensures Samples() == []
      ensures old(Valid()) ==> Valid()
    {
      var newPoints := points;
      var p := newPoints[index];
      newPoints := newPoints[index := if axis == X then p.(x := value) else p.(y := value)];
      points := newPoints;
      isCurveVisible := false;
    }

    /** Restores a fresh copy of the initial points and hides the curve. */
    method Reset()
      modifies this
      ensures Valid()
      ensures points == InitialPoints && !isCurveVisible
      ensures Samples() == []
    {
      points := InitialPoints;
      isCurveVisible := false;
    }

    /** Shows the curve; the points are untouched, and with the three points of a
        valid editor the table then holds five samples. */
    method HandleMakeCurve()
      modifies this
      ensures points == old(points) && isCurveVisible
      ensures old(Valid()) ==> Valid() && |Samples()| == 5
    {
      isCurveVisible := true;
    }
  }
}
