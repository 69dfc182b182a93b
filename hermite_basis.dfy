/** Points of the plane and the cubic Hermite basis. The editor (App.tsx) and the
    plot (components/Visualization.tsx) each carry an identical copy of the basis;
    both are modelled by this one module. JS numbers are modelled by exact reals. */
module HermiteBasis {

  /** A control point, tangent or sample: an ordered pair of coordinates. */
  datatype Point = Point(x: real, y: real)

  /** The zero vector, used as the fallback tangent. */
  const Origin: Point := Point(0.0, 0.0)

  /** Weight of the start point P0. */
  function H00(t: real): real { 2.0 * t * t * t - 3.0 * t * t + 1.0 }

  /** Weight of the end point P1. */
  function H10(t: real): real { -2.0 * t * t * t + 3.0 * t * t }

  /** Weight of the start tangent T0. */
  function H01(t: real): real { t * t * t - 2.0 * t * t + t }

  /** Weight of the end tangent T1. */
  function H11(t: real): real { t * t * t - t * t }

  /** One coordinate of the curve at parameter u, blended from that coordinate
      of the two end points and the two tangents. */
  function Blend(p0: real, p1: real, t0: real, t1: real, u: real): real
  {
    H00(u) * p0 + H10(u) * p1 + H01(u) * t0 + H11(u) * t1
  }

  /** The curve point at parameter u; each axis is blended on its own. */
  function Evaluate(p0: Point, p1: Point, t0: Point, t1: Point, u: real): Point
  {
    Point(Blend(p0.x, p1.x, t0.x, t1.x, u), Blend(p0.y, p1.y, t0.y, t1.y, u))
  }

  /** At u = 0 only the start point has weight. */
  lemma BasisAtZero()
    ensures H00(0.0) == 1.0 && H10(0.0) == 0.0 && H01(0.0) == 0.0 && H11(0.0) == 0.0
  {
  }

  /** At u = 1 only the end point has weight. */
  lemma BasisAtOne()
    ensures H10(1.0) == 1.0 && H00(1.0) == 0.0 && H01(1.0) == 0.0 && H11(1.0) == 0.0
  {
  }

  /** The two position weights always sum to one, so the position part of the
      blend is an affine combination of P0 and P1. */
  lemma PositionWeightsSumToOne(u: real)
    ensures H00(u) + H10(u) == 1.0
  {
  }

  /** One coordinate of the curve is p0 at u = 0 and p1 at u = 1. */
  lemma BlendAtEnds(p0: real, p1: real, t0: real, t1: real)
    ensures Blend(p0, p1, t0, t1, 0.0) == p0 && Blend(p0, p1, t0, t1, 1.0) == p1
  {
  }

  /** The curve starts exactly at P0 and ends exactly at P1, whatever the tangents. */
  lemma EvaluateAtEnds(p0: Point, p1: Point, t0: Point, t1: Point)
    ensures Evaluate(p0, p1, t0, t1, 0.0) == p0
    ensures Evaluate(p0, p1, t0, t1, 1.0) == p1
  {
    BlendAtEnds(p0.x, p1.x, t0.x, t1.x);
    BlendAtEnds(p0.y, p1.y, t0.y, t1.y);
  }

  /** A zero start tangent drops the T0 term from the blend (a degenerate but valid input). */
  lemma ZeroStartTangent(p0: Point, p1: Point, t1: Point, u: real)
    ensures Evaluate(p0, p1, Origin, t1, u)
         == Point(H00(u) * p0.x + H10(u) * p1.x + H11(u) * t1.x,
                  H00(u) * p0.y + H10(u) * p1.y + H11(u) * t1.y)
  {
    var w := H01(u);
    assert w * Origin.x == 0.0 && w * Origin.y == 0.0;
    assert Blend(p0.x, p1.x, Origin.x, t1.x, u) == H00(u) * p0.x + H10(u) * p1.x + H11(u) * t1.x;
    assert Blend(p0.y, p1.y, Origin.y, t1.y, u) == H00(u) * p0.y + H10(u) * p1.y + H11(u) * t1.y;
  }
}
