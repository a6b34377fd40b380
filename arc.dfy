/**
 * The elliptical-arc conversions of `arc2cubic.py`, which follow appendix
 * F.6.4 to F.6.6 of the SVG 1.1 implementation notes and, for one small arc,
 * Riskus's cubic approximation: the endpoint and centre parameterisations of
 * an arc, and the split of an arc, an ellipse or a circle into cubic Bezier
 * segments of at most a quarter turn each.
 *
 * The trigonometry is floating point in the Python code. Here `sin`, `cos`,
 * `acos` and `sqrt` are the fields of a `MathLib` value, known only through
 * `ValidMath` (the laws of the real functions the model needs), and all
 * arithmetic is over `real`. What is proved is the discrete logic: the
 * guards, the flags, the segment count, the shape of the segment list and
 * the closure of the ellipse.
 */
module ArcToCubic {
  import opened Common

  /** The library functions the conversions call, and the constant pi. */
  datatype MathLib = MathLib(sin: real -> real, cos: real -> real, acos: real -> real,
                             sqrt: real -> real, pi: real)

  /** The laws of the real functions that the proofs use: pi is positive,
      `sqrt` is the non-negative square root, `acos` maps [-1, 1] into
      [0, pi], the angle 0 has cosine 1 and sine 0, and sine and cosine
      lie on the unit circle. */
  ghost predicate ValidMath(m: MathLib) {
    && m.pi > 0.0
    && m.sin(0.0) == 0.0 && m.cos(0.0) == 1.0
    && (forall x :: x >= 0.0 ==> m.sqrt(x) >= 0.0 && m.sqrt(x) * m.sqrt(x) == x)
    && (forall x :: -1.0 <= x <= 1.0 ==> 0.0 <= m.acos(x) <= m.pi)
    && (forall t :: m.sin(t) * m.sin(t) + m.cos(t) * m.cos(t) == 1.0)
  }

  /** Three more laws of the real sine and cosine, needed only to show that
      a split succeeds: the cross product of the unit-circle points at `a`
      and `b` is `sin(b - a)`, and sine is positive on (0, pi/2] and
      negative on [-pi/2, 0). */
  ghost predicate SineLaws(m: MathLib) {
    && (forall a, b {:trigger Cross(UnitPoint(m, a), UnitPoint(m, b))} ::
          Cross(UnitPoint(m, a), UnitPoint(m, b)) == m.sin(b - a))
    && (forall t :: 0.0 < t <= m.pi / 2.0 ==> m.sin(t) > 0.0)
    && (forall t :: -m.pi / 2.0 <= t < 0.0 ==> m.sin(t) < 0.0)
  }

  /** `fabs`. */
  function Abs(x: real): real {
    if x < 0.0 then -x else x
  }

  function Dot(u: Point, v: Point): real {
    u.x * v.x + u.y * v.y
  }

  function Cross(u: Point, v: Point): real {
    u.x * v.y - u.y * v.x
  }

  /** `numpy.linalg.norm` of a plane vector. */
  function Norm(m: MathLib, u: Point): real {
    m.sqrt(Dot(u, u))
  }

  // ---------------------------------------------------------------------
  // Point transformations

  /** `scale(x, y, sx, sy)`. */
  function Scale(p: Point, sx: real, sy: real): (r: Point)
    ensures r.x == p.x * sx && r.y == p.y * sy
    ensures sx == 1.0 && sy == 1.0 ==> r == p
    ensures sx != 0.0 && sy != 0.0 ==> Point(r.x / sx, r.y / sy) == p
  {
    DivideOut(p.x, sx);
    DivideOut(p.y, sy);
    assert sx != 0.0 && sy != 0.0 ==> Point(p.x * sx / sx, p.y * sy / sy) == p;
    Point(p.x * sx, p.y * sy)
  }

  lemma DivideOut(v: real, k: real)
    ensures k != 0.0 ==> v * k / k == v
  {
  }

  /** `translate(x, y, dx, dy)`. */
  function Translate(p: Point, dx: real, dy: real): (r: Point)
    ensures Point(r.x - dx, r.y - dy) == p
  {
    Point(p.x + dx, p.y + dy)
  }

  /** `rotate(x, y, theta)`: the rotation matrix [[cos, -sin], [sin, cos]]
      applied to the point. */
  function Rotate(m: MathLib, p: Point, theta: real): (r: Point)
    ensures ValidMath(m) ==> Dot(r, r) == Dot(p, p)
  {
    var c, s := m.cos(theta), m.sin(theta);
    assert ValidMath(m) ==> c * c + s * s == 1.0;
    RotationKeepsLength(c, s, p);
    Point(c * p.x - s * p.y, s * p.x + c * p.y)
  }

  lemma RotationKeepsLength(c: real, s: real, p: Point)
    ensures var q := Point(c * p.x - s * p.y, s * p.x + c * p.y);
      Dot(q, q) == (c * c + s * s) * Dot(p, p)
  {
  }

  /** Translating and then translating back, or by two offsets in turn. */
  lemma TranslateComposes(p: Point, dx: real, dy: real, ex: real, ey: real)
    ensures Translate(Translate(p, dx, dy), ex, ey) == Translate(p, dx + ex, dy + ey)
    ensures Translate(Translate(p, dx, dy), -dx, -dy) == p
  {
  }

  /** Scaling by two factors in turn is scaling by their product. */
  lemma ScaleComposes(p: Point, sx: real, sy: real, tx: real, ty: real)
    ensures Scale(Scale(p, sx, sy), tx, ty) == Scale(p, sx * tx, sy * ty)
  {
  }

  /** The rotation by the angle 0 leaves every point in place. */
  lemma RotateByZero(m: MathLib, p: Point)
    requires ValidMath(m)
    ensures Rotate(m, p, 0.0) == p
  {
  }

  /** A point of a unit-circle segment carried onto the ellipse: scaled by
      the radii, rotated by the axis rotation, moved to the centre. */
  function MapPoint(m: MathLib, p: Point, rx: real, ry: real, rotation: real, cx: real, cy: real): Point {
    Translate(Rotate(m, Scale(p, rx, ry), rotation), cx, cy)
  }

  function MapSegment(m: MathLib, seg: Segment, rx: real, ry: real, rotation: real, cx: real, cy: real): Segment {
    Segment(MapPoint(m, seg.p0, rx, ry, rotation, cx, cy), MapPoint(m, seg.p1, rx, ry, rotation, cx, cy),
            MapPoint(m, seg.p2, rx, ry, rotation, cx, cy), MapPoint(m, seg.p3, rx, ry, rotation, cx, cy))
  }

  /** Without axis rotation a point is only scaled and moved. */
  lemma UnrotatedMap(m: MathLib, p: Point, rx: real, ry: real, cx: real, cy: real)
    requires ValidMath(m)
    ensures MapPoint(m, p, rx, ry, 0.0, cx, cy) == Point(p.x * rx + cx, p.y * ry + cy)
  {
    RotateByZero(m, Scale(p, rx, ry));
  }

  // ---------------------------------------------------------------------
  // Endpoint and centre parameterisations

  /** `angleBetween(u, v)`: the angle from `u` to `v`, signed by their cross
      product. A zero vector makes numpy divide by zero and the result is
      NaN; an argument outside [-1, 1] would make `acos` raise. */
  function AngleBetween(m: MathLib, u: Point, v: Point): (r: Result<real>)
    ensures r == Err(NotANumber) <==> Norm(m, u) * Norm(m, v) == 0.0
    ensures ValidMath(m) && r.Ok? ==> -m.pi <= r.value <= m.pi
    ensures ValidMath(m) && r.Ok? ==> (Cross(u, v) < 0.0 ==> r.value <= 0.0) && (Cross(u, v) >= 0.0 ==> r.value >= 0.0)
  {
    var sign := if Cross(u, v) < 0.0 then -1.0 else 1.0;
    var d := Norm(m, u) * Norm(m, v);
    if d == 0.0 then Err(NotANumber)
    else
      var c := Dot(u, v) / d;
      if c < -1.0 || c > 1.0 then Err(MathDomain) else Ok(sign * m.acos(c))
  }

  /** Over the reals the cosine of two vectors never leaves [-1, 1]: the
      squares of their dot and cross products add up to the product of
      their squared lengths. */
  lemma CauchySchwarz(u: Point, v: Point)
    ensures Dot(u, v) * Dot(u, v) + Cross(u, v) * Cross(u, v) == Dot(u, u) * Dot(v, v)
  {
  }

  lemma AboveMinusOne(x: real)
    requires x * x <= 1.0
    ensures x >= -1.0
  {
  }

  /** The arc as end points, radii, axis rotation and the two flags
      (`arcCenterToEndpoint`'s result and `arcEndpointToCenter`'s input). */
  datatype EndpointArc = EndpointArc(x1: real, y1: real, x2: real, y2: real, rx: real, ry: real, phi: real,
                                     largeArc: bool, sweep: bool)

  /** A pair of radii. */
  datatype Radii = Radii(rx: real, ry: real)

  /** The arc as centre, radii, axis rotation, start angle and swept angle. */
  datatype CenterArc = CenterArc(cx: real, cy: real, rx: real, ry: real, phi: real, theta1: real, delta: real)

  /** The point at angle `t` of the ellipse with centre (cx, cy), radii rx
      and ry, and axis rotation `phi`. */
  function EllipsePoint(m: MathLib, cx: real, cy: real, rx: real, ry: real, phi: real, t: real): Point {
    Translate(Rotate(m, Point(rx * m.cos(t), ry * m.sin(t)), phi), cx, cy)
  }

  /** `arcCenterToEndpoint`: the end points are the ellipse's points at the
      start and end angles; the arc is large when it sweeps more than half a
      turn, and the sweep flag says it runs in the positive direction. */
  function ArcCenterToEndpoint(m: MathLib, cx: real, cy: real, rx: real, ry: real, phi: real,
                               theta1: real, delta: real): (r: EndpointArc)
    ensures Point(r.x1, r.y1) == EllipsePoint(m, cx, cy, rx, ry, phi, theta1)
    ensures Point(r.x2, r.y2) == EllipsePoint(m, cx, cy, rx, ry, phi, theta1 + delta)
    ensures r.rx == rx && r.ry == ry && r.phi == phi
    ensures r.largeArc <==> delta < -m.pi || delta > m.pi
    ensures r.sweep <==> delta > 0.0
  {
    var p1 := EllipsePoint(m, cx, cy, rx, ry, phi, theta1);
    var p2 := EllipsePoint(m, cx, cy, rx, ry, phi, theta1 + delta);
    EndpointArc(p1.x, p1.y, p2.x, p2.y, rx, ry, phi, Abs(delta) > m.pi, delta > 0.0)
  }

  /** Section F.6.6: radii too small to join the end points are scaled up,
      both by the same factor, the square root of `lambda`. */
  function CorrectRadii(m: MathLib, ax: real, ay: real, x1p: real, y1p: real): (r: Radii)
    requires ValidMath(m) && ax > 0.0 && ay > 0.0
    ensures r.rx >= ax && r.ry >= ay
    ensures r.rx * ay == r.ry * ax
    ensures RadiiExcess(ax, ay, x1p, y1p) <= 1.0 ==> r == Radii(ax, ay)
  {
    var lambda := RadiiExcess(ax, ay, x1p, y1p);
    if lambda > 1.0 then
      var s := m.sqrt(lambda);
      SqrtAboveOne(m, lambda);
      Radii(s * ax, s * ay)
    else Radii(ax, ay)
  }

  /** `lambda_`: how far the end points lie outside the ellipse with the
      given radii (more than 1 when they do). */
  function RadiiExcess(ax: real, ay: real, x1p: real, y1p: real): real
    requires ax > 0.0 && ay > 0.0
  {
    x1p * x1p / (ax * ax) + y1p * y1p / (ay * ay)
  }

  lemma SqrtAboveOne(m: MathLib, x: real)
    requires ValidMath(m) && x > 1.0
    ensures m.sqrt(x) > 1.0
  {
    var s := m.sqrt(x);
    assert s >= 0.0 && s * s == x;
    RootAboveOne(s, x);
  }

  lemma RootAboveOne(s: real, x: real)
    requires s >= 0.0 && s * s == x && x > 1.0
    ensures s > 1.0
  {
    if s <= 1.0 {
      SquareAtMostOne(s);
    }
  }

  lemma SquareAtMostOne(s: real)
    requires 0.0 <= s <= 1.0
    ensures s * s <= 1.0
  {
    assert s * s <= s * 1.0;
  }

  /** Step 2 of F.6.5: the radicand of the centre offset, clamped at 0.
      When its denominator is 0 (the end points coincide) numpy's division
      yields NaN, or infinity and then a NaN centre. */
  function Radicand(rx: real, ry: real, x1p: real, y1p: real): (r: Result<real>)
    ensures r.Ok? ==> r.value >= 0.0
    ensures r.Err? ==> r == Err(NotANumber)
    ensures x1p == 0.0 && y1p == 0.0 ==> r.Err?
  {
    var den := (rx * y1p) * (rx * y1p) + (ry * x1p) * (ry * x1p);
    if den == 0.0 then Err(NotANumber)
    else
      var q := ((rx * ry) * (rx * ry) - (rx * y1p) * (rx * y1p) - (ry * x1p) * (ry * x1p)) / den;
      Ok(if q < 0.0 then 0.0 else q)
  }

  /** The sign of the centre offset: -1 when the large-arc flag equals the
      sweep flag, otherwise +1. */
  function CentreSign(largeArc: bool, sweep: bool): (r: real)
    ensures r == 1.0 || r == -1.0
    ensures r == -1.0 <==> largeArc == sweep
  {
    if largeArc == sweep then -1.0 else 1.0
  }

  /** Step 4 of F.6.5, the last two lines: the swept angle is moved by a
      full turn when its direction disagrees with the sweep flag. */
  function NormaliseSweep(delta: real, sweep: bool, pi: real): (r: real)
    ensures r == delta || r == delta - 2.0 * pi || r == delta + 2.0 * pi
    ensures pi > 0.0 && -pi <= delta <= pi ==>
      (sweep ==> 0.0 <= r <= 2.0 * pi) && (!sweep ==> -2.0 * pi <= r <= 0.0)
  {
    var d := if !sweep && delta > 0.0 then delta - 2.0 * pi else delta;
    if sweep && d < 0.0 then d + 2.0 * pi else d
  }

  const ZeroRadiiMessage := "Use a \"line to\" command instead of arc with zero x and y radii."

  /** Step 1 of F.6.5: half the difference of the end points, in the
      frame of the ellipse's axes. */
  function HalfChord(m: MathLib, x1: real, y1: real, x2: real, y2: real, phi: real): Point {
    var c, s := m.cos(phi), m.sin(phi);
    Point(c * ((x1 - x2) / 2.0) + s * ((y1 - y2) / 2.0), -s * ((x1 - x2) / 2.0) + c * ((y1 - y2) / 2.0))
  }

  /** The half chord keeps its length in the frame of the axes: the step
      only rotates it. */
  lemma HalfChordLength(m: MathLib, x1: real, y1: real, x2: real, y2: real, phi: real)
    requires ValidMath(m)
    ensures var p := HalfChord(m, x1, y1, x2, y2, phi);
      var d := Point((x1 - x2) / 2.0, (y1 - y2) / 2.0);
      Dot(p, p) == Dot(d, d)
  {
    var c, s := m.cos(phi), m.sin(phi);
    var d := Point((x1 - x2) / 2.0, (y1 - y2) / 2.0);
    RotationKeepsLength(c, -s, d);
    assert c * c + (-s) * (-s) == 1.0;
    assert HalfChord(m, x1, y1, x2, y2, phi) == Point(c * d.x - (-s) * d.y, (-s) * d.x + c * d.y);
  }

  /** Step 2 of F.6.5: the centre in the frame of the axes. */
  function CentreOffset(root: real, radii: Radii, p: Point): Point
    requires radii.rx > 0.0 && radii.ry > 0.0
  {
    Point(root * (radii.rx * p.y / radii.ry), root * (-radii.ry * p.x / radii.rx))
  }

  /** Step 4 of F.6.5: the unit-circle vector from the centre to `p`. */
  function Normalised(p: Point, centre: Point, radii: Radii): Point
    requires radii.rx > 0.0 && radii.ry > 0.0
  {
    Point((p.x - centre.x) / radii.rx, (p.y - centre.y) / radii.ry)
  }

  /** `arcEndpointToCenter(x1, y1, x2, y2, rx, ry, phi, large_arc, sweep)`. */
  function ArcEndpointToCenter(m: MathLib, x1: real, y1: real, x2: real, y2: real, rx: real, ry: real,
                               phi: real, largeArc: bool, sweep: bool): (r: Result<CenterArc>)
    requires ValidMath(m)
    ensures rx == 0.0 || ry == 0.0 ==> r == Err(AssertionFailed(ZeroRadiiMessage))
    ensures r.Ok? ==> r.value.rx >= Abs(rx) > 0.0 && r.value.ry >= Abs(ry) > 0.0
    ensures r.Ok? ==> r.value.phi == phi && -m.pi <= r.value.theta1 <= m.pi
    ensures r.Ok? ==> (sweep ==> 0.0 <= r.value.delta <= 2.0 * m.pi) && (!sweep ==> -2.0 * m.pi <= r.value.delta <= 0.0)
  {
    var p := HalfChord(m, x1, y1, x2, y2, phi);
    if rx == 0.0 || ry == 0.0 then Err(AssertionFailed(ZeroRadiiMessage))
    else
      var radii := CorrectRadii(m, Abs(rx), Abs(ry), p.x, p.y);
      var radicand :- Radicand(radii.rx, radii.ry, p.x, p.y);
      var cp := CentreOffset(CentreSign(largeArc, sweep) * m.sqrt(radicand), radii, p);
      var centre := Translate(Rotate(m, cp, phi), (x1 + x2) / 2.0, (y1 + y2) / 2.0);
      var u := Normalised(p, cp, radii);
      var v := Normalised(Point(-p.x, -p.y), cp, radii);
      var theta1 :- AngleBetween(m, Point(1.0, 0.0), u);
      var delta :- AngleBetween(m, u, v);
      Ok(CenterArc(centre.x, centre.y, radii.rx, radii.ry, phi, theta1, NormaliseSweep(delta, sweep, m.pi)))
  }

  /** Two end points that coincide, with non-zero radii, give a NaN centre. */
  lemma CoincidentEndpoints(m: MathLib, x: real, y: real, rx: real, ry: real, phi: real, largeArc: bool, sweep: bool)
    requires ValidMath(m) && rx != 0.0 && ry != 0.0
    ensures ArcEndpointToCenter(m, x, y, x, y, rx, ry, phi, largeArc, sweep) == Err(NotANumber)
  {
    assert HalfChord(m, x, y, x, y, phi) == Point(0.0, 0.0);
  }

  /** The flags `arcCenterToEndpoint` computes from a swept angle make
      `arcEndpointToCenter` turn the same way: whatever angle in [-pi, pi]
      `angleBetween` measures, the normalised swept angle has the sign of
      the original one. */
  lemma SweepFlagRoundTrip(m: MathLib, cx: real, cy: real, rx: real, ry: real, phi: real,
                           theta1: real, delta: real, measured: real)
    requires m.pi > 0.0 && -m.pi <= measured <= m.pi
    ensures var e := ArcCenterToEndpoint(m, cx, cy, rx, ry, phi, theta1, delta);
      var d := NormaliseSweep(measured, e.sweep, m.pi);
      (delta > 0.0 ==> d >= 0.0) && (delta <= 0.0 ==> d <= 0.0)
  {
  }

  // ---------------------------------------------------------------------
  // One small arc

  /** `smallArc(theta, delta_theta)`: Riskus's cubic for the unit-circle arc
      from angle `theta` over `delta_theta`. The square root raises on a
      negative argument, and the division is one of Python floats, which
      raises when the two end points are parallel. */
  function SmallArc(m: MathLib, theta: real, delta: real): Result<Segment> {
    var p, q := UnitPoint(m, theta), UnitPoint(m, theta + delta);
    var q1 := Dot(p, p);
    var q2 := q1 + Dot(p, q);
    if 2.0 * q1 * q2 < 0.0 then Err(MathDomain)
    else if Cross(p, q) == 0.0 then Err(ZeroDivision)
    else Ok(RiskusSegment(p, q, (4.0 / 3.0) * (m.sqrt(2.0 * q1 * q2) - q2) / Cross(p, q)))
  }

  /** A small arc runs from the point at `theta` to the point at
      `theta + delta`; it fails only on the square root's domain or on the
      division by the cross product of its end points, which is then 0. */
  lemma SmallArcEnds(m: MathLib, theta: real, delta: real)
    ensures var r := SmallArc(m, theta, delta);
      && (r.Ok? ==> r.value.p0 == UnitPoint(m, theta) && r.value.p3 == UnitPoint(m, theta + delta))
      && (r.Ok? ==> Cross(UnitPoint(m, theta), UnitPoint(m, theta + delta)) != 0.0)
      && (r.Err? ==> r == Err(MathDomain) || r == Err(ZeroDivision))
      && (r == Err(ZeroDivision) ==> Cross(UnitPoint(m, theta), UnitPoint(m, theta + delta)) == 0.0)
  {
  }

  /** The cubic from `p` to `q` whose control points lie `k` times the
      quarter-turned radius away along the tangents (with the Python code's
      corrected sign at `q`). */
  function RiskusSegment(p: Point, q: Point, k: real): Segment {
    Segment(p, Point(p.x - k * p.y, p.y + k * p.x), Point(q.x + k * q.y, q.y - k * q.x), q)
  }

  /** The control points of a small arc lie on the tangents at its end
      points, as a circular arc's do. */
  lemma SmallArcTangents(p: Point, q: Point, k: real)
    ensures var r := RiskusSegment(p, q, k);
      Dot(Sub(r.p1, r.p0), r.p0) == 0.0 && Dot(Sub(r.p2, r.p3), r.p3) == 0.0
  {
  }

  /** The point at angle `t` of the unit circle. */
  function UnitPoint(m: MathLib, t: real): Point {
    Point(m.cos(t), m.sin(t))
  }

  /** Over the reals the square root's argument is never negative, so a
      small arc fails exactly when its end points are parallel, in
      particular when it sweeps no angle at all. */
  lemma SmallArcDefined(m: MathLib, theta: real, delta: real)
    requires ValidMath(m)
    ensures SmallArc(m, theta, delta).Ok? <==> Cross(UnitPoint(m, theta), UnitPoint(m, theta + delta)) != 0.0
    ensures delta == 0.0 ==> SmallArc(m, theta, delta) == Err(ZeroDivision)
  {
    var p, q := UnitPoint(m, theta), UnitPoint(m, theta + delta);
    assert Dot(p, p) == 1.0 && Dot(q, q) == 1.0;
    CauchySchwarz(p, q);
    assert Dot(p, q) * Dot(p, q) <= 1.0 by {
      assert Cross(p, q) * Cross(p, q) >= 0.0;
    }
    AboveMinusOne(Dot(p, q));
    assert 2.0 * Dot(p, p) * (Dot(p, p) + Dot(p, q)) >= 0.0;
  }

  /** With the sine laws, a small arc that sweeps a non-zero angle of at
      most a quarter turn always succeeds: its end points are
      `sin(delta)` apart in cross product, which is not 0. */
  lemma SmallArcSucceeds(m: MathLib, theta: real, delta: real)
    requires ValidMath(m) && SineLaws(m)
    requires delta != 0.0 && -m.pi / 2.0 <= delta <= m.pi / 2.0
    ensures SmallArc(m, theta, delta).Ok?
  {
    SmallArcDefined(m, theta, delta);
    assert Cross(UnitPoint(m, theta), UnitPoint(m, theta + delta)) == m.sin(theta + delta - theta);
    assert theta + delta - theta == delta;
  }

  function Sub(p: Point, q: Point): Point {
    Point(p.x - q.x, p.y - q.y)
  }

  // ---------------------------------------------------------------------
  // Splitting an arc into small arcs

  /** The least n >= 1 with n * pi / 2 >= |delta|: the number of quarter
      turns the arc needs, rounded up. */
  function SegmentCount(delta: real, pi: real): (n: nat)
    requires pi > 0.0
    ensures n >= 1 && (n as real) * pi / 2.0 >= Abs(delta)
    ensures n == 1 || ((n - 1) as real) * pi / 2.0 < Abs(delta)
  {
    var x := 2.0 * Abs(delta) / pi;
    var c := -((-x).Floor);
    QuarterTurns(Abs(delta), pi);
    Ceiling(x);
    if c < 1 then
      Monotone(x, 1.0, pi);
      1
    else
      CountBounds(c, x, Abs(delta), pi);
      c
  }

  lemma CountBounds(c: int, x: real, d: real, pi: real)
    requires pi > 0.0 && x * pi / 2.0 == d && c as real >= x && ((c - 1) as real) < x
    ensures (c as real) * pi / 2.0 >= d && ((c - 1) as real) * pi / 2.0 < d
  {
    Monotone(x, c as real, pi);
    StrictlyMonotone((c - 1) as real, x, pi);
  }

  /** `-floor(-x)` is the ceiling of `x`. */
  lemma Ceiling(x: real)
    ensures var c := -((-x).Floor); c as real >= x && ((c - 1) as real) < x
  {
    var f := (-x).Floor;
    assert f as real <= -x < (f as real) + 1.0;
    assert (-f) as real == -(f as real);
  }

  lemma StrictlyMonotone(a: real, b: real, pi: real)
    requires pi > 0.0 && a < b
    ensures a * pi / 2.0 < b * pi / 2.0
  {
  }

  /** `2 * d / pi` quarter turns of `pi / 2` each make up `d`. */
  lemma QuarterTurns(d: real, pi: real)
    requires pi > 0.0
    ensures (2.0 * d / pi) * pi / 2.0 == d
  {
  }

  lemma Monotone(a: real, b: real, pi: real)
    requires pi > 0.0 && a <= b
    ensures a * pi / 2.0 <= b * pi / 2.0
  {
  }

  /** The Python `while` loop finds the least count: with it each small
      arc sweeps at most a quarter turn. */
  lemma SmallArcsAtMostQuarterTurn(delta: real, pi: real)
    requires pi > 0.0
    ensures var n := SegmentCount(delta, pi);
      -pi / 2.0 <= delta / (n as real) <= pi / 2.0
  {
    var n := SegmentCount(delta, pi);
    DivideBound(Abs(delta), n as real, pi / 2.0);
    assert Abs(delta / (n as real)) == Abs(delta) / (n as real);
  }

  lemma DivideBound(d: real, n: real, q: real)
    requires n >= 1.0 && d <= n * q
    ensures d / n <= q
  {
  }

  /** An arc of at most a full turn needs at most four small arcs. */
  lemma AtMostFourSegments(delta: real, pi: real)
    requires pi > 0.0 && Abs(delta) <= 2.0 * pi
    ensures SegmentCount(delta, pi) <= 4
  {
    var n := SegmentCount(delta, pi);
    if n > 4 {
      Monotone(4.0, (n - 1) as real, pi);
    }
  }

  /** The full turn of an ellipse takes exactly four small arcs. */
  lemma FullTurnFourSegments(pi: real)
    requires pi > 0.0
    ensures SegmentCount(2.0 * pi, pi) == 4
  {
    var n := SegmentCount(2.0 * pi, pi);
    AtMostFourSegments(2.0 * pi, pi);
    if n < 4 {
      Monotone(n as real, 3.0, pi);
    }
  }

  /** Where the unit-circle segments are carried: the ellipse's centre,
      radii and axis rotation. */
  datatype Placement = Placement(cx: real, cy: real, rx: real, ry: real, rotation: real)

  function Place(m: MathLib, seg: Segment, at: Placement): Segment {
    MapSegment(m, seg, at.rx, at.ry, at.rotation, at.cx, at.cy)
  }

  /** The `k` segments of a split that starts at angle `theta` and
      advances by `step` after each small arc, as the Python loop does;
      the first small arc that fails makes the whole split fail. */
  function Subarcs(m: MathLib, at: Placement, theta: real, step: real, k: nat): Result<seq<Segment>>
    decreases k
  {
    if k == 0 then Ok([])
    else
      var small :- SmallArc(m, theta, step);
      var rest :- Subarcs(m, at, theta + step, step, k - 1);
      Ok([Place(m, small, at)] + rest)
  }

  /** The angle after `j` steps of `step` from `theta`. */
  function AngleAfter(theta: real, step: real, j: nat): real {
    if j == 0 then theta else AngleAfter(theta, step, j - 1) + step
  }

  /** The small arc taken after `j` steps. */
  function SmallArcAfter(m: MathLib, theta: real, step: real, j: nat): Result<Segment> {
    SmallArc(m, AngleAfter(theta, step, j), step)
  }

  /** Over the reals, `j` steps of `step` add up to `j * step`. */
  lemma {:induction false} AngleClosedForm(theta: real, step: real, j: nat)
    ensures AngleAfter(theta, step, j) == theta + (j as real) * step
  {
    if j > 0 {
      AngleClosedForm(theta, step, j - 1);
      NextAngle(theta, step, j - 1);
    }
  }

  /** Adding `step` once more is the next multiple of it. */
  lemma NextAngle(theta: real, step: real, i: nat)
    ensures theta + (i as real) * step + step == theta + ((i + 1) as real) * step
  {
  }

  /** Starting one step later is the same as taking one step more. */
  lemma {:induction false} AngleShift(theta: real, step: real, j: nat)
    ensures AngleAfter(theta + step, step, j) == AngleAfter(theta, step, j + 1)
  {
    if j > 0 {
      AngleShift(theta, step, j - 1);
    }
  }

  /** The `j`-th small arc of a split from `theta1` in steps of `step`. */
  function SmallArcAt(m: MathLib, theta1: real, step: real, j: nat): Result<Segment> {
    SmallArc(m, theta1 + (j as real) * step, step)
  }

  /** `prefix` followed by the segments of `r`, if there are any. */
  function Prepend(prefix: seq<Segment>, r: Result<seq<Segment>>): Result<seq<Segment>> {
    match r
    case Ok(rest) => Ok(prefix + rest)
    case Err(e) => Err(e)
  }

  /** What `arcCenterToCubic` returns. */
  function CenterToCubic(m: MathLib, at: Placement, theta1: real, delta: real): Result<seq<Segment>>
    requires m.pi > 0.0
  {
    var n := SegmentCount(delta, m.pi);
    Subarcs(m, at, theta1, delta / (n as real), n)
  }

  /** The split succeeds exactly when every small arc does, and then holds
      one segment for each, in order of angle. */
  lemma {:induction false} SubarcsShape(m: MathLib, at: Placement, theta: real, step: real, k: nat)
    ensures var r := Subarcs(m, at, theta, step, k);
      && (r.Ok? <==> forall j :: 0 <= j < k ==> SmallArcAfter(m, theta, step, j).Ok?)
      && (r.Ok? ==> |r.value| == k)
      && (r.Ok? ==> forall j :: 0 <= j < k ==>
            r.value[j] == Place(m, SmallArcAfter(m, theta, step, j).value, at))
    decreases k
  {
    if k > 0 {
      var next := theta + step;
      SubarcsShape(m, at, next, step, k - 1);
      forall j | 0 <= j < k - 1
        ensures SmallArcAfter(m, next, step, j) == SmallArcAfter(m, theta, step, j + 1)
      {
        AngleShift(theta, step, j);
      }
      var r := Subarcs(m, at, theta, step, k);
      if r.Ok? {
        var rest := Subarcs(m, at, next, step, k - 1).value;
        assert r.value == [Place(m, SmallArc(m, theta, step).value, at)] + rest;
        forall j | 0 <= j < k
          ensures SmallArcAfter(m, theta, step, j).Ok?
          ensures r.value[j] == Place(m, SmallArcAfter(m, theta, step, j).value, at)
        {
          if j > 0 {
            assert r.value[j] == rest[j - 1];
          }
        }
      } else if SmallArc(m, theta, step).Ok? {
        var j :| 0 <= j < k - 1 && !SmallArcAfter(m, next, step, j).Ok?;
        assert !SmallArcAfter(m, theta, step, j + 1).Ok?;
      } else {
        assert !SmallArcAfter(m, theta, step, 0).Ok?;
      }
    }
  }

  /** The first `k` small arcs, found by stepping, are the ones at the
      multiples of the step. */
  lemma StepsClosedForm(m: MathLib, theta: real, step: real, k: nat)
    ensures forall j :: 0 <= j < k ==> SmallArcAfter(m, theta, step, j) == SmallArcAt(m, theta, step, j)
  {
    forall j | 0 <= j < k
      ensures SmallArcAfter(m, theta, step, j) == SmallArcAt(m, theta, step, j)
    {
      AngleClosedForm(theta, step, j);
    }
  }

  /** `arcCenterToCubic` returns one segment for each of its small arcs:
      segment `j` starts at angle `theta1 + j * delta / n` and each sweeps
      `delta / n`, at most a quarter turn. */
  lemma CenterToCubicShape(m: MathLib, at: Placement, theta1: real, delta: real)
    requires m.pi > 0.0
    ensures var n := SegmentCount(delta, m.pi);
      var step := delta / (n as real);
      var r := CenterToCubic(m, at, theta1, delta);
      && -m.pi / 2.0 <= step <= m.pi / 2.0
      && (r.Ok? <==> forall j :: 0 <= j < n ==> SmallArcAt(m, theta1, step, j).Ok?)
      && (r.Ok? ==> |r.value| == n)
      && (r.Ok? ==> forall j :: 0 <= j < n ==>
            r.value[j] == Place(m, SmallArcAt(m, theta1, step, j).value, at))
  {
    var n := SegmentCount(delta, m.pi);
    var step := delta / (n as real);
    SubarcsShape(m, at, theta1, step, n);
    StepsClosedForm(m, theta1, step, n);
    SmallArcsAtMostQuarterTurn(delta, m.pi);
  }

  /** With the sine laws, `arcCenterToCubic` succeeds exactly when the arc
      sweeps a non-zero angle; a zero `delta_theta` raises ZeroDivisionError
      in the one small arc. */
  lemma CenterToCubicSucceeds(m: MathLib, at: Placement, theta1: real, delta: real)
    requires ValidMath(m) && SineLaws(m)
    ensures CenterToCubic(m, at, theta1, delta).Ok? <==> delta != 0.0
    ensures delta == 0.0 ==> CenterToCubic(m, at, theta1, delta) == Err(ZeroDivision)
  {
    if delta == 0.0 {
      ZeroSweepFails(m, at, theta1);
    } else {
      NonZeroSweepSucceeds(m, at, theta1, delta);
    }
  }

  lemma ZeroSweepFails(m: MathLib, at: Placement, theta1: real)
    requires ValidMath(m)
    ensures CenterToCubic(m, at, theta1, 0.0) == Err(ZeroDivision)
  {
    assert SegmentCount(0.0, m.pi) == 1;
    SmallArcDefined(m, theta1, 0.0);
    assert 0.0 / (1 as real) == 0.0;
    assert Subarcs(m, at, theta1, 0.0, 1) == Err(ZeroDivision);
  }

  lemma NonZeroSweepSucceeds(m: MathLib, at: Placement, theta1: real, delta: real)
    requires ValidMath(m) && SineLaws(m) && delta != 0.0
    ensures CenterToCubic(m, at, theta1, delta).Ok?
  {
    var n := SegmentCount(delta, m.pi);
    var step := delta / (n as real);
    SmallArcsAtMostQuarterTurn(delta, m.pi);
    NonZeroQuotient(delta, n as real);
    SmallArcsSucceed(m, theta1, step, n);
    CenterToCubicShape(m, at, theta1, delta);
  }

  lemma NonZeroQuotient(a: real, b: real)
    requires a != 0.0 && b != 0.0
    ensures a / b != 0.0
  {
    assert a / b * b == a;
  }

  /** Small arcs of a non-zero step of at most a quarter turn all succeed. */
  lemma SmallArcsSucceed(m: MathLib, theta1: real, step: real, n: nat)
    requires ValidMath(m) && SineLaws(m)
    requires step != 0.0 && -m.pi / 2.0 <= step <= m.pi / 2.0
    ensures forall j :: 0 <= j < n ==> SmallArcAt(m, theta1, step, j).Ok?
  {
    forall j | 0 <= j < n
      ensures SmallArcAt(m, theta1, step, j).Ok?
    {
      SmallArcSucceeds(m, theta1 + (j as real) * step, step);
    }
  }

  /** `arcCenterToCubic(cx, cy, rx, ry, theta_1, delta_theta, x_axis_rotation)`. */
  method ArcCenterToCubic(m: MathLib, cx: real, cy: real, rx: real, ry: real, theta1: real, delta: real,
                          rotation: real := 0.0) returns (r: Result<seq<Segment>>)
    requires m.pi > 0.0
    ensures r == CenterToCubic(m, Placement(cx, cy, rx, ry, rotation), theta1, delta)
  {
    var n := CountSegments(delta, m.pi);
    r := SplitArc(m, Placement(cx, cy, rx, ry, rotation), theta1, delta / (n as real), n);
  }

  /** The `while` loop of `arcCenterToCubic`: one more segment while `n`
      quarter turns fall short of the arc. */
  method CountSegments(delta: real, pi: real) returns (n: nat)
    requires pi > 0.0
    ensures n == SegmentCount(delta, pi)
  {
    n := 1;
    while (n as real) * pi / 2.0 < Abs(delta)
      invariant 1 <= n <= SegmentCount(delta, pi)
      decreases SegmentCount(delta, pi) - n
    {
      n := n + 1;
    }
    LeastCount(n, delta, pi);
  }

  /** No count below `SegmentCount` covers the arc. */
  lemma LeastCount(n: nat, delta: real, pi: real)
    requires pi > 0.0 && 1 <= n <= SegmentCount(delta, pi) && (n as real) * pi / 2.0 >= Abs(delta)
    ensures n == SegmentCount(delta, pi)
  {
    var count := SegmentCount(delta, pi);
    if n < count {
      Monotone(n as real, (count - 1) as real, pi);
    }
  }

  /** The `for` loop of `arcCenterToCubic`: `n` small arcs, the angle
      advancing by `step` after each. */
  method SplitArc(m: MathLib, at: Placement, theta1: real, step: real, n: nat) returns (r: Result<seq<Segment>>)
    ensures r == Subarcs(m, at, theta1, step, n)
  {
    var cubic: seq<Segment> := [];
    var theta := theta1;
    PrependNothing(Subarcs(m, at, theta1, step, n));
    for i := 0 to n
      invariant Subarcs(m, at, theta1, step, n) == Prepend(cubic, Subarcs(m, at, theta, step, n - i))
    {
      var small := SmallArc(m, theta, step);
      SplitStep(m, at, theta1, theta, step, n, i, cubic);
      if small.Err? {
        return Err(small.error);
      }
      cubic := cubic + [Place(m, small.value, at)];
      theta := theta + step;
    }
    assert cubic + [] == cubic;
    return Ok(cubic);
  }

  /** One turn of the loop: the first small arc, then the rest. */
  lemma SubarcsStep(m: MathLib, at: Placement, theta: real, step: real, k: nat)
    requires k > 0
    ensures SmallArc(m, theta, step).Err? ==> Subarcs(m, at, theta, step, k) == Err(SmallArc(m, theta, step).error)
    ensures SmallArc(m, theta, step).Ok? ==>
      Subarcs(m, at, theta, step, k) ==
        Prepend([Place(m, SmallArc(m, theta, step).value, at)], Subarcs(m, at, theta + step, step, k - 1))
  {
  }

  /** One turn of the loop keeps its invariant, or ends the split with the
      small arc's error. */
  lemma SplitStep(m: MathLib, at: Placement, theta1: real, theta: real, step: real, n: nat, i: nat,
                  cubic: seq<Segment>)
    requires i < n
    requires Subarcs(m, at, theta1, step, n) == Prepend(cubic, Subarcs(m, at, theta, step, n - i))
    ensures SmallArc(m, theta, step).Err? ==> Subarcs(m, at, theta1, step, n) == Err(SmallArc(m, theta, step).error)
    ensures SmallArc(m, theta, step).Ok? ==>
      Subarcs(m, at, theta1, step, n) ==
        Prepend(cubic + [Place(m, SmallArc(m, theta, step).value, at)], Subarcs(m, at, theta + step, step, n - i - 1))
  {
    SubarcsStep(m, at, theta, step, n - i);
    if SmallArc(m, theta, step).Ok? {
      PrependTwice(cubic, [Place(m, SmallArc(m, theta, step).value, at)], Subarcs(m, at, theta + step, step, n - i - 1));
    }
  }

  lemma PrependNothing(r: Result<seq<Segment>>)
    ensures Prepend([], r) == r
  {
    if r.Ok? {
      assert [] + r.value == r.value;
    }
  }

  lemma PrependTwice(a: seq<Segment>, b: seq<Segment>, r: Result<seq<Segment>>)
    ensures Prepend(a, Prepend(b, r)) == Prepend(a + b, r)
  {
    if r.Ok? {
      assert a + (b + r.value) == (a + b) + r.value;
    }
  }

  /** `cubic[-1][-1] = cubic[0][0]`: the last segment ends where the first
      one starts. */
  function Close(cubic: seq<Segment>): (r: seq<Segment>)
    requires |cubic| > 0
  {
    cubic[|cubic| - 1 := cubic[|cubic| - 1].(p3 := cubic[0].p0)]
  }

  /** What `ellipseToCubic` returns: the split of the full turn from angle
      0, closed. */
  function Ellipse(m: MathLib, cx: real, cy: real, rx: real, ry: real, rotation: real := 0.0): Result<seq<Segment>>
    requires m.pi > 0.0
  {
    var at := Placement(cx, cy, rx, ry, rotation);
    match CenterToCubic(m, at, 0.0, 2.0 * m.pi)
    case Err(e) => Err(e)
    case Ok(cubic) =>
      CenterToCubicShape(m, at, 0.0, 2.0 * m.pi);
      Ok(Close(cubic))
  }

  /** An ellipse is four segments; the first three are those of the full
      turn, the last one too except that it ends exactly where the first
      starts. */
  lemma EllipseClosed(m: MathLib, cx: real, cy: real, rx: real, ry: real, rotation: real)
    requires m.pi > 0.0
    ensures var at := Placement(cx, cy, rx, ry, rotation);
      var r := Ellipse(m, cx, cy, rx, ry, rotation);
      var arc := CenterToCubic(m, at, 0.0, 2.0 * m.pi);
      && (r.Ok? <==> arc.Ok?)
      && (r.Ok? ==> |r.value| == 4 && |arc.value| == 4)
      && (r.Ok? ==> r.value[3].p3 == r.value[0].p0)
      && (r.Ok? ==> r.value[..3] == arc.value[..3] && r.value[3] == arc.value[3].(p3 := arc.value[0].p0))
  {
    var at := Placement(cx, cy, rx, ry, rotation);
    CenterToCubicShape(m, at, 0.0, 2.0 * m.pi);
    FullTurnFourSegments(m.pi);
  }

  /** With the sine laws, `ellipseToCubic` never fails: the full turn is a
      non-zero angle. */
  lemma EllipseSucceeds(m: MathLib, cx: real, cy: real, rx: real, ry: real, rotation: real)
    requires ValidMath(m) && SineLaws(m)
    ensures Ellipse(m, cx, cy, rx, ry, rotation).Ok?
  {
    var at := Placement(cx, cy, rx, ry, rotation);
    FullTurnFourSegments(m.pi);
    forall delta | delta != 0.0
      ensures CenterToCubic(m, at, 0.0, delta).Ok?
    {
      NonZeroSweepSucceeds(m, at, 0.0, delta);
    }
    EllipseOfFullTurn(m, cx, cy, rx, ry, rotation);
  }

  lemma EllipseOfFullTurn(m: MathLib, cx: real, cy: real, rx: real, ry: real, rotation: real)
    requires m.pi > 0.0
    ensures Ellipse(m, cx, cy, rx, ry, rotation).Ok? <==>
      CenterToCubic(m, Placement(cx, cy, rx, ry, rotation), 0.0, 2.0 * m.pi).Ok?
  {
  }

  /** `ellipseToCubic(cx, cy, rx, ry, x_axis_rotation)`. */
  method EllipseToCubic(m: MathLib, cx: real, cy: real, rx: real, ry: real, rotation: real := 0.0)
    returns (r: Result<seq<Segment>>)
    requires m.pi > 0.0
    ensures r == Ellipse(m, cx, cy, rx, ry, rotation)
  {
    r := ArcCenterToCubic(m, cx, cy, rx, ry, 0.0, 2.0 * m.pi, rotation);
    if r.Ok? {
      CenterToCubicShape(m, Placement(cx, cy, rx, ry, rotation), 0.0, 2.0 * m.pi);
      var cubic := r.value;
      cubic := cubic[|cubic| - 1 := cubic[|cubic| - 1].(p3 := cubic[0].p0)];
      r := Ok(cubic);
    }
  }

  /** `circleToCubic(cx, cy, r)`: the ellipse with equal radii and no axis
      rotation. */
  method CircleToCubic(m: MathLib, cx: real, cy: real, radius: real) returns (r: Result<seq<Segment>>)
    requires m.pi > 0.0
    ensures r == Ellipse(m, cx, cy, radius, radius)
  {
    r := EllipseToCubic(m, cx, cy, radius, radius);
  }

  /** What `arcEndpointToCubic` returns. */
  function EndpointToCubic(m: MathLib, x0: real, y0: real, x3: real, y3: real, rx: real, ry: real,
                           rotation: real := 0.0, largeArc: bool := true, sweep: bool := true): Result<seq<Segment>>
    requires ValidMath(m)
  {
    match ArcEndpointToCenter(m, x0, y0, x3, y3, rx, ry, rotation, largeArc, sweep)
    case Err(e) => Err(e)
    case Ok(c) => CenterToCubic(m, Placement(c.cx, c.cy, c.rx, c.ry, rotation), c.theta1, c.delta)
  }

  /** An arc given by its end points is rejected for a zero radius, and
      otherwise takes between one and four segments. */
  lemma EndpointArcSegments(m: MathLib, x0: real, y0: real, x3: real, y3: real, rx: real, ry: real,
                            rotation: real, largeArc: bool, sweep: bool)
    requires ValidMath(m)
    ensures var r := EndpointToCubic(m, x0, y0, x3, y3, rx, ry, rotation, largeArc, sweep);
      && (rx == 0.0 || ry == 0.0 ==> r == Err(AssertionFailed(ZeroRadiiMessage)))
      && (r.Ok? ==> 1 <= |r.value| <= 4)
  {
    var centre := ArcEndpointToCenter(m, x0, y0, x3, y3, rx, ry, rotation, largeArc, sweep);
    if centre.Ok? {
      var c := centre.value;
      CenterToCubicShape(m, Placement(c.cx, c.cy, c.rx, c.ry, rotation), c.theta1, c.delta);
      AtMostFourSegments(c.delta, m.pi);
    }
  }

  /** `arcEndpointToCubic(x0, y0, x3, y3, rx, ry, x_axis_rotation, large_arc, sweep)`. */
  method ArcEndpointToCubic(m: MathLib, x0: real, y0: real, x3: real, y3: real, rx: real, ry: real,
                            rotation: real := 0.0, largeArc: bool := true, sweep: bool := true) returns (r: Result<seq<Segment>>)
    requires ValidMath(m)
    ensures r == EndpointToCubic(m, x0, y0, x3, y3, rx, ry, rotation, largeArc, sweep)
  {
    var centre := ArcEndpointToCenter(m, x0, y0, x3, y3, rx, ry, rotation, largeArc, sweep);
    if centre.Err? {
      return Err(centre.error);
    }
    var c := centre.value;
    r := ArcCenterToCubic(m, c.cx, c.cy, c.rx, c.ry, c.theta1, c.delta, rotation);
  }
}
