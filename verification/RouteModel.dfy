/** What a granted route means (reset_route.h), as functions: a polyline of the rotation centre with a
    heading and a direction per segment, its samples, and the sweep of a footprint along them
    (reset_planner.cpp, makeSet). Station and vehicle build the same sweep from the same Grant.

    Sine, cosine, bearing and length are given; what is used of them is stated where it is used. */
module RouteModel {
  import opened ResetProtocol
  import opened Geometry
  import opened Bodies

  const SLIVER: real := 0.000000001

  datatype Trig = Trig(cos: real -> real, sin: real -> real, bearing: (real, real) -> real,
                       length: (real, real) -> real)

  /** How finely routes are sampled, and the functions they are sampled with. */
  datatype Gauge = Gauge(trig: Trig, step: real, stepYaw: real)

  ghost predicate GoodGauge(g: Gauge) {
    g.step > 0.0 && g.stepYaw > 0.0 && forall x: real, y: real :: g.trig.length(x, y) >= 0.0
  }

  // ---------------------------------------------------------------- the polyline

  /** One segment's heading and whether it is driven forward. */
  datatype Leg = Leg(heading: real, forward: bool)

  datatype Polyline = Polyline(start: Pose, goal: Pose, ell: real, vertices: seq<Point>,
                               cumulative: seq<real>, legs: seq<Leg>)
  {
    predicate Indexed() { |vertices| >= 2 && |legs| == |vertices| - 1 }
  }

  function Centre(t: Trig, ell: real, p: Pose): Point {
    Point(p.x + ell * t.cos(p.yaw), p.y + ell * t.sin(p.yaw))
  }

  /** The body origin when the rotation centre is at c and the heading is yaw. */
  function Origin(t: Trig, ell: real, c: Point, yaw: real): Pose {
    Pose(c.x - ell * t.cos(yaw), c.y - ell * t.sin(yaw), yaw)
  }

  function Distance(t: Trig, a: Point, b: Point): real { t.length(b.x - a.x, b.y - a.y) }

  function Span(vertices: seq<Point>, j: nat): (real, real)
    requires j + 1 < |vertices|
  {
    (vertices[j + 1].x - vertices[j].x, vertices[j + 1].y - vertices[j].y)
  }

  function Before(start: real, legs: seq<Leg>, j: nat): real
    requires j <= |legs|
  {
    if j == 0 then start else legs[j - 1].heading
  }

  /** Forward or in reverse, whichever needs the smaller rotation. */
  function LegOf(t: Trig, d: (real, real), before: real): Leg {
    if t.length(d.0, d.1) < SLIVER then Leg(before, true)
    else
      var bearing := t.bearing(d.0, d.1);
      var reverse := WrapAngle(bearing + K_PI);
      if Abs(WrapAngle(bearing - before)) <= Abs(WrapAngle(reverse - before)) then Leg(bearing, true)
      else Leg(reverse, false)
  }

  function LegsOf(t: Trig, vertices: seq<Point>, start: real, n: nat): (legs: seq<Leg>)
    requires n < |vertices|
    ensures |legs| == n
  {
    if n == 0 then []
    else
      var legs := LegsOf(t, vertices, start, n - 1);
      legs + [LegOf(t, Span(vertices, n - 1), Before(start, legs, n - 1))]
  }

  function LengthsOf(t: Trig, vertices: seq<Point>, n: nat): (cumulative: seq<real>)
    requires n < |vertices|
    ensures |cumulative| == n + 1
  {
    if n == 0 then [0.0]
    else
      var c := LengthsOf(t, vertices, n - 1);
      c + [c[n - 1] + Distance(t, vertices[n - 1], vertices[n])]
  }

  function BuiltRoute(t: Trig, start: Pose, via: seq<Point>, goal: Pose, ell: real): (r: Polyline)
    ensures r.Indexed()
  {
    var vertices := [Centre(t, ell, start)] + via + [Centre(t, ell, goal)];
    var n := |vertices| - 1;
    Polyline(start, goal, ell, vertices, LengthsOf(t, vertices, n), LegsOf(t, vertices, start.yaw, n))
  }

  // ---------------------------------------------------------------- its samples

  datatype RouteSample = RouteSample(pose: Pose, s: real)

  function CeilOf(x: real): int { -((-x).Floor) }

  /** How many steps of at most `step` make up `whole`; at least one. */
  function Count(whole: real, step: real): (n: nat)
    requires step > 0.0
    ensures n >= 1
  {
    var c := CeilOf(whole / step);
    if c < 1 then 1 else c
  }

  /** The k-th heading of a turn by delta in n parts. */
  function PartYaw(yaw: real, delta: real, k: nat, n: nat): real
    requires n >= 1
  {
    WrapAngle(yaw + delta * (k as real) / (n as real))
  }

  /** The first k samples of a turn by delta about c in n parts. */
  function TurnsTo(t: Trig, ell: real, c: Point, yaw: real, delta: real, s: real, n: nat, k: nat):
    (out: seq<RouteSample>)
    requires n >= 1
    ensures |out| == k
  {
    if k == 0 then []
    else TurnsTo(t, ell, c, yaw, delta, s, n, k - 1)
         + [RouteSample(Origin(t, ell, c, PartYaw(yaw, delta, k, n)), s)]
  }

  function PartPoint(a: Point, b: Point, k: nat, n: nat): Point
    requires n >= 1
  {
    Point(a.x + (b.x - a.x) * (k as real) / (n as real), a.y + (b.y - a.y) * (k as real) / (n as real))
  }

  /** The arc length after k of the n parts of a way of `length`. */
  function WayTo(s: real, length: real, k: nat, n: nat): real
    requires n >= 1
  {
    s + (k as real) * (length / (n as real))
  }

  /** The first k samples of the way from a to b in n parts, whose length is `length`. */
  function MovesTo(t: Trig, ell: real, a: Point, b: Point, yaw: real, s: real, length: real, n: nat,
                   k: nat): (out: seq<RouteSample>)
    requires n >= 1
    ensures |out| == k
  {
    if k == 0 then []
    else MovesTo(t, ell, a, b, yaw, s, length, n, k - 1)
         + [RouteSample(Origin(t, ell, PartPoint(a, b, k, n), yaw), WayTo(s, length, k, n))]
  }

  /** The samples so far, and where they have got to. */
  datatype Track = Track(out: seq<RouteSample>, yaw: real, s: real)

  /** rotate: the turn at a vertex. */
  function Rotated(g: Gauge, ell: real, k: Track, c: Point, to: real): Track
    requires g.stepYaw > 0.0
  {
    var delta := WrapAngle(to - k.yaw);
    var n := Count(Abs(delta), g.stepYaw);
    Track(k.out + TurnsTo(g.trig, ell, c, k.yaw, delta, k.s, n, n), WrapAngle(k.yaw + delta), k.s)
  }

  /** The translation along one segment. */
  function Driven(g: Gauge, ell: real, k: Track, a: Point, b: Point): Track
    requires g.step > 0.0
  {
    var length := Distance(g.trig, a, b);
    var n := Count(length, g.step);
    Track(k.out + MovesTo(g.trig, ell, a, b, k.yaw, k.s, length, n, n), k.yaw, k.s + length)
  }

  /** Where a segment starts: a vehicle that can only drive along its heading turns first. */
  function Turning(g: Gauge, r: Polyline, unicycle: bool, k: Track, j: nat): Track
    requires r.Indexed() && j < |r.legs| && g.stepYaw > 0.0
  {
    if unicycle then Rotated(g, r.ell, k, r.vertices[j], r.legs[j].heading) else k
  }

  /** The samples of the first j segments; vanishing ones are skipped. */
  function TrackTo(g: Gauge, r: Polyline, unicycle: bool, j: nat): Track
    requires r.Indexed() && j < |r.vertices| && g.step > 0.0 && g.stepYaw > 0.0
  {
    if j == 0 then
      Track([RouteSample(Origin(g.trig, r.ell, r.vertices[0], r.start.yaw), 0.0)], r.start.yaw, 0.0)
    else
      var k := TrackTo(g, r, unicycle, j - 1);
      if Distance(g.trig, r.vertices[j - 1], r.vertices[j]) < SLIVER then k
      else Driven(g, r.ell, Turning(g, r, unicycle, k, j - 1), r.vertices[j - 1], r.vertices[j])
  }

  /** Route::sample. */
  function SamplesOf(g: Gauge, r: Polyline, unicycle: bool): seq<RouteSample>
    requires r.Indexed() && g.step > 0.0 && g.stepYaw > 0.0
  {
    var k := TrackTo(g, r, unicycle, |r.vertices| - 1);
    var last := r.vertices[|r.vertices| - 1];
    if unicycle then Rotated(g, r.ell, k, last, r.goal.yaw).out
    else k.out + [RouteSample(Origin(g.trig, r.ell, last, r.goal.yaw), k.s)]
  }

  // ---------------------------------------------------------------- the sweep along them

  function SampleOf(t: Trig, shape: Shape, q: RouteSample): Sample
    requires WellFormed(shape)
  {
    MakeSample(shape, q.pose.x, q.pose.y, t.cos(q.pose.yaw), t.sin(q.pose.yaw), q.s)
  }

  function PointsOf(t: Trig, shape: Shape, raw: seq<RouteSample>): (pts: seq<Sample>)
    requires WellFormed(shape)
    ensures |pts| == |raw| && forall i :: 0 <= i < |raw| ==> pts[i] == SampleOf(t, shape, raw[i])
  {
    seq(|raw|, i requires 0 <= i < |raw| => SampleOf(t, shape, raw[i]))
  }

  /** makeSet: the sweep of `shape` along the route for one rotation-centre offset. */
  function MadeSweep(g: Gauge, shape: Shape, model: Model, route: RouteDecl, ell: real): SampleSet
    requires GoodGauge(g) && WellFormed(shape)
  {
    var r := BuiltRoute(g.trig, route.start, route.via, route.goal, ell);
    var pts := PointsOf(g.trig, shape, SamplesOf(g, r, model == Unicycle));
    SampleSet(pts, ChunksOf(pts, ChunkCount(|pts|)), ell)
  }
}
