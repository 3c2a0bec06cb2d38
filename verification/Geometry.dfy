/** Planar geometry of the planner (reset_planner.cpp): boxes, placed footprints, and the clearance
    test with its two prefilters. Headings are unit vectors; square roots are compared as squares. */
module Geometry {
  import opened ResetProtocol

  // ---------------------------------------------------------------- boxes

  datatype Aabb = Aabb(minx: real, maxx: real, miny: real, maxy: real)

  function Join(a: Aabb, b: Aabb): Aabb {
    Aabb(Min(a.minx, b.minx), Max(a.maxx, b.maxx), Min(a.miny, b.miny), Max(a.maxy, b.maxy))
  }

  predicate Inside(a: Aabb, outer: Aabb) {
    outer.minx <= a.minx && a.maxx <= outer.maxx && outer.miny <= a.miny && a.maxy <= outer.maxy
  }

  predicate Separated(a: Aabb, b: Aabb, m: real) {
    a.minx - b.maxx >= m || b.minx - a.maxx >= m || a.miny - b.maxy >= m || b.miny - a.maxy >= m
  }

  lemma SeparationShrinks(a: Aabb, outerA: Aabb, b: Aabb, outerB: Aabb, m: real)
    requires Inside(a, outerA) && Inside(b, outerB) && Separated(outerA, outerB, m)
    ensures Separated(a, b, m)
  {
  }

  function BoxOf(vs: seq<Point>): (b: Aabb)
    requires |vs| > 0
    ensures forall k :: 0 <= k < |vs| ==> InBox(vs[k], b)
  {
    var p := vs[|vs| - 1];
    var one := Aabb(p.x, p.x, p.y, p.y);
    if |vs| == 1 then one else Join(BoxOf(vs[..|vs| - 1]), one)
  }

  predicate InBox(p: Point, b: Aabb) {
    b.minx <= p.x <= b.maxx && b.miny <= p.y <= b.maxy
  }

  // ---------------------------------------------------------------- footprints

  /** A footprint in the body frame. The circumscribed polygon of an omnidirectional vehicle
      (`rect` false) is not turned: it covers every heading. */
  datatype Shape = Shape(rect: bool, corners: seq<Point>, radius: real)

  predicate WellFormed(s: Shape) { |s.corners| >= 3 }

  /** A placed body: origin, heading as a unit vector, arc length on its route, and its box. */
  datatype Sample = Sample(x: real, y: real, hx: real, hy: real, s: real, box: Aabb)

  function PlaceCorner(shape: Shape, k: nat, x: real, y: real, hx: real, hy: real): Point
    requires k < |shape.corners|
  {
    var c := shape.corners[k];
    if shape.rect then Point(x + hx * c.x - hy * c.y, y + hy * c.x + hx * c.y)
    else Point(x + c.x, y + c.y)
  }

  function Place(shape: Shape, x: real, y: real, hx: real, hy: real): (vs: seq<Point>)
    ensures |vs| == |shape.corners|
    ensures forall k :: 0 <= k < |vs| ==> vs[k] == PlaceCorner(shape, k, x, y, hx, hy)
  {
    seq(|shape.corners|, k requires 0 <= k < |shape.corners| => PlaceCorner(shape, k, x, y, hx, hy))
  }

  function Placed(shape: Shape, q: Sample): seq<Point> { Place(shape, q.x, q.y, q.hx, q.hy) }

  function MakeSample(shape: Shape, x: real, y: real, hx: real, hy: real, s: real): Sample
    requires WellFormed(shape)
  {
    Sample(x, y, hx, hy, s, BoxOf(Place(shape, x, y, hx, hy)))
  }

  predicate Boxed(shape: Shape, q: Sample) {
    WellFormed(shape) && q.box == BoxOf(Placed(shape, q))
  }

  // ---------------------------------------------------------------- clearance

  function Dot(nx: real, ny: real, p: Point): real { nx * p.x + ny * p.y }

  /** Along the (not normalised) axis n, everything of b lies at least m beyond everything of a. */
  predicate Beyond(nx: real, ny: real, a: seq<Point>, b: seq<Point>, m: real) {
    forall i, j :: 0 <= i < |a| && 0 <= j < |b| ==>
      var d := Dot(nx, ny, b[j]) - Dot(nx, ny, a[i]);
      d >= 0.0 && d * d >= m * m * (nx * nx + ny * ny)
  }

  predicate StrictlyBeyond(nx: real, ny: real, a: seq<Point>, b: seq<Point>) {
    forall i, j :: 0 <= i < |a| && 0 <= j < |b| ==> Dot(nx, ny, b[j]) > Dot(nx, ny, a[i])
  }

  /** Edge e of p, as the axis of a separation test; degenerate edges are skipped. */
  function Edge(p: seq<Point>, e: nat): (real, real)
    requires e < |p|
  {
    var f := (e + 1) % |p|;
    (p[f].x - p[e].x, p[f].y - p[e].y)
  }

  predicate RealEdge(t: (real, real)) {
    t.0 * t.0 + t.1 * t.1 >= 0.000000000000000000000001
  }

  predicate GapOnEdges(p: seq<Point>, rect: bool, a: seq<Point>, b: seq<Point>, m: real) {
    exists e :: 0 <= e < (if rect && |p| >= 2 then 2 else |p|) && GapOnEdge(p, e, a, b, m)
  }

  predicate GapOnEdge(p: seq<Point>, e: nat, a: seq<Point>, b: seq<Point>, m: real)
    requires e < |p|
  {
    var t := Edge(p, e);
    RealEdge(t) && (Beyond(-t.1, t.0, a, b, m) || Beyond(-t.1, t.0, b, a, m))
  }

  predicate PositiveOnEdges(p: seq<Point>, rect: bool, a: seq<Point>, b: seq<Point>) {
    exists e :: 0 <= e < (if rect && |p| >= 2 then 2 else |p|) && PositiveOnEdge(p, e, a, b)
  }

  predicate PositiveOnEdge(p: seq<Point>, e: nat, a: seq<Point>, b: seq<Point>)
    requires e < |p|
  {
    var t := Edge(p, e);
    RealEdge(t) && (StrictlyBeyond(-t.1, t.0, a, b) || StrictlyBeyond(-t.1, t.0, b, a))
  }

  /** The fraction of a segment at which a point projects onto it. */
  function Projected(p: Point, a: Point, b: Point): real {
    var ex, ey := b.x - a.x, b.y - a.y;
    var l2 := ex * ex + ey * ey;
    if l2 > 0.0 then Clamp(((p.x - a.x) * ex + (p.y - a.y) * ey) / l2, 0.0, 1.0) else 0.0
  }

  /** Squared distance of a point from a segment. */
  function SegmentDistance2(p: Point, a: Point, b: Point): real {
    var t := Projected(p, a, b);
    Dist2(p.x, p.y, a.x + t * (b.x - a.x), a.y + t * (b.y - a.y))
  }

  predicate EdgeFar(p: Point, b: seq<Point>, e: nat, m: real)
    requires e < |b|
  {
    SegmentDistance2(p, b[e], b[(e + 1) % |b|]) >= m * m
  }

  predicate CornersFar(a: seq<Point>, b: seq<Point>, m: real) {
    forall i, e :: 0 <= i < |a| && 0 <= e < |b| ==> EdgeFar(a[i], b, e, m)
  }

  /** clearAtLeast: an axis with a gap of m decides; a smaller positive gap needs the distance. */
  predicate ExactClear(a: seq<Point>, rectA: bool, b: seq<Point>, rectB: bool, m: real) {
    || GapOnEdges(a, rectA, a, b, m) || GapOnEdges(b, rectB, a, b, m)
    || ((PositiveOnEdges(a, rectA, a, b) || PositiveOnEdges(b, rectB, a, b))
        && CornersFar(a, b, m) && CornersFar(b, a, m))
  }

  predicate FarByRadius(a: Shape, qa: Sample, b: Shape, qb: Sample, m: real) {
    var r := a.radius + b.radius + m;
    r < 0.0 || Dist2(qa.x, qa.y, qb.x, qb.y) > r * r
  }

  predicate SampleClear(a: Shape, qa: Sample, b: Shape, qb: Sample, m: real) {
    FarByRadius(a, qa, b, qb, m) || Separated(qa.box, qb.box, m)
    || ExactClear(Placed(a, qa), a.rect, Placed(b, qb), b.rect, m)
  }

  lemma ExactClearSymmetric(a: seq<Point>, rectA: bool, b: seq<Point>, rectB: bool, m: real)
    ensures ExactClear(a, rectA, b, rectB, m) == ExactClear(b, rectB, a, rectA, m)
  {
    hide Beyond, StrictlyBeyond, CornersFar, Edge, RealEdge;
    EdgesSymmetric(a, rectA, a, b, m);
    EdgesSymmetric(b, rectB, a, b, m);
    hide GapOnEdges, PositiveOnEdges;
  }

  lemma EdgesSymmetric(p: seq<Point>, rect: bool, a: seq<Point>, b: seq<Point>, m: real)
    ensures GapOnEdges(p, rect, a, b, m) == GapOnEdges(p, rect, b, a, m)
    ensures PositiveOnEdges(p, rect, a, b) == PositiveOnEdges(p, rect, b, a)
  {
    hide Beyond, StrictlyBeyond, Edge, RealEdge;
    assert forall e {:trigger GapOnEdge(p, e, a, b, m)} {:trigger GapOnEdge(p, e, b, a, m)} ::
        0 <= e < |p| ==> GapOnEdge(p, e, a, b, m) == GapOnEdge(p, e, b, a, m);
    assert forall e {:trigger PositiveOnEdge(p, e, a, b)} {:trigger PositiveOnEdge(p, e, b, a)} ::
        0 <= e < |p| ==> PositiveOnEdge(p, e, a, b) == PositiveOnEdge(p, e, b, a);
  }

  /** Who asks does not matter: the clearance of two placed bodies is symmetric. */
  lemma SampleClearSymmetric(a: Shape, qa: Sample, b: Shape, qb: Sample, m: real)
    ensures SampleClear(a, qa, b, qb, m) == SampleClear(b, qb, a, qa, m)
  {
    ExactClearSymmetric(Placed(a, qa), a.rect, Placed(b, qb), b.rect, m);
    hide ExactClear;
    assert Dist2(qa.x, qa.y, qb.x, qb.y) == Dist2(qb.x, qb.y, qa.x, qa.y);
  }
}
