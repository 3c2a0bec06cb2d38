/** The visibility graph (reset_path.cpp, planVisibilityPath): corners of expanded obstacles, edges
    that stay out of their interiors, and a shortest path with a tie break at the start. The
    expanded obstacles are given; the Euclidean length is the function `norm`. */
module VisibilityPath {
  import opened ResetProtocol
  import opened Sweep
  import opened Arithmetic

  const EPS: real := 0.000000001
  const FLAT: real := 0.00000000000001
  const SLIVER: real := 0.000000000001
  const TIE: real := 0.000001

  type Polygon = seq<Point>

  /** The length of a plane vector. */
  ghost predicate IsNorm(norm: (real, real) -> real) {
    forall x, y :: norm(x, y) >= 0.0 && norm(x, y) * norm(x, y) == x * x + y * y
  }

  function Cross(ax: real, ay: real, cx: real, cy: real): real { ax * cy - ay * cx }

  function Side(p: Polygon, i: nat): (real, real)
    requires i < |p|
  {
    var q := p[(i + 1) % |p|];
    (q.x - p[i].x, q.y - p[i].y)
  }

  /** No side has vanished, so that the distance from every side line is defined. */
  ghost predicate Proper(norm: (real, real) -> real, p: Polygon) {
    forall i :: 0 <= i < |p| ==> norm(Side(p, i).0, Side(p, i).1) > 0.0
  }

  /** The signed distance of a point from the line of side i; positive inside. */
  function Depth(norm: (real, real) -> real, p: Polygon, i: nat, a: Point): real
    requires i < |p| && norm(Side(p, i).0, Side(p, i).1) > 0.0
  {
    var (ex, ey) := Side(p, i);
    Cross(ex, ey, a.x - p[i].x, a.y - p[i].y) / norm(ex, ey)
  }

  /** How that distance grows along the segment from a to b. */
  function Slope(norm: (real, real) -> real, p: Polygon, i: nat, a: Point, b: Point): real
    requires i < |p| && norm(Side(p, i).0, Side(p, i).1) > 0.0
  {
    var (ex, ey) := Side(p, i);
    Cross(ex, ey, b.x - a.x, b.y - a.y) / norm(ex, ey)
  }

  // ---------------------------------------------------------------- points and segments

  ghost predicate Interior(norm: (real, real) -> real, p: Polygon, a: Point)
    requires Proper(norm, p)
  {
    forall i :: 0 <= i < |p| ==> Depth(norm, p, i, a) > EPS
  }

  method InsideInterior(norm: (real, real) -> real, p: Polygon, a: Point) returns (inside: bool)
    requires Proper(norm, p)
    ensures inside == Interior(norm, p, a)
  {
    for i := 0 to |p|
      invariant forall k :: 0 <= k < i ==> Depth(norm, p, k, a) > EPS
    {
      if Depth(norm, p, i, a) <= EPS { return false; }
    }
    inside := true;
  }

  /** The point at parameter t is inside as far as side i can tell; a side the segment runs along
      is judged once and for all at its start. */
  predicate PastSide(norm: (real, real) -> real, p: Polygon, i: nat, a: Point, b: Point, t: real)
    requires i < |p| && norm(Side(p, i).0, Side(p, i).1) > 0.0
  {
    var d, m := Depth(norm, p, i, a), Slope(norm, p, i, a, b);
    if Abs(m) < FLAT then d > EPS else d + m * t > EPS
  }

  ghost predicate PastSides(norm: (real, real) -> real, p: Polygon, n: nat, a: Point, b: Point, t: real)
    requires Proper(norm, p) && n <= |p|
  {
    forall i :: 0 <= i < n ==> PastSide(norm, p, i, a, b, t)
  }

  /** Between two parameters further apart than a sliver, the whole segment is inside. */
  ghost predicate Enters(norm: (real, real) -> real, p: Polygon, a: Point, b: Point)
    requires Proper(norm, p)
  {
    exists lo: real, hi: real :: 0.0 <= lo && hi <= 1.0 && hi - lo > SLIVER && AllInside(norm, p, a, b, lo, hi)
  }

  ghost predicate AllInside(norm: (real, real) -> real, p: Polygon, a: Point, b: Point, lo: real, hi: real)
    requires Proper(norm, p)
  {
    forall t: real :: lo < t < hi ==> PastSides(norm, p, |p|, a, b, t)
  }

  /** lower and upper clip exactly the parameters that are past the first n sides. */
  ghost predicate Clipped(norm: (real, real) -> real, p: Polygon, n: nat, a: Point, b: Point,
                          lower: real, upper: real)
    requires Proper(norm, p) && n <= |p|
  {
    0.0 <= lower && upper <= 1.0 && forall t: real :: ClippedAt(norm, p, n, a, b, lower, upper, t)
  }

  ghost predicate ClippedAt(norm: (real, real) -> real, p: Polygon, n: nat, a: Point, b: Point,
                            lower: real, upper: real, t: real)
    requires Proper(norm, p) && n <= |p|
  {
    && (0.0 <= t <= 1.0 && PastSides(norm, p, n, a, b, t) ==> lower <= t <= upper)
    && (lower < t < upper ==> PastSides(norm, p, n, a, b, t))
  }

  lemma QuotientSign(eps: real, d: real, m: real, t: real)
    requires m != 0.0
    ensures m > 0.0 ==> (d + m * t > eps <==> t > (eps - d) / m)
    ensures m < 0.0 ==> (d + m * t > eps <==> t < (eps - d) / m)
  {
    var q := (eps - d) / m;
    assert m * q == eps - d;
    assert d + m * t - eps == m * (t - q);
  }

  /** How the loop moves the bounds for side n. */
  predicate Moves(d: real, m: real, lower: real, upper: real, lower': real, upper': real) {
    if Abs(m) < FLAT then d > EPS && lower' == lower && upper' == upper
    else if m > 0.0 then lower' == Max(lower, (EPS - d) / m) && upper' == upper
    else lower' == lower && upper' == Min(upper, (EPS - d) / m)
  }

  lemma ClipOneMoreAt(norm: (real, real) -> real, p: Polygon, n: nat, a: Point, b: Point,
                      lower: real, upper: real, lower': real, upper': real, t: real)
    requires Proper(norm, p) && n < |p| && Clipped(norm, p, n, a, b, lower, upper)
    requires Moves(Depth(norm, p, n, a), Slope(norm, p, n, a, b), lower, upper, lower', upper')
    ensures ClippedAt(norm, p, n + 1, a, b, lower', upper', t)
  {
    var d, m := Depth(norm, p, n, a), Slope(norm, p, n, a, b);
    hide Depth, Slope, Side;
    assert ClippedAt(norm, p, n, a, b, lower, upper, t);
    if m != 0.0 { QuotientSign(EPS, d, m, t); }
    assert PastSides(norm, p, n + 1, a, b, t) <==> PastSides(norm, p, n, a, b, t) && PastSide(norm, p, n, a, b, t);
  }

  lemma ClipOneMore(norm: (real, real) -> real, p: Polygon, n: nat, a: Point, b: Point,
                    lower: real, upper: real, lower': real, upper': real)
    requires Proper(norm, p) && n < |p| && Clipped(norm, p, n, a, b, lower, upper)
    requires Moves(Depth(norm, p, n, a), Slope(norm, p, n, a, b), lower, upper, lower', upper')
    ensures Clipped(norm, p, n + 1, a, b, lower', upper')
  {
    hide Depth, Slope, Side, ClippedAt, PastSides;
    var k := n + 1;
    forall t: real ensures ClippedAt(norm, p, k, a, b, lower', upper', t) {
      ClipOneMoreAt(norm, p, n, a, b, lower, upper, lower', upper', t);
    }
  }

  /** A longer stretch of inside points leaves more than a sliver between the bounds. */
  lemma StretchIsClipped(norm: (real, real) -> real, p: Polygon, n: nat, a: Point, b: Point,
                         lower: real, upper: real, lo: real, hi: real)
    requires Proper(norm, p) && n <= |p| && Clipped(norm, p, n, a, b, lower, upper)
    requires 0.0 <= lo && hi <= 1.0 && hi - lo > SLIVER && AllInside(norm, p, a, b, lo, hi)
    ensures lower < upper - SLIVER
  {
    hide PastSide;
    var gap := hi - lo - SLIVER;
    var t0, t1 := lo + gap / 4.0, hi - gap / 4.0;
    assert PastSides(norm, p, |p|, a, b, t0) && PastSides(norm, p, |p|, a, b, t1);
    assert ClippedAt(norm, p, n, a, b, lower, upper, t0) && ClippedAt(norm, p, n, a, b, lower, upper, t1);
  }

  lemma SliverIsNoEntry(norm: (real, real) -> real, p: Polygon, n: nat, a: Point, b: Point,
                        lower: real, upper: real)
    requires Proper(norm, p) && n <= |p| && Clipped(norm, p, n, a, b, lower, upper)
    requires lower >= upper - SLIVER
    ensures !Enters(norm, p, a, b)
  {
    hide Clipped, AllInside;
    if Enters(norm, p, a, b) {
      var lo: real, hi: real :| 0.0 <= lo && hi <= 1.0 && hi - lo > SLIVER && AllInside(norm, p, a, b, lo, hi);
      StretchIsClipped(norm, p, n, a, b, lower, upper, lo, hi);
    }
  }

  /** A stretch of inside points is inside of the side the segment runs along. */
  lemma StretchIsPastSide(norm: (real, real) -> real, p: Polygon, i: nat, a: Point, b: Point,
                          lo: real, hi: real)
    requires Proper(norm, p) && i < |p| && Abs(Slope(norm, p, i, a, b)) < FLAT
    requires hi - lo > SLIVER && AllInside(norm, p, a, b, lo, hi)
    ensures Depth(norm, p, i, a) > EPS
  {
    hide Depth, Slope;
    assert PastSides(norm, p, |p|, a, b, (lo + hi) / 2.0);
    assert PastSide(norm, p, i, a, b, (lo + hi) / 2.0);
  }

  lemma OutsideSideIsNoEntry(norm: (real, real) -> real, p: Polygon, i: nat, a: Point, b: Point)
    requires Proper(norm, p) && i < |p| && Abs(Slope(norm, p, i, a, b)) < FLAT
    requires Depth(norm, p, i, a) <= EPS
    ensures !Enters(norm, p, a, b)
  {
    hide Depth, Slope, AllInside;
    if Enters(norm, p, a, b) {
      var lo: real, hi: real :| 0.0 <= lo && hi <= 1.0 && hi - lo > SLIVER && AllInside(norm, p, a, b, lo, hi);
      StretchIsPastSide(norm, p, i, a, b, lo, hi);
    }
  }

  /** A point is inside every side by more than e, in coordinates. */
  ghost predicate Deep(norm: (real, real) -> real, p: Polygon, q: Point, e: real) {
    forall i :: 0 <= i < |p| ==> DeepAt(norm, p, i, q, e)
  }

  predicate DeepAt(norm: (real, real) -> real, p: Polygon, i: nat, q: Point, e: real)
    requires i < |p|
  {
    var r := p[(i + 1) % |p|];
    (r.x - p[i].x) * (q.y - p[i].y) - (r.y - p[i].y) * (q.x - p[i].x) > e * norm(r.x - p[i].x, r.y - p[i].y)
  }

  function PointAt(a: Point, b: Point, t: real): Point { Point(a.x + t * (b.x - a.x), a.y + t * (b.y - a.y)) }

  lemma Quotients(x: real, y: real, t: real, n: real)
    requires n > 0.0
    ensures (x + t * y) / n == x / n + t * (y / n)
  {
    var u, v := x / n, y / n;
    assert u * n == x && v * n == y;
    assert (u + t * v) * n == x + t * y;
  }

  lemma QuotientMore(x: real, e: real, n: real)
    requires n > 0.0
    ensures x / n > e <==> x > e * n
  {
    var u := x / n;
    assert u * n == x;
    if u > e { assert (u - e) * n > 0.0; }
    if x > e * n { assert (u - e) * n > 0.0; }
  }

  /** The distance from a side grows along the segment by its slope. */
  lemma DepthAlong(norm: (real, real) -> real, p: Polygon, i: nat, a: Point, b: Point, t: real)
    requires i < |p| && norm(Side(p, i).0, Side(p, i).1) > 0.0
    ensures Depth(norm, p, i, PointAt(a, b, t)) == Depth(norm, p, i, a) + t * Slope(norm, p, i, a, b)
  {
    var (ex, ey) := Side(p, i);
    var q := PointAt(a, b, t);
    var x, y := Cross(ex, ey, a.x - p[i].x, a.y - p[i].y), Cross(ex, ey, b.x - a.x, b.y - a.y);
    assert Cross(ex, ey, q.x - p[i].x, q.y - p[i].y) == x + t * y;
    Quotients(x, y, t, norm(ex, ey));
  }

  lemma DeepIs(norm: (real, real) -> real, p: Polygon, i: nat, q: Point, e: real)
    requires i < |p| && norm(Side(p, i).0, Side(p, i).1) > 0.0
    ensures DeepAt(norm, p, i, q, e) <==> Depth(norm, p, i, q) > e
  {
    var (ex, ey) := Side(p, i);
    QuotientMore(Cross(ex, ey, q.x - p[i].x, q.y - p[i].y), e, norm(ex, ey));
  }

  lemma PastIsDeep(norm: (real, real) -> real, p: Polygon, i: nat, a: Point, b: Point, t: real)
    requires i < |p| && norm(Side(p, i).0, Side(p, i).1) > 0.0 && 0.0 <= t <= 1.0
    ensures PastSide(norm, p, i, a, b, t) ==> DeepAt(norm, p, i, PointAt(a, b, t), SHALLOW)
    ensures DeepAt(norm, p, i, PointAt(a, b, t), DEEP) ==> PastSide(norm, p, i, a, b, t)
  {
    var m := Slope(norm, p, i, a, b);
    DepthAlong(norm, p, i, a, b, t);
    DeepIs(norm, p, i, PointAt(a, b, t), SHALLOW);
    DeepIs(norm, p, i, PointAt(a, b, t), DEEP);
    hide Depth, Slope, DeepAt, PointAt;
    SmallPart(m, t);
  }

  lemma SmallPart(m: real, t: real)
    requires 0.0 <= t <= 1.0
    ensures Abs(m) < FLAT ==> -FLAT < t * m < FLAT
    ensures m * t == t * m
  {
    TimesMore(1.0, t, Abs(m));
    TimesMore(t, 0.0, Abs(m));
    if m < 0.0 { assert Times(t, -m) == -(t * m); }
  }

  const DEEP: real := 0.00000000100001
  const SHALLOW: real := 0.00000000099999

  predicate Stretch(lo: real, hi: real) { 0.0 <= lo && hi <= 1.0 && hi - lo > SLIVER }

  ghost predicate DeepStretch(norm: (real, real) -> real, p: Polygon, a: Point, b: Point, lo: real, hi: real, e: real) {
    forall t: real :: lo < t < hi ==> Deep(norm, p, PointAt(a, b, t), e)
  }

  /** What a leg that does not enter an obstacle means on the ground: no stretch of it longer than a
      sliver runs more than the tolerance inside all sides; and a leg that enters has such a stretch,
      up to the tolerance for sides it runs along. */
  lemma EntersMeansInside(norm: (real, real) -> real, p: Polygon, a: Point, b: Point)
    requires Proper(norm, p)
    ensures (exists lo: real, hi: real :: Stretch(lo, hi) && DeepStretch(norm, p, a, b, lo, hi, DEEP))
            ==> Enters(norm, p, a, b)
    ensures Enters(norm, p, a, b) ==>
              exists lo: real, hi: real :: Stretch(lo, hi) && DeepStretch(norm, p, a, b, lo, hi, SHALLOW)
  {
    hide PastSides, Deep;
    if lo: real, hi: real :| Stretch(lo, hi) && DeepStretch(norm, p, a, b, lo, hi, DEEP) {
      forall t: real | lo < t < hi ensures PastSides(norm, p, |p|, a, b, t) { PastAreDeep(norm, p, a, b, t); }
      assert AllInside(norm, p, a, b, lo, hi);
    }
    if Enters(norm, p, a, b) {
      var lo: real, hi: real :| 0.0 <= lo && hi <= 1.0 && hi - lo > SLIVER && AllInside(norm, p, a, b, lo, hi);
      forall t: real | lo < t < hi ensures Deep(norm, p, PointAt(a, b, t), SHALLOW) { PastAreDeep(norm, p, a, b, t); }
      assert Stretch(lo, hi) && DeepStretch(norm, p, a, b, lo, hi, SHALLOW);
    }
  }

  lemma PastAreDeep(norm: (real, real) -> real, p: Polygon, a: Point, b: Point, t: real)
    requires Proper(norm, p) && 0.0 <= t <= 1.0
    ensures PastSides(norm, p, |p|, a, b, t) ==> Deep(norm, p, PointAt(a, b, t), SHALLOW)
    ensures Deep(norm, p, PointAt(a, b, t), DEEP) ==> PastSides(norm, p, |p|, a, b, t)
  {
    hide PastSide, DeepAt, PointAt;
    var q := PointAt(a, b, t);
    forall i: nat | i < |p|
      ensures PastSide(norm, p, i, a, b, t) ==> DeepAt(norm, p, i, q, SHALLOW)
      ensures DeepAt(norm, p, i, q, DEEP) ==> PastSide(norm, p, i, a, b, t)
    {
      PastIsDeep(norm, p, i, a, b, t);
    }
  }

  /** The clipping loop decides exactly whether the segment enters the interior. */
  method EntersInterior(norm: (real, real) -> real, p: Polygon, a: Point, b: Point)
    returns (enters: bool)
    requires Proper(norm, p)
    ensures enters == Enters(norm, p, a, b)
  {
    hide Depth, Slope, Enters, Clipped;
    var lower, upper := 0.0, 1.0;
    NothingClipped(norm, p, a, b);
    for i := 0 to |p|
      invariant Clipped(norm, p, i, a, b, lower, upper)
    {
      var d, m := Depth(norm, p, i, a), Slope(norm, p, i, a, b);
      ghost var l, u := lower, upper;
      if Abs(m) < FLAT {
        if d <= EPS {
          OutsideSideIsNoEntry(norm, p, i, a, b);
          return false;
        }
      } else {
        var boundary := (EPS - d) / m;
        if m > 0.0 { lower := Max(lower, boundary); } else { upper := Min(upper, boundary); }
      }
      ClipOneMore(norm, p, i, a, b, l, u, lower, upper);
      if lower >= upper - SLIVER {
        SliverIsNoEntry(norm, p, i + 1, a, b, lower, upper);
        return false;
      }
    }
    enters := lower < upper - SLIVER;
    if enters { ClippedEnters(norm, p, a, b, lower, upper); }
    else { SliverIsNoEntry(norm, p, |p|, a, b, lower, upper); }
  }

  lemma NothingClipped(norm: (real, real) -> real, p: Polygon, a: Point, b: Point)
    requires Proper(norm, p)
    ensures Clipped(norm, p, 0, a, b, 0.0, 1.0)
  {
  }

  lemma ClippedEnters(norm: (real, real) -> real, p: Polygon, a: Point, b: Point, lower: real, upper: real)
    requires Proper(norm, p) && Clipped(norm, p, |p|, a, b, lower, upper) && lower < upper - SLIVER
    ensures Enters(norm, p, a, b)
  {
    hide PastSides;
    forall t: real | lower < t < upper ensures PastSides(norm, p, |p|, a, b, t) {
      assert ClippedAt(norm, p, |p|, a, b, lower, upper, t);
    }
    assert AllInside(norm, p, a, b, lower, upper);
  }

  // ---------------------------------------------------------------- the graph

  /** Node 0 is the start, node 1 the goal. */
  datatype Graph = Graph(nodes: seq<Point>, walls: seq<Polygon>, norm: (real, real) -> real)

  ghost predicate GoodGraph(g: Graph) {
    |g.nodes| >= 2 && IsNorm(g.norm) && forall k :: 0 <= k < |g.walls| ==> Proper(g.norm, g.walls[k])
  }

  ghost predicate Visible(g: Graph, u: nat, v: nat)
    requires GoodGraph(g) && u < |g.nodes| && v < |g.nodes|
  {
    forall k :: 0 <= k < |g.walls| ==> !Enters(g.norm, g.walls[k], g.nodes[u], g.nodes[v])
  }

  ghost predicate Edge(g: Graph, u: nat, v: nat)
    requires GoodGraph(g)
  {
    u < |g.nodes| && v < |g.nodes| && u != v && Visible(g, u, v)
  }

  /** Detours to the left of the direct line pay a little at the start. */
  function TieOf(g: Graph, u: nat, v: nat): real
    requires |g.nodes| >= 2 && u < |g.nodes| && v < |g.nodes|
  {
    var s, t, n := g.nodes[0], g.nodes[1], g.nodes[v];
    if u == 0 && Cross(t.x - s.x, t.y - s.y, n.x - s.x, n.y - s.y) > 0.0 then TIE else 0.0
  }

  function Weight(g: Graph, u: nat, v: nat): (w: real)
    requires |g.nodes| >= 2 && u < |g.nodes| && v < |g.nodes|
  {
    g.norm(g.nodes[v].x - g.nodes[u].x, g.nodes[v].y - g.nodes[u].y) + TieOf(g, u, v)
  }

  lemma WeightIsNonNegative(g: Graph, u: nat, v: nat)
    requires GoodGraph(g) && u < |g.nodes| && v < |g.nodes|
    ensures Weight(g, u, v) >= 0.0
  {
  }

  ghost predicate Walk(g: Graph, p: seq<nat>)
    requires GoodGraph(g)
  {
    p != [] && (forall i :: 0 <= i < |p| ==> p[i] < |g.nodes|)
    && (forall i :: 0 <= i < |p| - 1 ==> Edge(g, p[i], p[i + 1]))
  }

  function Cost(g: Graph, p: seq<nat>): real
    requires |g.nodes| >= 2 && forall i :: 0 <= i < |p| ==> p[i] < |g.nodes|
  {
    if |p| < 2 then 0.0
    else Cost(g, p[..|p| - 1]) + Weight(g, p[|p| - 2], p[|p| - 1])
  }

  ghost predicate FromTo(p: seq<nat>, u: nat, v: nat) { p != [] && p[0] == u && p[|p| - 1] == v }

  method IsVisible(g: Graph, u: nat, v: nat) returns (visible: bool)
    requires GoodGraph(g) && u < |g.nodes| && v < |g.nodes|
    ensures visible == Visible(g, u, v)
  {
    hide Enters;
    for k := 0 to |g.walls|
      invariant forall j :: 0 <= j < k ==> !Enters(g.norm, g.walls[j], g.nodes[u], g.nodes[v])
    {
      var enters := EntersInterior(g.norm, g.walls[k], g.nodes[u], g.nodes[v]);
      if enters { return false; }
    }
    visible := true;
  }

  // ---------------------------------------------------------------- the search

  /** The arrays of the search: distances (None is infinity), previous (the number of nodes is none)
      and the visited nodes, with the order in which they were visited. */
  datatype Search = Search(dist: seq<Option<real>>, prev: seq<nat>, visited: seq<bool>,
                           order: seq<nat>)

  ghost predicate Known(s: Search, v: nat) { v < |s.dist| && s.dist[v].Some? }

  ghost predicate Shape(g: Graph, s: Search) {
    |s.dist| == |g.nodes| && |s.prev| == |g.nodes| && |s.visited| == |g.nodes| && |s.order| == |g.nodes|
  }

  /** Every known distance is that of a real walk: one edge after the walk to the predecessor, which
      was visited before. */
  ghost predicate Grounded(g: Graph, s: Search)
    requires GoodGraph(g) && Shape(g, s)
  {
    && s.dist[0] == Some(0.0)
    && (forall v :: 0 < v < |g.nodes| && s.dist[v].Some? ==> HasPredecessor(g, s, v))
    && (forall v :: 0 <= v < |g.nodes| && s.visited[v] ==> s.dist[v].Some?)
  }

  ghost predicate HasPredecessor(g: Graph, s: Search, v: nat)
    requires GoodGraph(g) && Shape(g, s) && v < |g.nodes| && s.dist[v].Some?
  {
    var u := s.prev[v];
    && u < |g.nodes| && s.visited[u] && s.dist[u].Some? && Edge(g, u, v)
    && s.dist[v].value == s.dist[u].value + Weight(g, u, v)
    && (s.visited[v] ==> s.order[u] < s.order[v])
  }

  /** What has been visited is settled: no edge out of it is shorter than what is known. */
  ghost predicate Settled(g: Graph, s: Search)
    requires GoodGraph(g) && Shape(g, s)
  {
    forall u, v :: 0 <= u < |g.nodes| && 0 <= v < |g.nodes| && s.visited[u] && Edge(g, u, v) ==> Relaxed(g, s, u, v)
  }

  ghost predicate Relaxed(g: Graph, s: Search, u: nat, v: nat)
    requires GoodGraph(g) && Shape(g, s) && u < |g.nodes| && v < |g.nodes|
  {
    s.dist[u].Some? && s.dist[v].Some? && s.dist[v].value <= s.dist[u].value + Weight(g, u, v)
  }

  ghost predicate Nearest(g: Graph, s: Search)
    requires Shape(g, s)
  {
    forall u, v :: (0 <= u < |g.nodes| && 0 <= v < |g.nodes| && s.visited[u] && !s.visited[v]
                    && s.dist[u].Some? && s.dist[v].Some?) ==> s.dist[u].value <= s.dist[v].value
  }

  /** The visited nodes are numbered in the order of their visit; the goal is never expanded. */
  ghost predicate Numbered(g: Graph, s: Search, n: nat)
    requires GoodGraph(g) && Shape(g, s)
  {
    && !s.visited[1]
    && (forall v :: 0 <= v < |g.nodes| && s.visited[v] ==> s.order[v] < n)
    && (forall v, w :: 0 <= v < w < |g.nodes| && s.visited[v] && s.visited[w] ==> s.order[v] != s.order[w])
  }

  ghost predicate SearchInv(g: Graph, s: Search, n: nat)
    requires GoodGraph(g)
  {
    Shape(g, s) && Grounded(g, s) && Settled(g, s) && Nearest(g, s) && Numbered(g, s, n)
  }

  /** Along any walk whose nodes before the last are visited, the known distance is not longer. */
  lemma {:induction false} WalkIsNotShorter(g: Graph, s: Search, p: seq<nat>)
    requires GoodGraph(g) && Shape(g, s) && Grounded(g, s) && Settled(g, s)
    requires Walk(g, p) && p[0] == 0 && forall i :: 0 <= i < |p| - 1 ==> s.visited[p[i]]
    ensures s.dist[p[|p| - 1]].Some? && s.dist[p[|p| - 1]].value <= Cost(g, p)
  {
    hide Edge, Weight, HasPredecessor;
    if |p| >= 2 {
      var q := p[..|p| - 1];
      forall i | 0 <= i < |q| - 1 ensures Edge(g, q[i], q[i + 1]) {
        assert Edge(g, p[i], p[i + 1]);
      }
      WalkIsNotShorter(g, s, q);
      assert Edge(g, p[|p| - 2], p[|p| - 2 + 1]);
      assert Relaxed(g, s, p[|p| - 2], p[|p| - 1]);
    }
  }

  /** Costs only grow along a walk. */
  lemma {:induction false} PrefixIsCheaper(g: Graph, p: seq<nat>, k: nat)
    requires GoodGraph(g) && Walk(g, p) && 0 < k <= |p|
    ensures Walk(g, p[..k]) && Cost(g, p[..k]) <= Cost(g, p)
    decreases |p| - k
  {
    hide Edge, Weight;
    forall i | 0 <= i < k - 1 ensures Edge(g, p[..k][i], p[..k][i + 1]) {
      assert Edge(g, p[i], p[i + 1]);
    }
    if k == |p| {
      assert p[..k] == p;
    } else {
      PrefixIsCheaper(g, p, k + 1);
      assert p[..k + 1][..k] == p[..k];
      WeightIsNonNegative(g, p[k - 1], p[k]);
    }
  }

  /** The first node of a walk to the goal that has not been visited. */
  lemma {:induction false} FirstUnvisited(g: Graph, s: Search, p: seq<nat>, k: nat) returns (j: nat)
    requires GoodGraph(g) && Shape(g, s) && Walk(g, p) && k < |p| && !s.visited[p[|p| - 1]]
    requires forall i :: 0 <= i < k ==> s.visited[p[i]]
    ensures j < |p| && !s.visited[p[j]] && forall i :: 0 <= i < j ==> s.visited[p[i]]
    decreases |p| - k
  {
    if !s.visited[p[k]] { j := k; } else { j := FirstUnvisited(g, s, p, k + 1); }
  }

  /** What the end of the search means: the goal is nearest, or nothing can be reached any more. */
  lemma SearchIsOptimal(g: Graph, s: Search, n: nat, p: seq<nat>)
    requires GoodGraph(g) && SearchInv(g, s, n) && Walk(g, p) && FromTo(p, 0, 1)
    requires forall v :: 0 <= v < |g.nodes| && !s.visited[v] && s.dist[v].Some? ==>
               s.dist[1].Some? && s.dist[1].value <= s.dist[v].value
    ensures s.dist[1].Some? && s.dist[1].value <= Cost(g, p)
  {
    hide Grounded, Settled, Nearest, Edge, Weight;
    var j := FirstUnvisited(g, s, p, 0);
    PrefixIsCheaper(g, p, j + 1);
    WalkIsNotShorter(g, s, p[..j + 1]);
  }

  // ---------------------------------------------------------------- one round of the search

  /** Node u is the nearest that has not been visited. */
  ghost predicate IsNearest(g: Graph, s: Search, u: nat)
    requires Shape(g, s)
  {
    && u < |g.nodes| && !s.visited[u] && s.dist[u].Some?
    && forall v :: 0 <= v < |g.nodes| && !s.visited[v] && s.dist[v].Some? ==>
         s.dist[u].value <= s.dist[v].value
  }

  predicate Closer(a: Option<real>, b: Option<real>) {
    a.Some? && (b.None? || a.value < b.value)
  }

  /** The inner loop that picks the next node; None when nothing more can be reached. */
  method Pick(g: Graph, s: Search) returns (u: Option<nat>)
    requires Shape(g, s)
    ensures u.Some? ==> IsNearest(g, s, u.value)
    ensures u.None? ==> forall v :: 0 <= v < |g.nodes| && !s.visited[v] ==> s.dist[v].None?
  {
    u := None;
    for i := 0 to |g.nodes|
      invariant u.Some? ==> u.value < i && !s.visited[u.value]
      invariant u.None? ==> forall v :: 0 <= v < i ==> s.visited[v]
      invariant u.Some? ==> forall v :: 0 <= v < i && !s.visited[v] ==> !Closer(s.dist[v], s.dist[u.value])
    {
      if !s.visited[i] && (u.None? || Closer(s.dist[i], s.dist[u.value])) { u := Some(i); }
    }
    if u.Some? && s.dist[u.value].None? { u := None; }
  }

  /** After the edges of u to the first n nodes have been tried. */
  ghost predicate RelaxedTo(g: Graph, s: Search, r: Search, u: nat, n: nat)
    requires GoodGraph(g) && Shape(g, s) && u < |g.nodes| && s.dist[u].Some?
  {
    && Shape(g, r) && r.visited == s.visited && r.order == s.order && n <= |g.nodes|
    && (forall v :: 0 <= v < |g.nodes| ==> LoweredBy(g, s, r, u, v))
    && (forall v :: n <= v < |g.nodes| ==> r.dist[v] == s.dist[v] && r.prev[v] == s.prev[v])
    && (forall v :: 0 <= v < n && !s.visited[v] && Edge(g, u, v) ==> Relaxed(g, r, u, v))
  }

  /** A distance is as before, or lowered to that of the edge from u. */
  ghost predicate LoweredBy(g: Graph, s: Search, r: Search, u: nat, v: nat)
    requires GoodGraph(g) && Shape(g, s) && Shape(g, r) && u < |g.nodes| && v < |g.nodes|
    requires s.dist[u].Some?
  {
    || (r.dist[v] == s.dist[v] && r.prev[v] == s.prev[v])
    || (&& !s.visited[v] && Edge(g, u, v) && r.prev[v] == u
        && r.dist[v] == Some(s.dist[u].value + Weight(g, u, v))
        && (s.dist[v].Some? ==> r.dist[v].value < s.dist[v].value))
  }

  /** The relaxation of all edges out of u. */
  method RelaxFrom(g: Graph, s: Search, u: nat) returns (r: Search)
    requires GoodGraph(g) && Shape(g, s) && u < |g.nodes| && s.visited[u] && s.dist[u].Some?
    ensures RelaxedTo(g, s, r, u, |g.nodes|) && Shape(g, r) && r.visited == s.visited
  {
    hide Visible, Weight, RelaxedTo;
    r := s;
    NothingRelaxed(g, s, u);
    for v := 0 to |g.nodes|
      invariant RelaxedTo(g, s, r, u, v) && Shape(g, r) && r.visited == s.visited
    {
      SourceStays(g, s, r, u, v);
      ghost var before := r;
      if !r.visited[v] && v != u {
        var candidate := r.dist[u].value + Weight(g, u, v);
        if Closer(Some(candidate), r.dist[v]) {
          var visible := IsVisible(g, u, v);
          if visible {
            r := r.(dist := r.dist[v := Some(candidate)], prev := r.prev[v := u]);
          }
        }
      }
      RelaxOneMore(g, s, before, r, u, v);
    }
  }

  lemma NothingRelaxed(g: Graph, s: Search, u: nat)
    requires GoodGraph(g) && Shape(g, s) && u < |g.nodes| && s.visited[u] && s.dist[u].Some?
    ensures RelaxedTo(g, s, s, u, 0)
  {
    hide Edge, Weight;
  }

  lemma SourceStays(g: Graph, s: Search, r: Search, u: nat, v: nat)
    requires GoodGraph(g) && Shape(g, s) && u < |g.nodes| && s.visited[u] && s.dist[u].Some?
    requires v < |g.nodes| && RelaxedTo(g, s, r, u, v)
    ensures Shape(g, r) && r.dist[u] == s.dist[u] && r.visited == s.visited
    ensures r.dist[v] == s.dist[v] && r.prev[v] == s.prev[v]
  {
    hide Edge, Weight;
    assert LoweredBy(g, s, r, u, u);
  }

  /** The step for one more node v, whichever branch was taken. */
  lemma RelaxOneMore(g: Graph, s: Search, r: Search, r': Search, u: nat, v: nat)
    requires GoodGraph(g) && Shape(g, s) && u < |g.nodes| && s.visited[u] && s.dist[u].Some?
    requires v < |g.nodes| && RelaxedTo(g, s, r, u, v)
    requires Shape(g, r) && r.dist[u] == s.dist[u] && r.dist[v] == s.dist[v] && r.prev[v] == s.prev[v]
    requires var candidate := s.dist[u].value + Weight(g, u, v);
             if !s.visited[v] && v != u && Closer(Some(candidate), s.dist[v]) && Visible(g, u, v)
             then r' == r.(dist := r.dist[v := Some(candidate)], prev := r.prev[v := u]) else r' == r
    ensures RelaxedTo(g, s, r', u, v + 1)
  {
    hide Visible, Weight;
    forall w | 0 <= w < |g.nodes| ensures LoweredBy(g, s, r', u, w) {
      assert LoweredBy(g, s, r, u, w);
    }
    forall w | 0 <= w < v + 1 && !s.visited[w] && Edge(g, u, w) ensures Relaxed(g, r', u, w) {
      if w < v { assert Relaxed(g, r, u, w); }
    }
  }

  /** One round keeps the invariant. */
  lemma RoundKeeps(g: Graph, s: Search, u: nat, n: nat, m: Search, r: Search)
    requires GoodGraph(g) && SearchInv(g, s, n) && IsNearest(g, s, u) && u != 1
    requires m == s.(visited := s.visited[u := true], order := s.order[u := n])
    requires RelaxedTo(g, m, r, u, |g.nodes|)
    ensures SearchInv(g, r, n + 1)
  {
    hide Edge, Weight, IsNorm;
    RoundGrounded(g, s, u, n, m, r);
    RoundSettled(g, s, u, n, m, r);
    RoundNearest(g, s, u, n, m, r);
  }

  lemma RoundGrounded(g: Graph, s: Search, u: nat, n: nat, m: Search, r: Search)
    requires GoodGraph(g) && SearchInv(g, s, n) && IsNearest(g, s, u) && u != 1
    requires m == s.(visited := s.visited[u := true], order := s.order[u := n])
    requires RelaxedTo(g, m, r, u, |g.nodes|)
    ensures Grounded(g, r)
  {
    hide Weight, Settled, Nearest, Visible, HasPredecessor, Edge;
    DistancesArePositive(g, s, n, u);
    WeightIsNonNegative(g, u, 0);
    assert LoweredBy(g, m, r, u, 0);
    forall v | 0 < v < |g.nodes| && r.dist[v].Some? ensures HasPredecessor(g, r, v) {
      PredecessorStays(g, s, u, n, m, r, v);
    }
    forall v | 0 <= v < |g.nodes| && r.visited[v] ensures r.dist[v].Some? {
      assert LoweredBy(g, m, r, u, v);
    }
  }

  lemma PredecessorStays(g: Graph, s: Search, u: nat, n: nat, m: Search, r: Search, v: nat)
    requires GoodGraph(g) && SearchInv(g, s, n) && IsNearest(g, s, u) && u != 1
    requires m == s.(visited := s.visited[u := true], order := s.order[u := n])
    requires RelaxedTo(g, m, r, u, |g.nodes|) && 0 < v < |g.nodes| && r.dist[v].Some?
    ensures HasPredecessor(g, r, v)
  {
    hide Weight, Settled, Nearest, Edge;
    assert LoweredBy(g, m, r, u, v) && LoweredBy(g, m, r, u, u);
    if r.prev[v] != u || r.dist[v] == s.dist[v] {
      assert HasPredecessor(g, s, v);
      assert LoweredBy(g, m, r, u, s.prev[v]);
    }
  }

  lemma DistancesArePositive(g: Graph, s: Search, n: nat, v: nat)
    requires GoodGraph(g) && SearchInv(g, s, n) && v < |g.nodes| && s.dist[v].Some?
    ensures s.dist[v].value >= 0.0
    decreases if s.visited[v] then s.order[v] else n
  {
    if v != 0 {
      assert HasPredecessor(g, s, v);
      DistancesArePositive(g, s, n, s.prev[v]);
      WeightIsNonNegative(g, s.prev[v], v);
    }
  }

  lemma RoundSettled(g: Graph, s: Search, u: nat, n: nat, m: Search, r: Search)
    requires GoodGraph(g) && SearchInv(g, s, n) && IsNearest(g, s, u) && u != 1
    requires m == s.(visited := s.visited[u := true], order := s.order[u := n])
    requires RelaxedTo(g, m, r, u, |g.nodes|)
    ensures Settled(g, r)
  {
    hide Weight, Visible, Grounded;
    forall w, v | 0 <= w < |g.nodes| && 0 <= v < |g.nodes| && r.visited[w] && Edge(g, w, v)
      ensures Relaxed(g, r, w, v)
    {
      assert LoweredBy(g, m, r, u, v) && LoweredBy(g, m, r, u, w);
      WeightIsNonNegative(g, w, v);
      VisitedIsKnown(g, s, n, w, u);
      if w != u {
        assert Relaxed(g, s, w, v);
      } else if m.visited[v] {
        VisitedIsKnown(g, s, n, v, u);
      }
    }
  }

  lemma VisitedIsKnown(g: Graph, s: Search, n: nat, w: nat, u: nat)
    requires GoodGraph(g) && SearchInv(g, s, n) && w < |g.nodes| && IsNearest(g, s, u)
    ensures s.visited[w] ==> s.dist[w].Some? && s.dist[w].value <= s.dist[u].value
  {
  }

  lemma RoundNearest(g: Graph, s: Search, u: nat, n: nat, m: Search, r: Search)
    requires GoodGraph(g) && SearchInv(g, s, n) && IsNearest(g, s, u) && u != 1
    requires m == s.(visited := s.visited[u := true], order := s.order[u := n])
    requires RelaxedTo(g, m, r, u, |g.nodes|)
    ensures Nearest(g, r)
  {
    hide Weight, Visible, Grounded, Settled, Edge;
    forall w, v | 0 <= w < |g.nodes| && 0 <= v < |g.nodes| && r.visited[w] && !r.visited[v]
                  && r.dist[w].Some? && r.dist[v].Some?
      ensures r.dist[w].value <= r.dist[v].value
    {
      assert LoweredBy(g, m, r, u, v) && LoweredBy(g, m, r, u, w);
      WeightIsNonNegative(g, u, v);
      if w != u { VisitedIsKnown(g, s, n, w, u); }
    }
  }

  // ---------------------------------------------------------------- the whole search

  ghost function VisitedNodes(g: Graph, s: Search): set<nat>
    requires Shape(g, s)
  {
    set v: nat | v < |g.nodes| && s.visited[v]
  }

  ghost function AllNodes(n: nat): (r: set<nat>)
    ensures |r| == n && forall v: nat :: v in r <==> v < n
  {
    if n == 0 then {} else AllNodes(n - 1) + {n - 1}
  }

  /** The goal is never visited, so that the search must stop before it has visited every node. */
  lemma NotAllVisited(g: Graph, s: Search, n: nat)
    requires GoodGraph(g) && SearchInv(g, s, n)
    ensures |VisitedNodes(g, s)| < |g.nodes|
  {
    var all := AllNodes(|g.nodes|);
    var rest := all - {1};
    assert 1 in all && |rest| == |g.nodes| - 1;
    SubsetSize(VisitedNodes(g, s), rest);
  }

  lemma {:induction false} SubsetSize(a: set<nat>, b: set<nat>)
    requires a <= b
    ensures |a| <= |b|
  {
    if a != {} {
      var x :| x in a;
      SubsetSize(a - {x}, b - {x});
    }
  }

  ghost predicate Exhausted(g: Graph, s: Search)
    requires GoodGraph(g) && Shape(g, s)
  {
    forall v :: 0 <= v < |g.nodes| && !s.visited[v] && s.dist[v].Some? ==>
      s.dist[1].Some? && s.dist[1].value <= s.dist[v].value
  }

  method Explore(g: Graph) returns (s: Search, n: nat)
    requires GoodGraph(g)
    ensures SearchInv(g, s, n) && Exhausted(g, s)
  {
    hide Edge, Weight, RelaxedTo, SearchInv, IsNearest;
    var count := |g.nodes|;
    s := Search(seq(count, i => if i == 0 then Some(0.0) else None), seq(count, _ => count),
                seq(count, _ => false), seq(count, _ => 0));
    n := 0;
    SearchStarts(g, s);
    while n < count
      invariant SearchInv(g, s, n) && Shape(g, s) && |VisitedNodes(g, s)| == n
    {
      var picked := Pick(g, s);
      PickedIsNearest(g, s, picked);
      if picked.None? { return; }
      if picked.value == 1 { return; }
      var u := picked.value;
      var m := s.(visited := s.visited[u := true], order := s.order[u := n]);
      var r := RelaxFrom(g, m, u);
      RoundKeeps(g, s, u, n, m, r);
      OneMoreVisited(g, s, u, m, r);
      s := r;
      n := n + 1;
    }
    NotAllVisited(g, s, n);
    assert false;
  }

  lemma SearchStarts(g: Graph, s: Search)
    requires GoodGraph(g) && Shape(g, s)
    requires forall v :: 0 <= v < |g.nodes| ==>
               s.dist[v] == (if v == 0 then Some(0.0) else None) && !s.visited[v]
    ensures SearchInv(g, s, 0) && |VisitedNodes(g, s)| == 0
  {
    hide Edge, Weight;
    assert VisitedNodes(g, s) == {};
  }

  lemma PickedIsNearest(g: Graph, s: Search, u: Option<nat>)
    requires GoodGraph(g) && Shape(g, s)
    requires u.Some? ==> IsNearest(g, s, u.value)
    requires u.None? ==> forall v :: 0 <= v < |g.nodes| && !s.visited[v] ==> s.dist[v].None?
    ensures u == None || u == Some(1) ==> Exhausted(g, s)
    ensures u.Some? ==> u.value < |g.nodes| && !s.visited[u.value] && s.dist[u.value].Some?
  {
  }

  lemma OneMoreVisited(g: Graph, s: Search, u: nat, m: Search, r: Search)
    requires GoodGraph(g) && Shape(g, s) && u < |g.nodes| && !s.visited[u]
    requires m.visited == s.visited[u := true] && Shape(g, r) && r.visited == m.visited
    ensures |VisitedNodes(g, r)| == |VisitedNodes(g, s)| + 1
  {
    assert VisitedNodes(g, r) == VisitedNodes(g, s) + {u};
  }

  // ---------------------------------------------------------------- the path

  /** The walk over `previous` back from the goal. Each step goes to a node visited earlier, so that
      it ends at the start. */
  method Backtrack(g: Graph, s: Search, ghost n: nat) returns (p: seq<nat>)
    requires GoodGraph(g) && SearchInv(g, s, n) && s.dist[1].Some?
    ensures Walk(g, p) && FromTo(p, 0, 1) && s.dist[1].value == Cost(g, p)
  {
    hide Settled, Nearest, Weight;
    p := [1];
    while p[0] != 0
      invariant Walk(g, p) && p[|p| - 1] == 1 && s.dist[p[0]].Some?
      invariant |p| > 1 ==> s.visited[p[0]]
      invariant s.dist[p[0]].value + Cost(g, p) == s.dist[1].value
      decreases if s.visited[p[0]] then s.order[p[0]] else n
    {
      assert HasPredecessor(g, s, p[0]);
      WalkBack(g, s.prev[p[0]], p);
      p := [s.prev[p[0]]] + p;
    }
  }

  lemma WalkBack(g: Graph, u: nat, p: seq<nat>)
    requires GoodGraph(g) && Walk(g, p) && Edge(g, u, p[0])
    ensures Walk(g, [u] + p) && Cost(g, [u] + p) == Weight(g, u, p[0]) + Cost(g, p)
  {
    hide Visible, Weight;
    var q := [u] + p;
    forall i | 0 <= i < |q| - 1 ensures Edge(g, q[i], q[i + 1]) {
      if i > 0 { assert Edge(g, p[i - 1], p[i]); }
    }
    CostBack(g, u, p);
  }

  lemma {:induction false} CostBack(g: Graph, u: nat, p: seq<nat>)
    requires |g.nodes| >= 2 && u < |g.nodes| && p != [] && forall i :: 0 <= i < |p| ==> p[i] < |g.nodes|
    ensures Cost(g, [u] + p) == Weight(g, u, p[0]) + Cost(g, p)
  {
    hide Weight;
    if |p| == 1 {
      assert ([u] + p)[..1] == [u];
    } else {
      CostBack(g, u, p[..|p| - 1]);
      assert ([u] + p)[..|p|] == [u] + p[..|p| - 1];
    }
  }

  /** The shortest way from the start to the goal. The goal is reported unreachable exactly when no
      walk of the visibility graph leads there; otherwise the result is such a walk and none, of any
      length, is cheaper. */
  method ShortestWay(g: Graph) returns (p: Option<seq<nat>>)
    requires GoodGraph(g)
    ensures p.None? <==> !exists q :: Walk(g, q) && FromTo(q, 0, 1)
    ensures p.Some? ==> Walk(g, p.value) && FromTo(p.value, 0, 1)
    ensures p.Some? ==> forall q :: Walk(g, q) && FromTo(q, 0, 1) ==> Cost(g, p.value) <= Cost(g, q)
  {
    var s, n := Explore(g);
    hide Edge, Weight, SearchInv, Exhausted;
    forall q | Walk(g, q) && FromTo(q, 0, 1)
      ensures |s.dist| > 1 && s.dist[1].Some? && s.dist[1].value <= Cost(g, q)
    {
      EveryWalkCosts(g, s, n, q);
    }
    HasShape(g, s, n);
    if s.dist[1].None? { return None; }
    var way := Backtrack(g, s, n);
    p := Some(way);
  }

  lemma HasShape(g: Graph, s: Search, n: nat)
    requires GoodGraph(g) && SearchInv(g, s, n)
    ensures Shape(g, s)
  {
  }

  lemma EveryWalkCosts(g: Graph, s: Search, n: nat, q: seq<nat>)
    requires GoodGraph(g) && SearchInv(g, s, n) && Exhausted(g, s) && Walk(g, q) && FromTo(q, 0, 1)
    ensures |s.dist| > 1 && s.dist[1].Some? && s.dist[1].value <= Cost(g, q)
  {
    hide Edge, Weight, Grounded, Settled, Nearest;
    SearchIsOptimal(g, s, n, q);
  }

  // ---------------------------------------------------------------- planVisibilityPath

  predicate InFence(a: Point, f: Fence, erosion: real) {
    !f.enabled || (f.xmin + erosion - EPS <= a.x <= f.xmax - erosion + EPS
                   && f.ymin + erosion - EPS <= a.y <= f.ymax - erosion + EPS)
  }

  /** Inside the eroded fence and in no expanded obstacle. */
  ghost predicate Free(norm: (real, real) -> real, walls: seq<Polygon>, f: Fence, erosion: real, a: Point)
    requires forall k :: 0 <= k < |walls| ==> Proper(norm, walls[k])
  {
    InFence(a, f, erosion) && forall k :: 0 <= k < |walls| ==> !Interior(norm, walls[k], a)
  }

  method IsFree(norm: (real, real) -> real, walls: seq<Polygon>, f: Fence, erosion: real, a: Point)
    returns (free: bool)
    requires forall k :: 0 <= k < |walls| ==> Proper(norm, walls[k])
    ensures free == Free(norm, walls, f, erosion, a)
  {
    hide Interior;
    if !InFence(a, f, erosion) { return false; }
    for k := 0 to |walls|
      invariant forall j :: 0 <= j < k ==> !Interior(norm, walls[j], a)
    {
      var inside := InsideInterior(norm, walls[k], a);
      if inside { return false; }
    }
    free := true;
  }

  /** The free corners, obstacle by obstacle. */
  ghost predicate FreeCorner(norm: (real, real) -> real, walls: seq<Polygon>, f: Fence, erosion: real, a: Point)
    requires forall k :: 0 <= k < |walls| ==> Proper(norm, walls[k])
  {
    Free(norm, walls, f, erosion, a) && exists k :: 0 <= k < |walls| && a in walls[k]
  }

  method Nodes(norm: (real, real) -> real, walls: seq<Polygon>, f: Fence, erosion: real, start: Point,
               goal: Point) returns (nodes: seq<Point>)
    requires forall k :: 0 <= k < |walls| ==> Proper(norm, walls[k])
    ensures |nodes| >= 2 && nodes[0] == start && nodes[1] == goal
    ensures forall a :: a in nodes[2..] <==> FreeCorner(norm, walls, f, erosion, a)
  {
    hide Free;
    var corners: seq<Point> := [];
    for k := 0 to |walls|
      invariant forall a :: a in corners <==>
                  Free(norm, walls, f, erosion, a) && exists j :: 0 <= j < k && a in walls[j]
    {
      ghost var before := corners;
      for i := 0 to |walls[k]|
        invariant forall a :: a in corners <==> a in before || (Free(norm, walls, f, erosion, a) && a in walls[k][..i])
      {
        assert walls[k][..i + 1] == walls[k][..i] + [walls[k][i]];
        var free := IsFree(norm, walls, f, erosion, walls[k][i]);
        if free { corners := corners + [walls[k][i]]; }
      }
      assert walls[k][..|walls[k]|] == walls[k];
    }
    nodes := [start, goal] + corners;
    assert nodes[2..] == corners;
  }

  datatype PathResult = NoClearance | NoWay | Path(points: seq<Point>)

  /** A polyline between visible nodes: no two consecutive points pass through an obstacle. */
  ghost predicate ClearOf(norm: (real, real) -> real, walls: seq<Polygon>, points: seq<Point>)
    requires forall k :: 0 <= k < |walls| ==> Proper(norm, walls[k])
  {
    forall i, k :: 0 <= i < |points| - 1 && 0 <= k < |walls| ==>
      !Enters(norm, walls[k], points[i], points[i + 1])
  }

  /** planVisibilityPath on the expanded obstacles: start and goal must be free; a path runs from the
      start to the goal, its inner points are free corners, and no leg enters an obstacle. */
  method PlanVisibilityPath(norm: (real, real) -> real, walls: seq<Polygon>, f: Fence, erosion: real,
                            start: Point, goal: Point) returns (r: PathResult, ghost g: Graph,
                                                                ghost way: Option<seq<nat>>)
    requires IsNorm(norm) && forall k :: 0 <= k < |walls| ==> Proper(norm, walls[k])
    ensures r.NoClearance? <==> !(Free(norm, walls, f, erosion, start) && Free(norm, walls, f, erosion, goal))
    ensures !r.NoClearance? ==>
              && GoodGraph(g) && g.walls == walls && g.norm == norm
              && g.nodes[0] == start && g.nodes[1] == goal
              && (forall a :: a in g.nodes[2..] <==> FreeCorner(norm, walls, f, erosion, a))
              && (r.NoWay? <==> !exists q :: Walk(g, q) && FromTo(q, 0, 1))
              && (r.Path? ==> way.Some? && Walk(g, way.value) && FromTo(way.value, 0, 1)
                              && forall q :: Walk(g, q) && FromTo(q, 0, 1) ==> Cost(g, way.value) <= Cost(g, q))
    ensures r.Path? ==>
              && |r.points| >= 1 && r.points[0] == start && r.points[|r.points| - 1] == goal
              && ClearOf(norm, walls, r.points)
              && |way.value| == |r.points|
              && forall i :: 0 <= i < |r.points| ==> r.points[i] == g.nodes[way.value[i]]
  {
    hide Free, FreeCorner, Edge, Weight, Cost, Enters;
    g, way := Graph([start, goal], [], norm), None;
    var freeStart := IsFree(norm, walls, f, erosion, start);
    var freeGoal := IsFree(norm, walls, f, erosion, goal);
    if !freeStart || !freeGoal { return NoClearance, g, way; }
    var nodes := Nodes(norm, walls, f, erosion, start, goal);
    var graph := Graph(nodes, walls, norm);
    var found := ShortestWay(graph);
    g, way := graph, found;
    if found.None? { return NoWay, g, way; }
    var points := seq(|found.value|, i requires 0 <= i < |found.value| => nodes[found.value[i]]);
    WalkIsClear(graph, found.value, points);
    r := Path(points);
  }

  lemma WalkIsClear(g: Graph, p: seq<nat>, points: seq<Point>)
    requires GoodGraph(g) && Walk(g, p) && |points| == |p|
    requires forall i :: 0 <= i < |p| ==> points[i] == g.nodes[p[i]]
    ensures ClearOf(g.norm, g.walls, points)
  {
    hide Enters;
    forall i, k | 0 <= i < |points| - 1 && 0 <= k < |g.walls|
      ensures !Enters(g.norm, g.walls[k], points[i], points[i + 1])
    {
      assert Edge(g, p[i], p[i + 1]);
    }
  }
}
