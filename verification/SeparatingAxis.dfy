/** The clearance test is exact (reset_planner.cpp, clearAtLeast): it misses nothing either. Convex
    polygons that are at least the margin apart always have an edge of the one or the other whose
    normal tells them apart, and then the distances of the corners decide. */
module SeparatingAxis {
  import opened ResetProtocol
  import opened Geometry
  import opened Arithmetic
  import opened Hulls
  import opened Separation

  // ---------------------------------------------------------------- points of the hull

  function Between(x: real, y: real, s: real): real { (1.0 - s) * x + s * y }

  function Blend(u: seq<real>, v: seq<real>, s: real): seq<real>
    requires |u| == |v|
  {
    seq(|u|, k requires 0 <= k < |u| => Between(u[k], v[k], s))
  }

  lemma {:induction false} BlendMeans(u: seq<real>, v: seq<real>, vs: seq<Point>, s: real)
    requires |u| == |v| == |vs|
    ensures Sum(Blend(u, v, s)) == Between(Sum(u), Sum(v), s)
    ensures MeanX(Blend(u, v, s), vs) == Between(MeanX(u, vs), MeanX(v, vs), s)
    ensures MeanY(Blend(u, v, s), vs) == Between(MeanY(u, vs), MeanY(v, vs), s)
  {
    hide Between;
    NothingBetween(s);
    if u != [] {
      var n := |u| - 1;
      BlendMeans(u[..n], v[..n], vs[..n], s);
      BlendStart(u, v, s);
      Adds(Sum(u[..n]), Sum(v[..n]), u[n], v[n], s);
      MeansSplit(u, vs);
      MeansSplit(v, vs);
      MeansSplit(Blend(u, v, s), vs);
      hide MeanX, MeanY;
      Part(MeanX(u[..n], vs[..n]), MeanX(v[..n], vs[..n]), u[n], v[n], vs[n].x, s, MeanX(u, vs), MeanX(v, vs));
      Part(MeanY(u[..n], vs[..n]), MeanY(v[..n], vs[..n]), u[n], v[n], vs[n].y, s, MeanY(u, vs), MeanY(v, vs));
    }
  }

  lemma MeansSplit(w: seq<real>, vs: seq<Point>)
    requires |w| == |vs| > 0
    ensures var n := |w| - 1;
            && MeanX(w, vs) == MeanX(w[..n], vs[..n]) + w[n] * vs[n].x
            && MeanY(w, vs) == MeanY(w[..n], vs[..n]) + w[n] * vs[n].y
  {
  }

  lemma NothingBetween(s: real)
    ensures Between(0.0, 0.0, s) == 0.0
  {
  }

  lemma Part(a: real, b: real, u: real, v: real, x: real, s: real, c: real, d: real)
    requires c == a + u * x && d == b + v * x
    ensures Between(a, b, s) + Between(u, v, s) * x == Between(c, d, s)
  {
    Distributes(s, u, v, x);
    Adds(a, b, u * x, v * x, s);
  }

  lemma BlendStart(u: seq<real>, v: seq<real>, s: real)
    requires |u| == |v| > 0
    ensures var n := |u| - 1; Blend(u, v, s)[..n] == Blend(u[..n], v[..n], s)
    ensures Blend(u, v, s)[|u| - 1] == Between(u[|u| - 1], v[|u| - 1], s)
  {
    hide Between;
  }

  lemma Distributes(s: real, u: real, v: real, x: real)
    ensures Between(u, v, s) * x == Between(u * x, v * x, s)
  {
  }

  lemma Adds(a: real, b: real, c: real, d: real, s: real)
    ensures Between(a, b, s) + Between(c, d, s) == Between(a + c, b + d, s)
  {
  }

  lemma BetweenPositives(x: real, y: real, s: real)
    requires x >= 0.0 && y >= 0.0 && Unit(s)
    ensures Between(x, y, s) >= 0.0
  {
    NotNegative(1.0 - s, x);
    NotNegative(s, y);
  }

  /** A hull is convex. */
  lemma HullIsConvex(p: Point, q: Point, vs: seq<Point>, s: real)
    requires InHull(p, vs) && InHull(q, vs) && Unit(s)
    ensures InHull(Mid(p, q, s), vs)
  {
    var u: seq<real> :| |u| == |vs| && Weights(u) && p.x == MeanX(u, vs) && p.y == MeanY(u, vs);
    var v: seq<real> :| |v| == |vs| && Weights(v) && q.x == MeanX(v, vs) && q.y == MeanY(v, vs);
    var w := Blend(u, v, s);
    BlendMeans(u, v, vs, s);
    MidIsBlend(p, q, s);
    assert Between(1.0, 1.0, s) == 1.0;
    hide Between, Mid, MeanX, MeanY, Sum;
    forall k | 0 <= k < |w| ensures w[k] >= 0.0 { BetweenPositives(u[k], v[k], s); }
    assert Weights(w);
  }

  lemma MidIsBlend(p: Point, q: Point, s: real)
    ensures Mid(p, q, s) == Point(Between(p.x, q.x, s), Between(p.y, q.y, s))
  {
  }

  function Single(n: nat, k: nat): seq<real> { seq(n, i => if i == k then 1.0 else 0.0) }

  lemma {:induction false} SingleMeans(vs: seq<Point>, k: nat)
    ensures Sum(Single(|vs|, k)) == if k < |vs| then 1.0 else 0.0
    ensures MeanX(Single(|vs|, k), vs) == if k < |vs| then vs[k].x else 0.0
    ensures MeanY(Single(|vs|, k), vs) == if k < |vs| then vs[k].y else 0.0
  {
    if vs != [] {
      var n := |vs| - 1;
      assert Single(|vs|, k)[..n] == Single(n, k);
      SingleMeans(vs[..n], k);
    }
  }

  lemma CornerInHull(vs: seq<Point>, k: nat)
    requires k < |vs|
    ensures InHull(vs[k], vs)
  {
    SingleMeans(vs, k);
    assert Weights(Single(|vs|, k));
  }

  lemma EdgeInHull(vs: seq<Point>, e: nat, s: real)
    requires e < |vs| && Unit(s)
    ensures InHull(OnEdge(vs, e, s), vs)
  {
    CornerInHull(vs, e);
    CornerInHull(vs, Next(e, |vs|));
    HullIsConvex(vs[e], vs[Next(e, |vs|)], vs, s);
  }

  // ---------------------------------------------------------------- corners are far from edges

  lemma ProjectedIsUnit(p: Point, a: Point, b: Point)
    ensures Unit(Projected(p, a, b))
  {
  }

  lemma CornerIsFar(p: Point, vs: seq<Point>, e: nat, m: real)
    requires e < |vs| && forall q: Point :: InHull(q, vs) ==> Far(p, q, m)
    ensures EdgeFar(p, vs, e, m)
  {
    var f := Next(e, |vs|);
    assert f == (e + 1) % |vs|;
    var s := Projected(p, vs[e], vs[f]);
    ProjectedIsUnit(p, vs[e], vs[f]);
    EdgeInHull(vs, e, s);
    SegmentAt(p, vs[e], vs[f]);
    FarIs(OnEdge(vs, e, s), p, m);
    FarSwaps(p, OnEdge(vs, e, s), m);
    hide SegmentDistance2, Mid, InHull, Projected;
  }

  lemma CornersAreFar(a: seq<Point>, b: seq<Point>, m: real)
    requires FarApart(a, b, m)
    ensures CornersFar(a, b, m) && CornersFar(b, a, m)
  {
    hide EdgeFar, InHull, Far;
    forall i, e | 0 <= i < |a| && 0 <= e < |b| ensures EdgeFar(a[i], b, e, m) {
      CornerInHull(a, i);
      CornerIsFar(a[i], b, e, m);
    }
    forall i, e | 0 <= i < |b| && 0 <= e < |a| ensures EdgeFar(b[i], a, e, m) {
      CornerInHull(b, i);
      forall q: Point | InHull(q, a) ensures Far(b[i], q, m) { FarSwaps(q, b[i], m); }
      CornerIsFar(b[i], a, e, m);
    }
  }

  // ---------------------------------------------------------------- the nearest pair

  ghost predicate Disjoint(a: seq<Point>, b: seq<Point>) { forall p: Point :: InHull(p, a) ==> !InHull(p, b) }

  lemma FarIsDisjoint(a: seq<Point>, b: seq<Point>, m: real)
    requires FarApart(a, b, m) && m > 0.0
    ensures Disjoint(a, b)
  {
    hide InHull;
    forall p: Point | InHull(p, a) ensures !InHull(p, b) {
      NotFarFromItself(p, m);
    }
  }

  lemma NotFarFromItself(p: Point, m: real)
    requires m > 0.0
    ensures !Far(p, p, m)
  {
    SquareIsPositive(m);
  }

  /** The nearest point of edge f of b to corner i of a. */
  function Foot(a: seq<Point>, b: seq<Point>, i: nat, f: nat): Point
    requires i < |a| && f < |b|
  {
    OnEdge(b, f, Projected(a[i], b[f], b[Next(f, |b|)]))
  }

  function Near2(a: seq<Point>, b: seq<Point>, i: nat, f: nat): real
    requires i < |a| && f < |b|
  {
    var q := Foot(a, b, i, f);
    Len2(a[i].x - q.x, a[i].y - q.y)
  }

  lemma FootIsNearest(a: seq<Point>, b: seq<Point>, i: nat, f: nat, t: real)
    requires i < |a| && f < |b| && Unit(t)
    ensures var q := OnEdge(b, f, t); Near2(a, b, i, f) <= Len2(a[i].x - q.x, a[i].y - q.y)
  {
    SegmentAt(a[i], b[f], b[Next(f, |b|)]);
    SegmentIsLeast(a[i], b[f], b[Next(f, |b|)], t);
    hide SegmentDistance2, Mid, Projected;
  }

  /** The least of all corner-edge distances, one way round. */
  lemma {:induction false} LeastEdge(a: seq<Point>, b: seq<Point>, i: nat, n: nat) returns (f: nat)
    requires i < |a| && 0 < n <= |b|
    ensures f < n && forall g: nat :: g < n ==> Near2(a, b, i, f) <= Near2(a, b, i, g)
  {
    hide Near2;
    if n == 1 { return 0; }
    f := LeastEdge(a, b, i, n - 1);
    if Near2(a, b, i, n - 1) < Near2(a, b, i, f) { f := n - 1; }
  }

  lemma {:induction false} LeastCorner(a: seq<Point>, b: seq<Point>, n: nat) returns (i: nat, f: nat)
    requires |b| > 0 && 0 < n <= |a|
    ensures i < n && f < |b|
    ensures forall j: nat, g: nat :: j < n && g < |b| ==> Near2(a, b, i, f) <= Near2(a, b, j, g)
  {
    hide Near2;
    if n == 1 {
      i := 0;
      f := LeastEdge(a, b, 0, |b|);
    } else {
      i, f := LeastCorner(a, b, n - 1);
      var g := LeastEdge(a, b, n - 1, |b|);
      if Near2(a, b, n - 1, g) < Near2(a, b, i, f) { i, f := n - 1, g; }
    }
  }

  /** No corner of the one is nearer to an edge of the other. */
  ghost predicate Least(a: seq<Point>, b: seq<Point>, d2: real) {
    && (forall i: nat, f: nat :: i < |a| && f < |b| ==> d2 <= Near2(a, b, i, f))
    && (forall i: nat, f: nat :: i < |b| && f < |a| ==> d2 <= Near2(b, a, i, f))
  }

  /** Nor is any point of the one edge to the other. */
  lemma EdgesNoNearer(a: seq<Point>, b: seq<Point>, d2: real, e: nat, s: real, f: nat, t: real)
    requires Least(a, b, d2) && Disjoint(a, b) && e < |a| && f < |b| && Unit(s) && Unit(t)
    ensures var p, q := OnEdge(a, e, s), OnEdge(b, f, t); d2 <= Len2(q.x - p.x, q.y - p.y)
  {
    var a0, a1, b0, b1 := a[e], a[Next(e, |a|)], b[f], b[Next(f, |b|)];
    hide InHull, Near2, Mid;
    forall x: real, y: real | Unit(x) && Unit(y) ensures Mid(a0, a1, x) != Mid(b0, b1, y) {
      EdgeInHull(a, e, x);
      EdgeInHull(b, f, y);
    }
    var x, y := NearestAtEnd(a0, a1, b0, b1, s, t);
    EndsNoNearer(a, b, d2, e, x, f, y);
  }

  lemma EndsNoNearer(a: seq<Point>, b: seq<Point>, d2: real, e: nat, x: real, f: nat, y: real)
    requires Least(a, b, d2) && e < |a| && f < |b| && Unit(x) && Unit(y) && AtEnd(x, y)
    ensures var p, q := OnEdge(a, e, x), OnEdge(b, f, y); d2 <= Len2(q.x - p.x, q.y - p.y)
  {
    StartOfEdge(a, e);
    EndOfEdge(a, e);
    StartOfEdge(b, f);
    EndOfEdge(b, f);
    LenSwaps(OnEdge(a, e, x), OnEdge(b, f, y));
    hide OnEdge, Near2, Len2;
    if x == 0.0 || x == 1.0 {
      FootIsNearest(a, b, if x == 0.0 then e else Next(e, |a|), f, y);
    } else {
      FootIsNearest(b, a, if y == 0.0 then f else Next(f, |b|), e, x);
    }
  }

  /** Nor any point of the hulls. */
  lemma HullsNoNearer(a: seq<Point>, b: seq<Point>, d2: real, p: Point, q: Point, sa: real, sb: real)
    requires Least(a, b, d2) && Disjoint(a, b) && InHull(p, a) && InHull(q, b) && TurnsBy(a, sa) && TurnsBy(b, sb)
    ensures d2 <= Len2(q.x - p.x, q.y - p.y)
  {
    hide InHull, TurnsBy, Least, Disjoint, OnEdge, Moved, Len2;
    var e, s, u := LeavesTowards(a, b, p, q, sa);
    var x := OnEdge(a, e, s);
    MovedNearer(p, q, u);
    EdgeInHull(a, e, s);
    DisjointSwaps(a, b);
    var f, t, w := LeavesTowards(b, a, q, x, sb);
    MovedNearer(q, x, w);
    LenSwaps(x, q);
    LenSwaps(x, OnEdge(b, f, t));
    EdgesNoNearer(a, b, d2, e, s, f, t);
  }

  lemma DisjointSwaps(a: seq<Point>, b: seq<Point>)
    requires Disjoint(a, b)
    ensures Disjoint(b, a)
  {
    hide InHull;
  }

  /** The way from a point of the one to a point of the other leaves the one on its way. */
  lemma LeavesTowards(a: seq<Point>, b: seq<Point>, p: Point, q: Point, sign: real) returns (e: nat, s: real, t: real)
    requires Disjoint(a, b) && InHull(p, a) && InHull(q, b) && TurnsBy(a, sign)
    ensures e < |a| && Unit(s) && Unit(t) && OnEdge(a, e, s) == Moved(p, q.x - p.x, q.y - p.y, t)
  {
    hide InHull, TurnsBy;
    assert p != q;
    e, s, t := Exit(p, a, q.x - p.x, q.y - p.y, sign);
    if t > 1.0 {
      EdgeInHull(a, e, s);
      var f := Divided(1.0, t);
      Quotient(f, 1.0, t, 1.0);
      HullIsConvex(p, OnEdge(a, e, s), a, f);
      BackAgain(p, q, t, f);
      assert false;
    }
  }

  lemma BackAgain(p: Point, q: Point, t: real, f: real)
    requires Times(f, t) == 1.0
    ensures Mid(p, Moved(p, q.x - p.x, q.y - p.y, t), f) == q
  {
    var dx, dy := q.x - p.x, q.y - p.y;
    assert f * (t * dx) == Times(f, t) * dx && f * (t * dy) == Times(f, t) * dy;
  }

  // ---------------------------------------------------------------- the direction of the nearest pair

  /** Going towards w does not bring one nearer. */
  lemma NotBehind(nx: real, ny: real, wx: real, wy: real)
    requires forall s: real :: 0.0 < s <= 1.0 ==> Stepped2(nx, ny, wx, wy, s) >= Len2(nx, ny)
    ensures Dots(nx, ny, wx, wy) >= 0.0
  {
    if Dots(nx, ny, wx, wy) < 0.0 { var s := StepsNearer(nx, ny, wx, wy); }
  }

  lemma StepsNearer(nx: real, ny: real, wx: real, wy: real) returns (s: real)
    requires Dots(nx, ny, wx, wy) < 0.0
    ensures 0.0 < s <= 1.0 && Stepped2(nx, ny, wx, wy, s) < Len2(nx, ny)
  {
    var c, l := -Dots(nx, ny, wx, wy), Len2(wx, wy);
    LenIsPositive(wx, wy);
    if wx == 0.0 && wy == 0.0 { NoStep(nx, ny); }
    s := Fraction(c, l);
    SteppedIs(nx, ny, wx, wy, s);
    SquareIsPositive(s);
    TimesMore(c, Times(s, l), s);
    TimesLess(c, 0.0, s);
    Regroup(s, l, c);
    hide Times, Stepped2, Len2, Dots;
  }

  function Stepped2(nx: real, ny: real, wx: real, wy: real, s: real): real { Len2(nx + s * wx, ny + s * wy) }

  lemma NoStep(nx: real, ny: real)
    ensures Dots(nx, ny, 0.0, 0.0) == 0.0
  {
  }

  lemma Fraction(c: real, l: real) returns (s: real)
    requires c > 0.0 && l > 0.0
    ensures 0.0 < s <= 1.0 && Times(s, l) <= c
  {
    var q := Divided(c, l);
    if q <= 0.0 { TimesMore(0.0, q, l); OneTimes(l); }
    s := if q <= 1.0 then q else 1.0;
    TimesMore(q, s, l);
  }

  lemma SteppedIs(nx: real, ny: real, wx: real, wy: real, s: real)
    ensures Stepped2(nx, ny, wx, wy, s)
         == Len2(nx, ny) + 2.0 * Times(s, Dots(nx, ny, wx, wy)) + Times(Times(s, s), Len2(wx, wy))
  {
  }

  lemma Regroup(s: real, l: real, c: real)
    ensures Times(Times(s, s), l) == Times(Times(s, l), s) && Times(s, -c) == -Times(c, s) && Times(0.0, s) == 0.0
  {
  }

  /** Nothing of a lies behind the nearest corner, nothing of b beyond the nearest point. */
  ghost predicate Apart(a: seq<Point>, b: seq<Point>, p: Point, q: Point) {
    && (forall j :: 0 <= j < |a| ==> Dots(p.x - q.x, p.y - q.y, a[j].x - p.x, a[j].y - p.y) >= 0.0)
    && (forall k :: 0 <= k < |b| ==> Dots(p.x - q.x, p.y - q.y, q.x - b[k].x, q.y - b[k].y) >= 0.0)
  }

  lemma NearestIsApart(a: seq<Point>, b: seq<Point>, p: Point, q: Point)
    requires InHull(p, a) && InHull(q, b)
    requires forall x: Point, y: Point :: InHull(x, a) && InHull(y, b) ==> Len2(p.x - q.x, p.y - q.y) <= Gap(x, y)
    ensures Apart(a, b, p, q)
  {
    hide InHull;
    forall j | 0 <= j < |a| ensures Dots(p.x - q.x, p.y - q.y, a[j].x - p.x, a[j].y - p.y) >= 0.0 {
      NearestHere(a, b, p, q, j);
    }
    forall k | 0 <= k < |b| ensures Dots(p.x - q.x, p.y - q.y, q.x - b[k].x, q.y - b[k].y) >= 0.0 {
      NearestThere(a, b, p, q, k);
    }
  }

  function Gap(x: Point, y: Point): real { Len2(x.x - y.x, x.y - y.y) }

  lemma NearestHere(a: seq<Point>, b: seq<Point>, p: Point, q: Point, j: nat)
    requires InHull(p, a) && InHull(q, b) && j < |a|
    requires forall x: Point, y: Point :: InHull(x, a) && InHull(y, b) ==> Len2(p.x - q.x, p.y - q.y) <= Gap(x, y)
    ensures Dots(p.x - q.x, p.y - q.y, a[j].x - p.x, a[j].y - p.y) >= 0.0
  {
    hide InHull, Dots;
    CornerInHull(a, j);
    var nx, ny, wx, wy := p.x - q.x, p.y - q.y, a[j].x - p.x, a[j].y - p.y;
    forall s: real | 0.0 < s <= 1.0 ensures Stepped2(nx, ny, wx, wy, s) >= Len2(nx, ny) {
      HullIsConvex(p, a[j], a, s);
      StepsHere(p, q, a[j], s);
    }
    NotBehind(nx, ny, wx, wy);
  }

  lemma StepsHere(p: Point, q: Point, r: Point, s: real)
    ensures Gap(Mid(p, r, s), q) == Stepped2(p.x - q.x, p.y - q.y, r.x - p.x, r.y - p.y, s)
    ensures Gap(p, Mid(q, r, s)) == Stepped2(p.x - q.x, p.y - q.y, q.x - r.x, q.y - r.y, s)
  {
    assert Mid(p, r, s).x - q.x == p.x - q.x + s * (r.x - p.x);
    assert Mid(p, r, s).y - q.y == p.y - q.y + s * (r.y - p.y);
    assert p.x - Mid(q, r, s).x == p.x - q.x + s * (q.x - r.x);
    assert p.y - Mid(q, r, s).y == p.y - q.y + s * (q.y - r.y);
  }

  lemma NearestThere(a: seq<Point>, b: seq<Point>, p: Point, q: Point, k: nat)
    requires InHull(p, a) && InHull(q, b) && k < |b|
    requires forall x: Point, y: Point :: InHull(x, a) && InHull(y, b) ==> Len2(p.x - q.x, p.y - q.y) <= Gap(x, y)
    ensures Dots(p.x - q.x, p.y - q.y, q.x - b[k].x, q.y - b[k].y) >= 0.0
  {
    hide InHull, Dots;
    CornerInHull(b, k);
    var nx, ny, wx, wy := p.x - q.x, p.y - q.y, q.x - b[k].x, q.y - b[k].y;
    forall s: real | 0.0 < s <= 1.0 ensures Stepped2(nx, ny, wx, wy, s) >= Len2(nx, ny) {
      HullIsConvex(q, b[k], b, s);
      StepsHere(p, q, b[k], s);
    }
    NotBehind(nx, ny, wx, wy);
  }

  // ---------------------------------------------------------------- an edge along a separating line

  lemma SideBySide(a: real, b: real, k: real)
    ensures k > 0.0 && Times(k, b) > Times(k, a) ==> b > a
    ensures k < 0.0 && Times(k, b) > Times(k, a) ==> a > b
  {
    if k > 0.0 && b <= a { TimesMore(a, b, k); TimesSwap(k, a); TimesSwap(k, b); }
    if k < 0.0 && a <= b {
      TimesMore(b, a, -k);
      TimesMinus(b, k);
      TimesMinus(a, k);
      TimesSwap(k, a);
      TimesSwap(k, b);
    }
  }

  lemma DotScales(nx: real, ny: real, wx: real, wy: real, k: real, p: Point)
    requires nx == k * -wy && ny == k * wx
    ensures Dot(nx, ny, p) == Times(k, Dot(-wy, wx, p))
  {
  }

  /** A separating line along an edge: the normal of the edge separates. */
  lemma EdgeDecides(vs: seq<Point>, e: nat, a: seq<Point>, b: seq<Point>, nx: real, ny: real)
    requires e < |vs| && RealEdge(Edge(vs, e)) && StrictlyBeyond(nx, ny, b, a)
    requires Dots(nx, ny, Edge(vs, e).0, Edge(vs, e).1) == 0.0 && (nx != 0.0 || ny != 0.0)
    ensures PositiveOnEdge(vs, e, a, b)
  {
    var (wx, wy) := Edge(vs, e);
    var k := NormalScale(nx, ny, wx, wy);
    assert forall i, j :: 0 <= i < |b| && 0 <= j < |a| ==> Dot(nx, ny, a[j]) > Dot(nx, ny, b[i]);
    hide Edge, RealEdge, Dots;
    if k > 0.0 {
      forall i, j | 0 <= i < |b| && 0 <= j < |a| ensures Dot(-wy, wx, a[j]) > Dot(-wy, wx, b[i]) {
        DotScales(nx, ny, wx, wy, k, a[j]);
        DotScales(nx, ny, wx, wy, k, b[i]);
        SideBySide(Dot(-wy, wx, b[i]), Dot(-wy, wx, a[j]), k);
      }
      assert StrictlyBeyond(-wy, wx, b, a);
    } else {
      forall i, j | 0 <= i < |a| && 0 <= j < |b| ensures Dot(-wy, wx, b[j]) > Dot(-wy, wx, a[i]) {
        DotScales(nx, ny, wx, wy, k, a[i]);
        DotScales(nx, ny, wx, wy, k, b[j]);
        SideBySide(Dot(-wy, wx, b[j]), Dot(-wy, wx, a[i]), k);
      }
      assert StrictlyBeyond(-wy, wx, a, b);
    }
  }

  lemma NoScale(wx: real, wy: real)
    ensures 0.0 * -wy == 0.0 && 0.0 * wx == 0.0
  {
  }

  lemma NormalScale(nx: real, ny: real, wx: real, wy: real) returns (k: real)
    requires RealEdge((wx, wy)) && Dots(nx, ny, wx, wy) == 0.0 && (nx != 0.0 || ny != 0.0)
    ensures k != 0.0 && nx == k * -wy && ny == k * wx
  {
    var l := Len2(-wy, wx);
    k := Divided(Dots(-wy, wx, nx, ny), l);
    assert Cross(-wy, wx, nx, ny) == -Dots(nx, ny, wx, wy);
    Parallel(nx, ny, -wy, wx, k);
    NoScale(wx, wy);
  }

  // ---------------------------------------------------------------- turning a separating line

  /** Vectors none of which points against n. */
  ghost predicate Ahead(nx: real, ny: real, ws: seq<Point>) {
    forall k :: 0 <= k < |ws| ==> Dot(nx, ny, ws[k]) >= 0.0
  }

  /** How far n may be turned towards m before w is at its side. */
  function Ratio(nx: real, ny: real, mx: real, my: real, w: Point): real
    requires Dot(mx, my, w) < 0.0
  {
    Dot(nx, ny, w) / -Dot(mx, my, w)
  }

  lemma RatioTimes(nx: real, ny: real, mx: real, my: real, w: Point)
    requires Dot(mx, my, w) < 0.0
    ensures Times(Ratio(nx, ny, mx, my, w), -Dot(mx, my, w)) == Dot(nx, ny, w)
    ensures Dot(nx, ny, w) >= 0.0 ==> Ratio(nx, ny, mx, my, w) >= 0.0
  {
    var c, s := Dot(nx, ny, w), -Dot(mx, my, w);
    RawTimes(c, s);
    hide Dot;
    if c >= 0.0 && c / s < 0.0 { TimesLess(0.0, c / s, s); OneTimes(s); }
  }

  lemma {:induction false} LeastRatio(nx: real, ny: real, mx: real, my: real, ws: seq<Point>, k0: nat, n: nat)
    returns (k: nat)
    requires k0 < |ws| && Dot(mx, my, ws[k0]) < 0.0 && n <= |ws|
    ensures k < |ws| && Dot(mx, my, ws[k]) < 0.0
    ensures forall j :: 0 <= j < n && Dot(mx, my, ws[j]) < 0.0 ==>
              Ratio(nx, ny, mx, my, ws[k]) <= Ratio(nx, ny, mx, my, ws[j])
  {
    hide Ratio, Dot;
    if n == 0 { return k0; }
    k := LeastRatio(nx, ny, mx, my, ws, k0, n - 1);
    if Dot(mx, my, ws[n - 1]) < 0.0 && Ratio(nx, ny, mx, my, ws[n - 1]) < Ratio(nx, ny, mx, my, ws[k]) { k := n - 1; }
  }

  lemma TurnedDot(nx: real, ny: real, mx: real, my: real, t: real, w: Point)
    ensures Dot(nx + t * mx, ny + t * my, w) == Dot(nx, ny, w) + Times(t, Dot(mx, my, w))
  {
  }

  /** Turning n towards m until the first of the vectors is at its side. */
  lemma TurnOneWay(nx: real, ny: real, mx: real, my: real, ws: seq<Point>, k0: nat)
    returns (tx: real, ty: real, k: nat)
    requires Ahead(nx, ny, ws) && k0 < |ws| && Dot(mx, my, ws[k0]) < 0.0 && Dots(mx, my, nx, ny) == 0.0
    ensures k < |ws| && Ahead(tx, ty, ws) && Dot(tx, ty, ws[k]) == 0.0
    ensures Dots(tx, ty, nx, ny) == Len2(nx, ny)
  {
    k := LeastRatio(nx, ny, mx, my, ws, k0, |ws|);
    var t := Ratio(nx, ny, mx, my, ws[k]);
    tx, ty := nx + t * mx, ny + t * my;
    TurnedLength(nx, ny, mx, my, t);
    hide Ratio, Dot, Dots, Len2;
    forall j | 0 <= j < |ws| ensures Dot(tx, ty, ws[j]) >= 0.0 {
      TurnedAhead(nx, ny, mx, my, ws, k, j, t);
    }
    TurnedDot(nx, ny, mx, my, t, ws[k]);
    RatioTimes(nx, ny, mx, my, ws[k]);
    TimesMinus(t, Dot(mx, my, ws[k]));
  }

  lemma TurnedLength(nx: real, ny: real, mx: real, my: real, t: real)
    requires Dots(mx, my, nx, ny) == 0.0
    ensures Dots(nx + t * mx, ny + t * my, nx, ny) == Len2(nx, ny)
  {
    assert Dots(nx + t * mx, ny + t * my, nx, ny) == Len2(nx, ny) + t * Dots(mx, my, nx, ny);
  }

  lemma TurnedAhead(nx: real, ny: real, mx: real, my: real, ws: seq<Point>, k: nat, j: nat, t: real)
    requires Ahead(nx, ny, ws) && k < |ws| && j < |ws| && Dot(mx, my, ws[k]) < 0.0
    requires t == Ratio(nx, ny, mx, my, ws[k])
    requires Dot(mx, my, ws[j]) < 0.0 ==> t <= Ratio(nx, ny, mx, my, ws[j])
    ensures Dot(nx + t * mx, ny + t * my, ws[j]) >= 0.0
  {
    hide Ratio, Dot;
    TurnedDot(nx, ny, mx, my, t, ws[j]);
    RatioTimes(nx, ny, mx, my, ws[k]);
    var s := Dot(mx, my, ws[j]);
    if s < 0.0 {
      RatioTimes(nx, ny, mx, my, ws[j]);
      TimesMore(Ratio(nx, ny, mx, my, ws[j]), t, -s);
      TimesMinus(t, s);
    } else {
      NotNegative(t, s);
    }
  }

  /** n can be turned, by less than a right angle, until one of the vectors is at its side and still
      none points against it. */
  lemma Turn(nx: real, ny: real, ws: seq<Point>, k0: nat) returns (mx: real, my: real, k: nat)
    requires Ahead(nx, ny, ws) && k0 < |ws| && Cross(nx, ny, ws[k0].x, ws[k0].y) != 0.0
    ensures k < |ws| && Ahead(mx, my, ws) && Dot(mx, my, ws[k]) == 0.0
    ensures Dots(mx, my, nx, ny) == Len2(nx, ny)
  {
    var c := Cross(nx, ny, ws[k0].x, ws[k0].y);
    assert Dot(-ny, nx, ws[k0]) == c && Dot(ny, -nx, ws[k0]) == -c;
    assert Dots(-ny, nx, nx, ny) == 0.0 && Dots(ny, -nx, nx, ny) == 0.0;
    hide Dot, Cross, Dots;
    if c < 0.0 { mx, my, k := TurnOneWay(nx, ny, -ny, nx, ws, k0); }
    else { mx, my, k := TurnOneWay(nx, ny, ny, -nx, ws, k0); }
  }

  // ---------------------------------------------------------------- convex corners

  /** A polygon that turns at every corner, with no vanishing edge. */
  ghost predicate Strict(vs: seq<Point>, sign: real) {
    && |vs| >= 3 && (sign == 1.0 || sign == -1.0)
    && (forall e {:trigger Edge(vs, e)} :: 0 <= e < |vs| ==> RealEdge(Edge(vs, e)))
    && forall e, k {:trigger Left(vs, e, vs[k])} :: 0 <= e < |vs| && 0 <= k < |vs| && k != e && k != Next(e, |vs|) ==>
         sign * Left(vs, e, vs[k]) > 0.0
  }

  lemma StrictTurns(vs: seq<Point>, sign: real)
    requires Strict(vs, sign)
    ensures TurnsBy(vs, sign)
  {
    forall e, k | 0 <= e < |vs| && 0 <= k < |vs| ensures sign * Left(vs, e, vs[k]) >= 0.0 {
      OwnCorners(vs, e);
    }
  }

  lemma OwnCorners(vs: seq<Point>, e: nat)
    requires e < |vs|
    ensures Left(vs, e, vs[e]) == 0.0 == Left(vs, e, vs[Next(e, |vs|)])
  {
  }

  function Prev(k: nat, n: nat): nat
    requires k < n
  {
    if k == 0 then n - 1 else k - 1
  }

  /** The way from corner i to corner j. */
  function From(vs: seq<Point>, i: nat, j: nat): Point
    requires i < |vs| && j < |vs|
  {
    Point(vs[j].x - vs[i].x, vs[j].y - vs[i].y)
  }

  /** Whatever has the two neighbours of a corner ahead has the whole polygon ahead. */
  lemma Cone(vs: seq<Point>, sign: real, i: nat, j: nat, nx: real, ny: real)
    requires Strict(vs, sign) && i < |vs| && j < |vs|
    requires Dot(nx, ny, From(vs, i, Next(i, |vs|))) >= 0.0 && Dot(nx, ny, From(vs, i, Prev(i, |vs|))) >= 0.0
    ensures Dot(nx, ny, From(vs, i, j)) >= 0.0
  {
    var q, p := Next(i, |vs|), Prev(i, |vs|);
    var v1, v2, z := From(vs, i, q), From(vs, i, p), From(vs, i, j);
    StrictTurns(vs, sign);
    OneSided(vs, sign, i, j);
    OneSided(vs, sign, p, j);
    OneSided(vs, sign, i, p);
    LeftOfNext(vs, i, j);
    LeftOfPrev(vs, i, j);
    LeftOfNext(vs, i, p);
    hide Left, TurnsBy, RealEdge, Edge;
    var d, a, b := Cross(v1.x, v1.y, v2.x, v2.y), Cross(z.x, z.y, v2.x, v2.y), Cross(v1.x, v1.y, z.x, z.y);
    InCone(v1, v2, z, nx, ny);
    hide Dot, Cross, From;
    NotNegative(Dot(nx, ny, v1), sign * a);
    NotNegative(Dot(nx, ny, v2), sign * b);
    Signed(Dot(nx, ny, v1), a, sign);
    Signed(Dot(nx, ny, v2), b, sign);
    Signed(Dot(nx, ny, z), d, sign);
    if Dot(nx, ny, z) < 0.0 { TimesLess(0.0, Dot(nx, ny, z), sign * d); OneTimes(sign * d); }
  }

  lemma OneSided(vs: seq<Point>, sign: real, e: nat, k: nat)
    requires Strict(vs, sign) && e < |vs| && k < |vs|
    ensures sign * Left(vs, e, vs[k]) >= 0.0
    ensures k != e && k != Next(e, |vs|) ==> sign * Left(vs, e, vs[k]) > 0.0
  {
    OwnCorners(vs, e);
    hide Left, RealEdge, Edge;
  }

  lemma Signed(x: real, y: real, sign: real)
    ensures Times(x, sign * y) == sign * Times(x, y)
  {
  }

  lemma LeftOfNext(vs: seq<Point>, i: nat, j: nat)
    requires i < |vs| && j < |vs|
    ensures var v, z := From(vs, i, Next(i, |vs|)), From(vs, i, j); Left(vs, i, vs[j]) == Cross(v.x, v.y, z.x, z.y)
  {
  }

  lemma LeftOfPrev(vs: seq<Point>, i: nat, j: nat)
    requires i < |vs| && j < |vs|
    ensures var v, z := From(vs, i, Prev(i, |vs|)), From(vs, i, j);
            Left(vs, Prev(i, |vs|), vs[j]) == Cross(z.x, z.y, v.x, v.y)
  {
    var p := Prev(i, |vs|);
    assert Next(p, |vs|) == i;
  }

  lemma InCone(v: Point, w: Point, z: Point, nx: real, ny: real)
    ensures Times(Dot(nx, ny, z), Cross(v.x, v.y, w.x, w.y))
         == Times(Dot(nx, ny, v), Cross(z.x, z.y, w.x, w.y)) + Times(Dot(nx, ny, w), Cross(v.x, v.y, z.x, z.y))
  {
  }

  // ---------------------------------------------------------------- corner against corner

  lemma NotBothAlong(v: Point, w: Point, nx: real, ny: real)
    requires Cross(v.x, v.y, w.x, w.y) != 0.0 && (nx != 0.0 || ny != 0.0)
    ensures Cross(nx, ny, v.x, v.y) != 0.0 || Cross(nx, ny, w.x, w.y) != 0.0
  {
    if Cross(nx, ny, v.x, v.y) == 0.0 && Cross(nx, ny, w.x, w.y) == 0.0 {
      LenIsPositive(nx, ny);
      var l := Len2(nx, ny);
      var s := Divided(Dots(nx, ny, v.x, v.y), l);
      var t := Divided(Dots(nx, ny, w.x, w.y), l);
      Parallel(v.x, v.y, nx, ny, s);
      Parallel(w.x, w.y, nx, ny, t);
      BothAlong(nx, ny, s, t);
    }
  }

  lemma BothAlong(nx: real, ny: real, s: real, t: real)
    ensures Cross(s * nx, s * ny, t * nx, t * ny) == 0.0
  {
  }

  /** The ways to the neighbours of the two nearest corners, none of them against the other polygon. */
  function Neighbours(a: seq<Point>, i: nat, b: seq<Point>, k: nat): seq<Point>
    requires i < |a| && k < |b|
  {
    [From(a, i, Next(i, |a|)), From(a, i, Prev(i, |a|)), From(b, Next(k, |b|), k), From(b, Prev(k, |b|), k)]
  }

  lemma NeighboursAhead(a: seq<Point>, i: nat, b: seq<Point>, k: nat, sa: real)
    requires i < |a| && k < |b| && Apart(a, b, a[i], b[k]) && Strict(a, sa) && a[i] != b[k]
    ensures Ahead(a[i].x - b[k].x, a[i].y - b[k].y, Neighbours(a, i, b, k))
    ensures var n := Neighbours(a, i, b, k); var nx, ny := a[i].x - b[k].x, a[i].y - b[k].y;
            Cross(nx, ny, n[0].x, n[0].y) != 0.0 || Cross(nx, ny, n[1].x, n[1].y) != 0.0
  {
    var nx, ny := a[i].x - b[k].x, a[i].y - b[k].y;
    var ws := Neighbours(a, i, b, k);
    NextAcross(a, i, sa);
    LenOrNot(a[i], b[k]);
    NotBothAlong(ws[0], ws[1], nx, ny);
    hide Dots, Dot, Cross, Left, Strict, From;
    WayDots(nx, ny, a, i, Next(i, |a|));
    WayDots(nx, ny, a, i, Prev(i, |a|));
    WayDots(nx, ny, b, Next(k, |b|), k);
    WayDots(nx, ny, b, Prev(k, |b|), k);
  }

  lemma LenOrNot(p: Point, q: Point)
    requires p != q
    ensures p.x - q.x != 0.0 || p.y - q.y != 0.0
  {
  }

  lemma NextAcross(vs: seq<Point>, i: nat, sign: real)
    requires Strict(vs, sign) && i < |vs|
    ensures var v, w := From(vs, i, Next(i, |vs|)), From(vs, i, Prev(i, |vs|)); Cross(v.x, v.y, w.x, w.y) != 0.0
  {
    OneSided(vs, sign, i, Prev(i, |vs|));
    LeftOfNext(vs, i, Prev(i, |vs|));
    hide Left, Cross, From;
  }

  lemma WayDots(nx: real, ny: real, vs: seq<Point>, i: nat, j: nat)
    requires i < |vs| && j < |vs|
    ensures Dot(nx, ny, From(vs, i, j)) == Dots(nx, ny, vs[j].x - vs[i].x, vs[j].y - vs[i].y)
  {
  }

  lemma WayDot(nx: real, ny: real, vs: seq<Point>, i: nat, j: nat)
    requires i < |vs| && j < |vs|
    ensures Dot(nx, ny, From(vs, i, j)) == Dot(nx, ny, vs[j]) - Dot(nx, ny, vs[i])
    ensures Dot(-nx, -ny, From(vs, i, j)) == Dot(nx, ny, From(vs, j, i))
  {
  }

  lemma Positive(nx: real, ny: real, mx: real, my: real, p: Point, q: Point)
    requires nx == p.x - q.x && ny == p.y - q.y && p != q && Dots(mx, my, nx, ny) == Len2(nx, ny)
    ensures Dot(mx, my, p) > Dot(mx, my, q) && (mx != 0.0 || my != 0.0)
  {
    LenIsPositive(nx, ny);
    Differs(mx, my, q, p);
    if mx == 0.0 && my == 0.0 { ZeroDots(nx, ny); }
  }

  lemma ZeroDots(nx: real, ny: real)
    ensures Dots(0.0, 0.0, nx, ny) == 0.0
  {
  }

  /** The turned line still separates. */
  lemma TurnedSeparates(a: seq<Point>, i: nat, sa: real, b: seq<Point>, k: nat, sb: real, mx: real, my: real)
    requires i < |a| && k < |b| && Strict(a, sa) && Strict(b, sb) && Ahead(mx, my, Neighbours(a, i, b, k))
    requires Dot(mx, my, a[i]) > Dot(mx, my, b[k])
    ensures StrictlyBeyond(mx, my, b, a)
  {
    var ws := Neighbours(a, i, b, k);
    assert Dot(mx, my, ws[0]) >= 0.0 && Dot(mx, my, ws[1]) >= 0.0;
    assert Dot(mx, my, ws[2]) >= 0.0 && Dot(mx, my, ws[3]) >= 0.0;
    WayDot(mx, my, b, k, Next(k, |b|));
    WayDot(mx, my, b, k, Prev(k, |b|));
    hide Dot, From, Strict;
    forall l, j | 0 <= l < |b| && 0 <= j < |a| ensures Dot(mx, my, a[j]) > Dot(mx, my, b[l]) {
      Cone(a, sa, i, j, mx, my);
      WayDot(mx, my, a, i, j);
      Cone(b, sb, k, l, -mx, -my);
      WayDot(mx, my, b, k, l);
      WayDot(mx, my, b, l, k);
    }
  }

  lemma CornerAxis(a: seq<Point>, i: nat, sa: real, b: seq<Point>, k: nat, sb: real) returns (onA: bool, e: nat)
    requires i < |a| && k < |b| && Strict(a, sa) && Strict(b, sb) && Apart(a, b, a[i], b[k]) && a[i] != b[k]
    ensures e < (if onA then |a| else |b|) && PositiveOnEdge(if onA then a else b, e, a, b)
  {
    var nx, ny, ws := a[i].x - b[k].x, a[i].y - b[k].y, Neighbours(a, i, b, k);
    NeighboursAhead(a, i, b, k, sa);
    var k0 := if Cross(nx, ny, ws[0].x, ws[0].y) != 0.0 then 0 else 1;
    var mx, my, g := Turn(nx, ny, ws, k0);
    Positive(nx, ny, mx, my, a[i], b[k]);
    TurnedSeparates(a, i, sa, b, k, sb, mx, my);
    hide Apart, StrictlyBeyond, PositiveOnEdge;
    onA := g < 2;
    e := if g == 0 then i else if g == 1 then Prev(i, |a|) else if g == 2 then k else Prev(k, |b|);
    if onA { SideEdge(a, i, mx, my, g == 0); EdgeIsReal(a, sa, e); EdgeDecides(a, e, a, b, mx, my); }
    else { SideEdge(b, k, mx, my, g == 2); EdgeIsReal(b, sb, e); EdgeDecides(b, e, a, b, mx, my); }
  }

  lemma EdgeIsReal(vs: seq<Point>, sign: real, e: nat)
    requires Strict(vs, sign) && e < |vs|
    ensures RealEdge(Edge(vs, e))
  {
  }

  lemma SideEdge(vs: seq<Point>, i: nat, mx: real, my: real, next: bool)
    requires i < |vs|
    ensures var e := if next then i else Prev(i, |vs|); var o := if next then Next(i, |vs|) else Prev(i, |vs|);
            Dot(mx, my, From(vs, i, o)) == 0.0 || Dot(mx, my, From(vs, o, i)) == 0.0
            ==> Dots(mx, my, Edge(vs, e).0, Edge(vs, e).1) == 0.0
  {
    var e := if next then i else Prev(i, |vs|);
    assert (e + 1) % |vs| == if next then Next(i, |vs|) else i;
  }

  // ---------------------------------------------------------------- corner against edge

  lemma EdgeAxisOf(a: seq<Point>, i: nat, b: seq<Point>, f: nat, t: real, sb: real)
    requires i < |a| && f < |b| && 0.0 < t < 1.0 && Strict(b, sb)
    requires var q := OnEdge(b, f, t); Apart(a, b, a[i], q) && a[i] != q
    ensures PositiveOnEdge(b, f, a, b)
  {
    var p, q, g := a[i], OnEdge(b, f, t), Next(f, |b|);
    var nx, ny := p.x - q.x, p.y - q.y;
    AlongEdge(nx, ny, b, f, t);
    LenIsDot(nx, ny);
    Positive(nx, ny, nx, ny, p, q);
    Beside(a, b, p, q);
    EdgeIsReal(b, sb, f);
    hide OnEdge, Strict, Apart, StrictlyBeyond, PositiveOnEdge;
    EdgeDecides(b, f, a, b, nx, ny);
  }

  lemma Beside(a: seq<Point>, b: seq<Point>, p: Point, q: Point)
    requires Apart(a, b, p, q) && Dot(p.x - q.x, p.y - q.y, p) > Dot(p.x - q.x, p.y - q.y, q)
    ensures StrictlyBeyond(p.x - q.x, p.y - q.y, b, a)
  {
    var nx, ny := p.x - q.x, p.y - q.y;
    forall l, j | 0 <= l < |b| && 0 <= j < |a| ensures Dot(nx, ny, a[j]) > Dot(nx, ny, b[l]) {
      Differs(nx, ny, p, a[j]);
      Differs(nx, ny, b[l], q);
      assert Dots(nx, ny, a[j].x - p.x, a[j].y - p.y) >= 0.0;
      assert Dots(nx, ny, q.x - b[l].x, q.y - b[l].y) >= 0.0;
    }
  }

  lemma AlongEdge(nx: real, ny: real, b: seq<Point>, f: nat, t: real)
    requires f < |b| && 0.0 < t < 1.0
    requires var q, g := OnEdge(b, f, t), Next(f, |b|);
             Dots(nx, ny, q.x - b[f].x, q.y - b[f].y) >= 0.0 && Dots(nx, ny, q.x - b[g].x, q.y - b[g].y) >= 0.0
    ensures Dots(nx, ny, Edge(b, f).0, Edge(b, f).1) == 0.0
  {
    var q, g := OnEdge(b, f, t), Next(f, |b|);
    assert g == (f + 1) % |b|;
    var d := Dots(nx, ny, b[g].x - b[f].x, b[g].y - b[f].y);
    assert Dots(nx, ny, q.x - b[f].x, q.y - b[f].y) == Times(t, d);
    assert Dots(nx, ny, q.x - b[g].x, q.y - b[g].y) == -Times(1.0 - t, d);
    TimesSwap(t, d);
    TimesSwap(1.0 - t, d);
    hide Times, Dots;
    if d > 0.0 { TimesLess(d, 0.0, 1.0 - t); OneTimes(1.0 - t); }
    if d < 0.0 { TimesLess(0.0, d, t); OneTimes(t); }
  }

  // ---------------------------------------------------------------- the separating axis theorem

  lemma AxisFrom(a: seq<Point>, i: nat, sa: real, b: seq<Point>, f: nat, sb: real) returns (onA: bool, e: nat)
    requires i < |a| && f < |b| && Strict(a, sa) && Strict(b, sb) && Disjoint(a, b) && Least(a, b, Near2(a, b, i, f))
    ensures e < (if onA then |a| else |b|) && PositiveOnEdge(if onA then a else b, e, a, b)
  {
    var p, q, t := a[i], Foot(a, b, i, f), Projected(a[i], b[f], b[Next(f, |b|)]);
    ProjectedIsUnit(a[i], b[f], b[Next(f, |b|)]);
    CornerInHull(a, i);
    EdgeInHull(b, f, t);
    StrictTurns(a, sa);
    StrictTurns(b, sb);
    StartOfEdge(b, f);
    EndOfEdge(b, f);
    hide InHull, TurnsBy, Strict, Least, OnEdge, Len2, Apart, PositiveOnEdge, Projected;
    assert p != q;
    forall x: Point, y: Point | InHull(x, a) && InHull(y, b) ensures Len2(p.x - q.x, p.y - q.y) <= Gap(x, y) {
      HullsNoNearer(a, b, Near2(a, b, i, f), x, y, sa, sb);
      LenSwaps(x, y);
    }
    NearestIsApart(a, b, p, q);
    if t == 0.0 { onA, e := CornerAxis(a, i, sa, b, f, sb); }
    else if t == 1.0 { onA, e := CornerAxis(a, i, sa, b, Next(f, |b|), sb); }
    else { onA, e := false, f; EdgeAxisOf(a, i, b, f, t, sb); }
  }

  /** Disjoint strictly convex polygons are told apart by an edge of the one or the other. */
  lemma SomeEdgeSeparates(a: seq<Point>, sa: real, b: seq<Point>, sb: real) returns (onA: bool, e: nat)
    requires Strict(a, sa) && Strict(b, sb) && Disjoint(a, b)
    ensures e < (if onA then |a| else |b|) && PositiveOnEdge(if onA then a else b, e, a, b)
  {
    var i, f := LeastCorner(a, b, |a|);
    var j, g := LeastCorner(b, a, |b|);
    hide Near2, StrictlyBeyond;
    if Near2(a, b, i, f) <= Near2(b, a, j, g) {
      assert Least(a, b, Near2(a, b, i, f));
      onA, e := AxisFrom(a, i, sa, b, f, sb);
    } else {
      assert Least(b, a, Near2(b, a, j, g));
      DisjointSwaps(a, b);
      var onB;
      onB, e := AxisFrom(b, j, sb, a, g, sa);
      onA := !onB;
    }
  }

  /** A footprint whose first two edges stand for all four. */
  ghost predicate Boxlike(vs: seq<Point>) {
    |vs| == 4 && Edge(vs, 2) == (-Edge(vs, 0).0, -Edge(vs, 0).1) && Edge(vs, 3) == (-Edge(vs, 1).0, -Edge(vs, 1).1)
  }

  lemma OppositeAxis(nx: real, ny: real, a: seq<Point>, b: seq<Point>)
    ensures StrictlyBeyond(-nx, -ny, a, b) == StrictlyBeyond(nx, ny, b, a)
  {
    forall i, j | 0 <= i < |a| && 0 <= j < |b|
      ensures Dot(-nx, -ny, a[i]) == -Dot(nx, ny, a[i]) && Dot(-nx, -ny, b[j]) == -Dot(nx, ny, b[j])
    {
      Opposite(nx, ny, a[i]);
      Opposite(nx, ny, b[j]);
    }
    if StrictlyBeyond(nx, ny, b, a) {
      forall i, j | 0 <= i < |a| && 0 <= j < |b| ensures Dot(-nx, -ny, b[j]) > Dot(-nx, -ny, a[i]) {
        assert Dot(nx, ny, a[i]) > Dot(nx, ny, b[j]);
      }
    }
    if StrictlyBeyond(-nx, -ny, a, b) {
      forall i, j | 0 <= i < |b| && 0 <= j < |a| ensures Dot(nx, ny, a[j]) > Dot(nx, ny, b[i]) {
        assert Dot(-nx, -ny, b[i]) > Dot(-nx, -ny, a[j]);
      }
    }
  }

  lemma OppositeEdge(vs: seq<Point>, e: nat, a: seq<Point>, b: seq<Point>)
    requires Boxlike(vs) && 2 <= e < 4 && PositiveOnEdge(vs, e, a, b)
    ensures PositiveOnEdge(vs, e - 2, a, b)
  {
    var t := Edge(vs, e - 2);
    assert Edge(vs, e) == (-t.0, -t.1);
    SameLength(t.0, t.1);
    hide StrictlyBeyond, Edge, RealEdge;
    OppositeAxis(-t.1, t.0, a, b);
    OppositeAxis(-t.1, t.0, b, a);
  }

  lemma SameLength(x: real, y: real)
    ensures RealEdge((-x, -y)) == RealEdge((x, y))
  {
  }

  lemma OnItsEdges(vs: seq<Point>, rect: bool, e: nat, a: seq<Point>, b: seq<Point>)
    requires e < |vs| && PositiveOnEdge(vs, e, a, b) && (rect ==> Boxlike(vs))
    ensures PositiveOnEdges(vs, rect, a, b)
  {
    if rect && e >= 2 { OppositeEdge(vs, e, a, b); }
    hide PositiveOnEdge;
  }

  /** The exact test is exact: strictly convex polygons, of which those called rectangles have opposite
      edges, pass it if and only if they are at least the margin apart. */
  lemma ExactClearIsExact(a: seq<Point>, rectA: bool, sa: real, b: seq<Point>, rectB: bool, sb: real, m: real)
    requires Strict(a, sa) && Strict(b, sb) && (rectA ==> Boxlike(a)) && (rectB ==> Boxlike(b)) && m > 0.0
    ensures ExactClear(a, rectA, b, rectB, m) <==> FarApart(a, b, m)
  {
    StrictTurns(a, sa);
    StrictTurns(b, sb);
    hide Strict, TurnsBy, PositiveOnEdge, PositiveOnEdges, GapOnEdges, CornersFar, FarApart, Boxlike;
    assert Convex(a) && Convex(b) by { TurnsConvex(a, sa); TurnsConvex(b, sb); }
    if ExactClear(a, rectA, b, rectB, m) { ExactClearIsFar(a, rectA, b, rectB, m); }
    if FarApart(a, b, m) {
      CornersAreFar(a, b, m);
      FarIsDisjoint(a, b, m);
      var onA, e := SomeEdgeSeparates(a, sa, b, sb);
      if onA { OnItsEdges(a, rectA, e, a, b); } else { OnItsEdges(b, rectB, e, a, b); }
    }
  }

  lemma TurnsConvex(vs: seq<Point>, sign: real)
    requires TurnsBy(vs, sign)
    ensures Convex(vs)
  {
  }

  // ---------------------------------------------------------------- placed footprints

  /** A footprint as it is built: it turns at every corner, and a rectangle has opposite edges. */
  ghost predicate StrictShape(shape: Shape, sign: real) {
    Solid(shape) && Strict(shape.corners, sign) && (shape.rect ==> Boxlike(shape.corners))
  }

  lemma PlacedEdge(shape: Shape, q: Sample, e: nat)
    requires e < |shape.corners| && |Placed(shape, q)| == |shape.corners|
    ensures var t, u := Edge(Placed(shape, q), e), Edge(shape.corners, e);
            if shape.rect then t == (RotX(q, u.0, u.1), RotY(q, u.0, u.1)) else t == u
  {
    var f := (e + 1) % |shape.corners|;
    hide RotX, RotY, Place;
    if shape.rect { Turned(shape, q, f, e); } else { Unturned(shape, q, f, e); }
  }

  lemma PlacedReal(shape: Shape, q: Sample, e: nat)
    requires e < |shape.corners| && UnitHeading(q) && RealEdge(Edge(shape.corners, e))
    ensures RealEdge(Edge(Placed(shape, q), e))
  {
    var u := Edge(shape.corners, e);
    PlacedEdge(shape, q, e);
    RotatedReal(q, u.0, u.1);
    hide Edge, Place, RotX, RotY, RealEdge;
  }

  lemma RotatedReal(q: Sample, x: real, y: real)
    requires UnitHeading(q) && RealEdge((x, y))
    ensures RealEdge((RotX(q, x, y), RotY(q, x, y)))
  {
    Rotated(q, x, y, 0.0, 0.0);
  }

  lemma PlacedBoxlike(shape: Shape, q: Sample)
    requires Boxlike(shape.corners) && shape.rect
    ensures Boxlike(Placed(shape, q))
  {
    hide Edge, Place, RotX, RotY;
    PlacedEdge(shape, q, 0);
    PlacedEdge(shape, q, 1);
    PlacedEdge(shape, q, 2);
    PlacedEdge(shape, q, 3);
    Negated(q, Edge(shape.corners, 0).0, Edge(shape.corners, 0).1);
    Negated(q, Edge(shape.corners, 1).0, Edge(shape.corners, 1).1);
  }

  lemma Negated(q: Sample, x: real, y: real)
    ensures RotX(q, -x, -y) == -RotX(q, x, y) && RotY(q, -x, -y) == -RotY(q, x, y)
  {
  }

  lemma PlacedIsStrict(shape: Shape, q: Sample, sign: real)
    requires StrictShape(shape, sign) && UnitHeading(q)
    ensures Strict(Placed(shape, q), sign) && (shape.rect ==> Boxlike(Placed(shape, q)))
  {
    hide Left, UnitHeading, Place, RealEdge, Boxlike, Convex;
    var vs := Placed(shape, q);
    forall e, k | 0 <= e < |vs| && 0 <= k < |vs| && k != e && k != Next(e, |vs|)
      ensures sign * Left(vs, e, vs[k]) > 0.0
    {
      PlacedSame(shape, q, e, k);
      OneSided(shape.corners, sign, e, k);
    }
    hide Edge;
    forall e | 0 <= e < |vs| ensures RealEdge(Edge(vs, e)) {
      EdgeIsReal(shape.corners, sign, e);
      PlacedReal(shape, q, e);
    }
    if shape.rect { PlacedBoxlike(shape, q); }
  }

  /** The test of two placed footprints, prefilters included, is exact: two rectangles pass it if and
      only if they are at least m apart. The polygon around a disc is larger than its radius says, so
      there the radii may decide first. */
  lemma SampleClearIsExact(a: Shape, qa: Sample, sa: real, b: Shape, qb: Sample, sb: real, m: real)
    requires StrictShape(a, sa) && StrictShape(b, sb) && Boxed(a, qa) && Boxed(b, qb)
    requires UnitHeading(qa) && UnitHeading(qb) && m > 0.0
    ensures SampleClear(a, qa, b, qb, m)
       <==> FarByRadius(a, qa, b, qb, m) || FarApart(Placed(a, qa), Placed(b, qb), m)
    ensures a.rect && b.rect ==> (SampleClear(a, qa, b, qb, m) <==> FarApart(Placed(a, qa), Placed(b, qb), m))
  {
    PlacedIsStrict(a, qa, sa);
    PlacedIsStrict(b, qb, sb);
    hide Solid, Strict, Boxlike, Boxed, UnitHeading, ExactClear, FarApart, FarByRadius, Separated, Place;
    if SampleClear(a, qa, b, qb, m) {
      ClearIsFar(a, qa, b, qb, m);
      if a.rect && b.rect { RectanglesFar(a, qa, b, qb, m); }
      if !FarByRadius(a, qa, b, qb, m) { HullsClearIsFar(a, qa, b, qb, m); }
    }
    hide BodiesFar;
    ExactClearIsExact(Placed(a, qa), a.rect, sa, Placed(b, qb), b.rect, sb, m);
  }

  lemma RectanglesFar(a: Shape, qa: Sample, b: Shape, qb: Sample, m: real)
    requires a.rect && b.rect && BodiesFar(a, qa, b, qb, m)
    ensures FarApart(Placed(a, qa), Placed(b, qb), m)
  {
    hide InHull, Far, Place;
    forall p: Point, q: Point | InHull(p, Placed(a, qa)) && InHull(q, Placed(b, qb)) ensures Far(p, q, m) {
      assert Covers(a, qa, p) && Covers(b, qb, q);
    }
  }

  // ---------------------------------------------------------------- the declared rectangle

  function RectangleCorners(f: Footprint): seq<Point> {
    var l, w, ox, oy := f.halfLength, f.halfWidth, f.offsetX, f.offsetY;
    [Point(-l + ox, -w + oy), Point(l + ox, -w + oy), Point(l + ox, w + oy), Point(-l + ox, w + oy)]
  }

  /** The footprint of a vehicle with a heading (makeShape): its radius reaches the farthest corner. */
  ghost predicate RectangleOf(f: Footprint, shape: Shape) {
    && shape.rect && shape.corners == RectangleCorners(f) && shape.radius >= 0.0
    && (forall k :: 0 <= k < 4 ==>
          Len2(shape.corners[k].x, shape.corners[k].y) <= shape.radius * shape.radius)
    && exists k :: 0 <= k < 4 && Len2(shape.corners[k].x, shape.corners[k].y) == shape.radius * shape.radius
  }

  /** Every declared rectangle with real sides meets what the distance results ask of a footprint. */
  lemma RectangleIsStrict(f: Footprint, shape: Shape)
    requires RectangleOf(f, shape) && f.halfLength > 0.0 && f.halfWidth > 0.0
    requires RealEdge((2.0 * f.halfLength, 0.0)) && RealEdge((0.0, 2.0 * f.halfWidth))
    ensures StrictShape(shape, 1.0)
  {
    var vs, area := shape.corners, 4.0 * Times(f.halfLength, f.halfWidth);
    forall e, k | 0 <= e < 4 && 0 <= k < 4
      ensures Left(vs, e, vs[k]) == if k == e || k == Next(e, 4) then 0.0 else area
    {
      RectangleLeft(f, e, k);
    }
    TimesPositive(f.halfLength, f.halfWidth);
    SameLength(2.0 * f.halfLength, 0.0);
    SameLength(0.0, 2.0 * f.halfWidth);
    hide Left, RealEdge, Len2, Times;
    assert Edge(vs, 0) == (2.0 * f.halfLength, 0.0) && Edge(vs, 1) == (0.0, 2.0 * f.halfWidth);
    assert Edge(vs, 2) == (-2.0 * f.halfLength, 0.0) && Edge(vs, 3) == (0.0, -2.0 * f.halfWidth);
    assert TurnsBy(vs, 1.0);
  }

  lemma TimesPositive(a: real, b: real)
    requires a > 0.0 && b > 0.0
    ensures Times(a, b) > 0.0
  {
  }

  lemma RectangleLeft(f: Footprint, e: nat, k: nat)
    requires e < 4 && k < 4
    ensures var vs := RectangleCorners(f);
            Left(vs, e, vs[k]) == if k == e || k == Next(e, 4) then 0.0 else 4.0 * Times(f.halfLength, f.halfWidth)
  {
  }
}
