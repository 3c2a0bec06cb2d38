/** Convex hulls in the plane, in coordinates: what a footprint covers is every weighted mean of its
    corners. A hull is bounded by its corners in every direction, and a ray that starts in the hull of
    a convex polygon leaves it through one of its edges. */
module Hulls {
  import opened ResetProtocol
  import opened Geometry
  import opened Arithmetic

  // ---------------------------------------------------------------- weighted means

  function Sum(w: seq<real>): real { if w == [] then 0.0 else Sum(w[..|w| - 1]) + w[|w| - 1] }

  function MeanX(w: seq<real>, vs: seq<Point>): real
    requires |w| == |vs|
  {
    if w == [] then 0.0
    else MeanX(w[..|w| - 1], vs[..|w| - 1]) + w[|w| - 1] * vs[|w| - 1].x
  }

  function MeanY(w: seq<real>, vs: seq<Point>): real
    requires |w| == |vs|
  {
    if w == [] then 0.0
    else MeanY(w[..|w| - 1], vs[..|w| - 1]) + w[|w| - 1] * vs[|w| - 1].y
  }

  ghost predicate Weights(w: seq<real>) { Sum(w) == 1.0 && forall k :: 0 <= k < |w| ==> w[k] >= 0.0 }

  /** The point is a mean of the corners, with weights that are not negative and add up to one. */
  ghost predicate InHull(p: Point, vs: seq<Point>) {
    exists w: seq<real> :: |w| == |vs| && Weights(w) && p.x == MeanX(w, vs) && p.y == MeanY(w, vs)
  }

  lemma {:induction false} MeanAlong(w: seq<real>, vs: seq<Point>, nx: real, ny: real, c: real)
    requires |w| == |vs| && forall k :: 0 <= k < |w| ==> w[k] >= 0.0
    requires forall k :: 0 <= k < |vs| ==> Dot(nx, ny, vs[k]) >= c
    ensures nx * MeanX(w, vs) + ny * MeanY(w, vs) >= c * Sum(w)
  {
    if w != [] {
      var n := |w| - 1;
      MeanAlong(w[..n], vs[..n], nx, ny, c);
      OneMore(MeanX(w[..n], vs[..n]), MeanY(w[..n], vs[..n]), Sum(w[..n]), w[n], vs[n], nx, ny, c);
    }
  }

  lemma OneMore(x: real, y: real, s: real, w: real, v: Point, nx: real, ny: real, c: real)
    requires nx * x + ny * y >= c * s && w >= 0.0 && Dot(nx, ny, v) >= c
    ensures nx * (x + w * v.x) + ny * (y + w * v.y) >= c * (s + w)
  {
    TimesMore(Dot(nx, ny, v), c, w);
    assert Dot(nx, ny, v) * w == nx * (w * v.x) + ny * (w * v.y);
  }

  /** No corner is bound to lie further than a point of the hull: in every direction some corner lies
      no further than it. */
  lemma Support(p: Point, vs: seq<Point>, nx: real, ny: real) returns (k: nat)
    requires InHull(p, vs)
    ensures k < |vs| && Dot(nx, ny, vs[k]) <= Dot(nx, ny, p)
  {
    var w: seq<real> :| |w| == |vs| && Weights(w) && p.x == MeanX(w, vs) && p.y == MeanY(w, vs);
    k := Least(vs, nx, ny);
    MeanAlong(w, vs, nx, ny, Dot(nx, ny, vs[k]));
  }

  lemma {:induction false} Least(vs: seq<Point>, nx: real, ny: real) returns (k: nat)
    requires |vs| > 0
    ensures k < |vs| && forall i :: 0 <= i < |vs| ==> Dot(nx, ny, vs[k]) <= Dot(nx, ny, vs[i])
    decreases |vs|
  {
    if |vs| == 1 { return 0; }
    k := Least(vs[..|vs| - 1], nx, ny);
    assert forall i :: 0 <= i < |vs| - 1 ==> vs[i] == vs[..|vs| - 1][i];
    if Dot(nx, ny, vs[|vs| - 1]) < Dot(nx, ny, vs[k]) { k := |vs| - 1; }
  }

  // ---------------------------------------------------------------- lengths

  function Cross(ax: real, ay: real, cx: real, cy: real): real { ax * cy - ay * cx }

  function Len2(x: real, y: real): real { x * x + y * y }

  lemma LenIsPositive(x: real, y: real)
    ensures Len2(x, y) >= 0.0 && (x != 0.0 || y != 0.0 ==> Len2(x, y) > 0.0)
  {
    var a, b := x * x, y * y;
    assert a >= 0.0 && b >= 0.0;
    if x > 0.0 { SquareIsPositive(x); }
    if x < 0.0 { SquareIsPositive(-x); assert Times(-x, -x) == a; }
    if y > 0.0 { SquareIsPositive(y); }
    if y < 0.0 { SquareIsPositive(-y); assert Times(-y, -y) == b; }
  }

  lemma Lagrange(ax: real, ay: real, cx: real, cy: real)
    ensures Times(ax * cx + ay * cy, ax * cx + ay * cy) + Times(Cross(ax, ay, cx, cy), Cross(ax, ay, cx, cy))
         == Times(Len2(ax, ay), Len2(cx, cy))
  {
  }

  /** Cauchy and Schwarz. */
  lemma DotSquared(ax: real, ay: real, cx: real, cy: real)
    ensures Times(ax * cx + ay * cy, ax * cx + ay * cy) <= Times(Len2(ax, ay), Len2(cx, cy))
  {
    Lagrange(ax, ay, cx, cy);
    var c := Cross(ax, ay, cx, cy);
    assert Times(c, c) >= 0.0;
  }

  lemma SquareOrder(x: real, y: real)
    requires y >= 0.0 && Times(x, x) <= Times(y, y)
    ensures x <= y
  {
    hide Times;
    if x > y {
      TimesLess(x, y, x);
      TimesMore(x, y, y);
      TimesSwap(x, y);
    }
  }

  lemma TimesSwap(x: real, y: real)
    ensures Times(x, y) == Times(y, x)
  {
  }

  /** Two vectors within A and B have a product within AB. */
  lemma DotBound(ax: real, ay: real, cx: real, cy: real, A: real, B: real)
    requires A >= 0.0 && B >= 0.0 && Len2(ax, ay) <= Times(A, A) && Len2(cx, cy) <= Times(B, B)
    ensures ax * cx + ay * cy <= Times(A, B)
  {
    var d := ax * cx + ay * cy;
    DotSquared(ax, ay, cx, cy);
    LenIsPositive(ax, ay);
    LenIsPositive(cx, cy);
    SquareOfProduct(A, B);
    ProductBound(Len2(ax, ay), Times(A, A), Len2(cx, cy), Times(B, B));
    NotNegative(A, B);
    SquareOrder(d, Times(A, B));
  }

  lemma NotNegative(a: real, b: real)
    requires a >= 0.0 && b >= 0.0
    ensures Times(a, b) >= 0.0
  {
  }

  lemma ProductBound(a: real, A: real, b: real, B: real)
    requires 0.0 <= a <= A && 0.0 <= b <= B
    ensures Times(a, b) <= Times(A, B)
  {
    TimesMore(A, a, b);
    TimesMore(B, b, A);
  }

  /** A hull is within the circle its corners are in. */
  lemma HullInCircle(p: Point, vs: seq<Point>, c: Point, r: real)
    requires InHull(p, vs) && forall k :: 0 <= k < |vs| ==> Len2(vs[k].x - c.x, vs[k].y - c.y) <= r * r
    ensures Len2(p.x - c.x, p.y - c.y) <= r * r
  {
    var nx, ny := p.x - c.x, p.y - c.y;
    var k := Support(p, vs, -nx, -ny);
    Opposite(nx, ny, p);
    Opposite(nx, ny, vs[k]);
    Shifted(nx, ny, vs[k], c);
    Shifted(nx, ny, p, c);
    MeanOfSquares(nx, ny, vs[k].x - c.x, vs[k].y - c.y);
    LenIsDot(nx, ny);
    hide Dot, Len2, InHull, Dots;
  }

  lemma LenIsDot(x: real, y: real)
    ensures Dots(x, y, x, y) == Len2(x, y)
  {
  }

  function Dots(ax: real, ay: real, cx: real, cy: real): real { ax * cx + ay * cy }

  lemma Opposite(nx: real, ny: real, p: Point)
    ensures Dot(-nx, -ny, p) == -Dot(nx, ny, p)
  {
  }

  lemma Shifted(nx: real, ny: real, p: Point, c: Point)
    ensures Dots(nx, ny, p.x - c.x, p.y - c.y) == Dot(nx, ny, p) - Dot(nx, ny, c)
  {
  }

  lemma MeanOfSquares(ax: real, ay: real, cx: real, cy: real)
    ensures 2.0 * Dots(ax, ay, cx, cy) <= Len2(ax, ay) + Len2(cx, cy)
  {
    LenIsPositive(ax - cx, ay - cy);
    assert Len2(ax - cx, ay - cy) == Len2(ax, ay) + Len2(cx, cy) - 2.0 * (ax * cx + ay * cy);
  }

  // ---------------------------------------------------------------- convex polygons

  function Next(k: nat, n: nat): nat
    requires k < n
  {
    if k + 1 == n then 0 else k + 1
  }

  /** How far a point lies to the left of edge e, times its length. */
  function Left(vs: seq<Point>, e: nat, p: Point): real
    requires e < |vs|
  {
    var f := Next(e, |vs|);
    Cross(vs[f].x - vs[e].x, vs[f].y - vs[e].y, p.x - vs[e].x, p.y - vs[e].y)
  }

  /** Every corner lies on one side of every edge; `sign` is 1 counterclockwise and -1 clockwise. */
  ghost predicate TurnsBy(vs: seq<Point>, sign: real) {
    (sign == 1.0 || sign == -1.0)
    && forall e, k {:trigger Left(vs, e, vs[k])} :: 0 <= e < |vs| && 0 <= k < |vs| ==> sign * Left(vs, e, vs[k]) >= 0.0
  }

  ghost predicate Convex(vs: seq<Point>) { TurnsBy(vs, 1.0) || TurnsBy(vs, -1.0) }

  lemma LeftAlong(vs: seq<Point>, e: nat, p: Point)
    requires e < |vs|
    ensures var f := Next(e, |vs|); var wx, wy := vs[f].x - vs[e].x, vs[f].y - vs[e].y;
            Left(vs, e, p) == Dot(-wy, wx, p) - Dot(-wy, wx, vs[e])
  {
  }

  lemma HullIsLeft(p: Point, vs: seq<Point>, e: nat, sign: real)
    requires InHull(p, vs) && e < |vs| && TurnsBy(vs, sign)
    ensures sign * Left(vs, e, p) >= 0.0
  {
    var f := Next(e, |vs|);
    var wx, wy := vs[f].x - vs[e].x, vs[f].y - vs[e].y;
    if sign == 1.0 {
      var k := Support(p, vs, -wy, wx);
      LeftAlong(vs, e, p);
      LeftAlong(vs, e, vs[k]);
    } else {
      var k := Support(p, vs, wy, -wx);
      LeftAlong(vs, e, p);
      LeftAlong(vs, e, vs[k]);
      Opposite(-wy, wx, p);
      Opposite(-wy, wx, vs[k]);
    }
  }

  /** Going round, one comes from where something fails to where it holds. */
  lemma {:induction false} Flip(b: seq<bool>, i: nat, j: nat) returns (e: nat)
    requires i < |b| && j < |b| && !b[i] && b[j]
    ensures e < |b| && !b[e] && b[Next(e, |b|)]
    decreases if i < j then j - i else j + |b| - i
  {
    if b[Next(i, |b|)] { return i; }
    e := Flip(b, Next(i, |b|), j);
  }

  /** The side of the line through p along d, times the length of d. */
  function Side(p: Point, dx: real, dy: real, v: Point): real { Cross(dx, dy, v.x - p.x, v.y - p.y) }

  lemma SideAlong(p: Point, dx: real, dy: real, v: Point)
    ensures Side(p, dx, dy, v) == Dot(-dy, dx, v) - Dot(-dy, dx, p)
  {
  }

  /** Some edge goes from one side of the line to the other, or starts or ends on it, unless all
      corners are on the line. */
  lemma Straddles(p: Point, vs: seq<Point>, dx: real, dy: real, sign: real, k: nat) returns (e: nat)
    requires InHull(p, vs) && (sign == 1.0 || sign == -1.0) && k < |vs| && Side(p, dx, dy, vs[k]) != 0.0
    ensures e < |vs|
    ensures sign * Side(p, dx, dy, vs[e]) <= 0.0 <= sign * Side(p, dx, dy, vs[Next(e, |vs|)])
    ensures sign * Side(p, dx, dy, vs[e]) < sign * Side(p, dx, dy, vs[Next(e, |vs|)])
  {
    var h := seq(|vs|, i requires 0 <= i < |vs| => sign * Side(p, dx, dy, vs[i]));
    var i, j := BothSides(p, vs, dx, dy, sign);
    if h[k] > 0.0 {
      e := Flip(seq(|vs|, n requires 0 <= n < |vs| => h[n] > 0.0), i, k);
    } else {
      assert h[k] < 0.0 by { SignKeeps(sign, Side(p, dx, dy, vs[k])); }
      e := Flip(seq(|vs|, n requires 0 <= n < |vs| => h[n] >= 0.0), k, j);
    }
    assert h[e] == sign * Side(p, dx, dy, vs[e]);
    assert h[Next(e, |vs|)] == sign * Side(p, dx, dy, vs[Next(e, |vs|)]);
  }

  lemma SignKeeps(sign: real, x: real)
    requires (sign == 1.0 || sign == -1.0) && x != 0.0
    ensures sign * x != 0.0
  {
  }

  lemma BothSides(p: Point, vs: seq<Point>, dx: real, dy: real, sign: real) returns (i: nat, j: nat)
    requires InHull(p, vs) && (sign == 1.0 || sign == -1.0)
    ensures i < |vs| && j < |vs|
    ensures sign * Side(p, dx, dy, vs[i]) <= 0.0 <= sign * Side(p, dx, dy, vs[j])
  {
    var a := Support(p, vs, -dy, dx);
    var b := Support(p, vs, dy, -dx);
    SideAlong(p, dx, dy, vs[a]);
    SideAlong(p, dx, dy, vs[b]);
    assert Dot(dy, -dx, vs[b]) == -Dot(-dy, dx, vs[b]) && Dot(dy, -dx, p) == -Dot(-dy, dx, p);
    if sign == 1.0 { i, j := a, b; } else { i, j := b, a; }
  }

  // ---------------------------------------------------------------- leaving a convex polygon

  /** The point a fraction s along edge e. */
  function OnEdge(vs: seq<Point>, e: nat, s: real): Point
    requires e < |vs|
  {
    var f := Next(e, |vs|);
    Mid(vs[e], vs[f], s)
  }

  function Mid(a: Point, b: Point, s: real): Point { Point(a.x + s * (b.x - a.x), a.y + s * (b.y - a.y)) }

  function Moved(p: Point, dx: real, dy: real, t: real): Point { Point(p.x + t * dx, p.y + t * dy) }

  lemma Cancel(a: real, b: real, d: real)
    requires d != 0.0 && Times(a, d) == Times(b, d)
    ensures a == b
  {
    hide Times;
    if d > 0.0 {
      if a > b { TimesLess(a, b, d); }
      if b > a { TimesLess(b, a, d); }
    } else {
      TimesMinus(a, d);
      TimesMinus(b, d);
      if a > b { TimesLess(a, b, -d); }
      if b > a { TimesLess(b, a, -d); }
    }
  }

  lemma TimesMinus(a: real, d: real)
    ensures Times(a, -d) == -Times(a, d)
  {
  }

  lemma Divided(a: real, d: real) returns (q: real)
    requires d != 0.0
    ensures Times(q, d) == a
  {
    q := a / d;
  }

  /** Two directions that are not parallel reach every point. */
  lemma Cramer(zx: real, zy: real, dx: real, dy: real, wx: real, wy: real, t: real, s: real)
    requires Cross(dx, dy, wx, wy) != 0.0
    requires Times(t, Cross(dx, dy, wx, wy)) == Cross(wx, wy, zx, zy)
    requires Times(s, Cross(dx, dy, wx, wy)) == Cross(dx, dy, zx, zy)
    ensures zx + t * dx == s * wx && zy + t * dy == s * wy
  {
    var d := Cross(dx, dy, wx, wy);
    CramerAlong(zx, zy, dx, dy, wx, wy, t, s);
    Cancel(zx + t * dx, s * wx, d);
    Cancel(zy + t * dy, s * wy, d);
  }

  lemma CramerAlong(zx: real, zy: real, dx: real, dy: real, wx: real, wy: real, t: real, s: real)
    requires Times(t, Cross(dx, dy, wx, wy)) == Cross(wx, wy, zx, zy)
    requires Times(s, Cross(dx, dy, wx, wy)) == Cross(dx, dy, zx, zy)
    ensures Times(zx + t * dx, Cross(dx, dy, wx, wy)) == Times(s * wx, Cross(dx, dy, wx, wy))
    ensures Times(zy + t * dy, Cross(dx, dy, wx, wy)) == Times(s * wy, Cross(dx, dy, wx, wy))
  {
    var d := Cross(dx, dy, wx, wy);
    assert zx * d == -Cross(wx, wy, zx, zy) * dx + Cross(dx, dy, zx, zy) * wx;
    assert zy * d == -Cross(wx, wy, zx, zy) * dy + Cross(dx, dy, zx, zy) * wy;
    Spread(zx, t, dx, d);
    Spread(zy, t, dy, d);
    Spread(0.0, s, wx, d);
    Spread(0.0, s, wy, d);
  }

  lemma Spread(z: real, t: real, d: real, c: real)
    ensures Times(z + t * d, c) == z * c + Times(t, c) * d
  {
  }

  lemma Quotient(q: real, a: real, d: real, sign: real)
    requires (sign == 1.0 || sign == -1.0) && Times(q, d) == a && sign * d > 0.0
    ensures sign * a >= 0.0 ==> q >= 0.0
    ensures sign * a <= sign * d ==> q <= 1.0
  {
    hide Times;
    var c := sign * d;
    assert Times(q, c) == sign * a by { TimesMinus(q, d); }
    OneTimes(c);
    if sign * a >= 0.0 && q < 0.0 { TimesLess(0.0, q, c); }
    if sign * a <= c && q > 1.0 { TimesLess(q, 1.0, c); }
  }

  lemma OneTimes(c: real)
    ensures Times(1.0, c) == c && Times(0.0, c) == 0.0
  {
  }

  lemma SideSteps(p: Point, vs: seq<Point>, dx: real, dy: real, e: nat)
    requires e < |vs|
    ensures var f := Next(e, |vs|);
            && Side(p, dx, dy, vs[f]) - Side(p, dx, dy, vs[e])
               == Cross(dx, dy, vs[f].x - vs[e].x, vs[f].y - vs[e].y)
            && Cross(dx, dy, p.x - vs[e].x, p.y - vs[e].y) == -Side(p, dx, dy, vs[e])
  {
  }

  /** A ray from a point of the hull of a convex polygon meets one of its edges. */
  lemma Exit(p: Point, vs: seq<Point>, dx: real, dy: real, sign: real) returns (e: nat, s: real, t: real)
    requires InHull(p, vs) && TurnsBy(vs, sign) && (dx != 0.0 || dy != 0.0)
    ensures e < |vs| && 0.0 <= s <= 1.0 && t >= 0.0 && OnEdge(vs, e, s) == Moved(p, dx, dy, t)
  {
    if k: nat :| k < |vs| && Side(p, dx, dy, vs[k]) != 0.0 {
      e := Straddles(p, vs, dx, dy, sign, k);
      s, t := ExitAt(p, vs, dx, dy, sign, e);
    } else {
      e, t := ExitAlong(p, vs, dx, dy);
      s := 0.0;
    }
  }

  lemma ExitAt(p: Point, vs: seq<Point>, dx: real, dy: real, sign: real, e: nat) returns (s: real, t: real)
    requires InHull(p, vs) && TurnsBy(vs, sign) && e < |vs|
    requires sign * Side(p, dx, dy, vs[e]) <= 0.0 <= sign * Side(p, dx, dy, vs[Next(e, |vs|)])
    requires sign * Side(p, dx, dy, vs[e]) < sign * Side(p, dx, dy, vs[Next(e, |vs|)])
    ensures 0.0 <= s <= 1.0 && t >= 0.0 && OnEdge(vs, e, s) == Moved(p, dx, dy, t)
  {
    var f := Next(e, |vs|);
    var wx, wy := vs[f].x - vs[e].x, vs[f].y - vs[e].y;
    var zx, zy := p.x - vs[e].x, p.y - vs[e].y;
    var d := Cross(dx, dy, wx, wy);
    SideSteps(p, vs, dx, dy, e);
    HullIsLeft(p, vs, e, sign);
    hide Side, Times, InHull, TurnsBy;
    assert sign * d > 0.0 && d != 0.0;
    t := Divided(Cross(wx, wy, zx, zy), d);
    s := Divided(Cross(dx, dy, zx, zy), d);
    Quotient(t, Cross(wx, wy, zx, zy), d, sign);
    Quotient(s, Cross(dx, dy, zx, zy), d, sign);
    Cramer(zx, zy, dx, dy, wx, wy, t, s);
  }

  /** All corners on the line: the furthest of them is where the ray ends. */
  lemma ExitAlong(p: Point, vs: seq<Point>, dx: real, dy: real) returns (k: nat, t: real)
    requires InHull(p, vs) && (dx != 0.0 || dy != 0.0)
    requires forall k: nat :: k < |vs| ==> Side(p, dx, dy, vs[k]) == 0.0
    ensures k < |vs| && t >= 0.0 && OnEdge(vs, k, 0.0) == Moved(p, dx, dy, t)
  {
    k := Support(p, vs, -dx, -dy);
    Opposite(dx, dy, p);
    Opposite(dx, dy, vs[k]);
    LenIsPositive(dx, dy);
    var l := Len2(dx, dy);
    var zx, zy := vs[k].x - p.x, vs[k].y - p.y;
    Shifted(dx, dy, vs[k], p);
    t := Divided(Dots(dx, dy, zx, zy), l);
    Quotient(t, Dots(dx, dy, zx, zy), l, 1.0);
    Parallel(zx, zy, dx, dy, t);
  }

  lemma Parallel(zx: real, zy: real, dx: real, dy: real, t: real)
    requires Cross(dx, dy, zx, zy) == 0.0 && Len2(dx, dy) > 0.0
    requires Times(t, Len2(dx, dy)) == Dots(dx, dy, zx, zy)
    ensures zx == t * dx && zy == t * dy
  {
    var l := Len2(dx, dy);
    assert zx * l == Dots(dx, dy, zx, zy) * dx - Cross(dx, dy, zx, zy) * dy;
    assert zy * l == Dots(dx, dy, zx, zy) * dy + Cross(dx, dy, zx, zy) * dx;
    Spread(0.0, t, dx, l);
    Spread(0.0, t, dy, l);
    Cancel(zx, t * dx, l);
    Cancel(zy, t * dy, l);
  }
}
