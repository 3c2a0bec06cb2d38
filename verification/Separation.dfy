/** What the clearance test says (reset_planner.cpp, clearAtLeast): two convex footprints that pass it
    are at least the margin apart, everywhere. In coordinates: the squared distance of any point of
    the one hull from any point of the other is at least the squared margin. */
module Separation {
  import opened ResetProtocol
  import opened Geometry
  import opened Arithmetic
  import opened Hulls

  /** Any two points of the hulls are at least m apart. */
  ghost predicate FarApart(a: seq<Point>, b: seq<Point>, m: real) {
    forall p: Point, q: Point :: InHull(p, a) && InHull(q, b) ==> Far(p, q, m)
  }

  predicate Far(p: Point, q: Point, m: real) { (p.x - q.x) * (p.x - q.x) + (p.y - q.y) * (p.y - q.y) >= m * m }

  lemma FarSwaps(p: Point, q: Point, m: real)
    ensures Far(p, q, m) == Far(q, p, m)
  {
  }

  lemma FarIs(p: Point, q: Point, m: real)
    ensures Far(p, q, m) <==> Len2(q.x - p.x, q.y - p.y) >= Times(m, m)
  {
  }

  // ---------------------------------------------------------------- an axis with a gap

  /** A gap of m along an axis is a distance of m. */
  lemma GapIsFar(nx: real, ny: real, a: seq<Point>, b: seq<Point>, m: real, p: Point, q: Point)
    requires Beyond(nx, ny, a, b, m) && (nx != 0.0 || ny != 0.0) && m >= 0.0
    requires InHull(p, a) && InHull(q, b)
    ensures Far(p, q, m)
  {
    var i := Support(p, a, -nx, -ny);
    var j := Support(q, b, nx, ny);
    Opposite(nx, ny, p);
    Opposite(nx, ny, a[i]);
    var d := Dot(nx, ny, b[j]) - Dot(nx, ny, a[i]);
    BeyondAt(nx, ny, a, b, m, i, j);
    AlongFar(nx, ny, p, q, m, d);
  }

  lemma BeyondAt(nx: real, ny: real, a: seq<Point>, b: seq<Point>, m: real, i: nat, j: nat)
    requires Beyond(nx, ny, a, b, m) && i < |a| && j < |b|
    ensures var d := Dot(nx, ny, b[j]) - Dot(nx, ny, a[i]);
            d >= 0.0 && Times(d, d) >= Times(Times(m, m), Len2(nx, ny))
  {
  }

  lemma AlongFar(nx: real, ny: real, p: Point, q: Point, m: real, d: real)
    requires nx != 0.0 || ny != 0.0
    requires Dot(nx, ny, q) - Dot(nx, ny, p) >= d >= 0.0 && Times(d, d) >= Times(Times(m, m), Len2(nx, ny))
    ensures Far(p, q, m)
  {
    var x, y := q.x - p.x, q.y - p.y;
    var c := Dots(nx, ny, x, y);
    Differs(nx, ny, p, q);
    LenIsPositive(nx, ny);
    DotSquared(nx, ny, x, y);
    DotsSquared(nx, ny, x, y);
    FarIs(p, q, m);
    hide Dot, Dots, Len2, Times, Far;
    TimesMore(c, d, d);
    TimesMore(c, d, c);
    TimesSwap(c, d);
    TimesSwap(Len2(nx, ny), Len2(x, y));
    Unscaled(Times(m, m), Len2(x, y), Len2(nx, ny));
  }

  lemma Differs(nx: real, ny: real, p: Point, q: Point)
    ensures Dots(nx, ny, q.x - p.x, q.y - p.y) == Dot(nx, ny, q) - Dot(nx, ny, p)
  {
  }

  lemma DotsSquared(ax: real, ay: real, cx: real, cy: real)
    ensures Times(Dots(ax, ay, cx, cy), Dots(ax, ay, cx, cy)) <= Times(Len2(ax, ay), Len2(cx, cy))
  {
    DotSquared(ax, ay, cx, cy);
  }

  // ---------------------------------------------------------------- a corner and a segment

  /** The source's projection is the nearest point of the segment. */
  lemma SegmentIsLeast(p: Point, a: Point, b: Point, t: real)
    requires 0.0 <= t <= 1.0
    ensures SegmentDistance2(p, a, b) <= Len2(p.x - Mid(a, b, t).x, p.y - Mid(a, b, t).y)
  {
    var ex, ey, zx, zy := b.x - a.x, b.y - a.y, p.x - a.x, p.y - a.y;
    SegmentAt(p, a, b);
    LenIsPositive(ex, ey);
    if Len2(ex, ey) > 0.0 {
      var u := ProjectedAt(p, a, b);
      NearerIsLess(zx, zy, ex, ey, u, Projected(p, a, b), t);
      hide Len2, Dots, Times, Clamp, Mid, Projected;
      AtFraction(p, a, b, Projected(p, a, b));
      AtFraction(p, a, b, t);
    } else {
      assert ex == 0.0 && ey == 0.0;
    }
  }

  lemma SegmentAt(p: Point, a: Point, b: Point)
    ensures var q := Mid(a, b, Projected(p, a, b)); SegmentDistance2(p, a, b) == Len2(p.x - q.x, p.y - q.y)
  {
    hide Projected;
  }

  /** The fraction is the projection onto the line, cut off at the ends. */
  lemma ProjectedAt(p: Point, a: Point, b: Point) returns (u: real)
    requires Len2(b.x - a.x, b.y - a.y) > 0.0
    ensures Times(u, Len2(b.x - a.x, b.y - a.y)) == Dots(p.x - a.x, p.y - a.y, b.x - a.x, b.y - a.y)
    ensures Projected(p, a, b) == Clamp(u, 0.0, 1.0)
  {
    u := RawFraction(p, a, b);
    hide Clamp;
    RawTimes(Dots(p.x - a.x, p.y - a.y, b.x - a.x, b.y - a.y), Len2(b.x - a.x, b.y - a.y));
  }

  function RawFraction(p: Point, a: Point, b: Point): real
    requires Len2(b.x - a.x, b.y - a.y) > 0.0
  {
    Dots(p.x - a.x, p.y - a.y, b.x - a.x, b.y - a.y) / Len2(b.x - a.x, b.y - a.y)
  }

  lemma RawTimes(c: real, l: real)
    requires l > 0.0
    ensures Times(c / l, l) == c
  {
  }

  lemma AtFraction(p: Point, a: Point, b: Point, t: real)
    ensures Len2(p.x - Mid(a, b, t).x, p.y - Mid(a, b, t).y)
         == Fall(p.x - a.x, p.y - a.y, b.x - a.x, b.y - a.y, t)
  {
  }

  function Fall(zx: real, zy: real, ex: real, ey: real, t: real): real { Len2(zx - t * ex, zy - t * ey) }

  lemma NearerIsLess(zx: real, zy: real, ex: real, ey: real, u: real, n: real, t: real)
    requires Len2(ex, ey) > 0.0 && Times(u, Len2(ex, ey)) == Dots(zx, zy, ex, ey)
    requires n == Clamp(u, 0.0, 1.0) && 0.0 <= t <= 1.0
    ensures Fall(zx, zy, ex, ey, n) <= Fall(zx, zy, ex, ey, t)
  {
    FallIs(zx, zy, ex, ey, u, n);
    FallIs(zx, zy, ex, ey, u, t);
    NearerSquare(u, n, t);
    TimesMore(Times(t - u, t - u), Times(n - u, n - u), Len2(ex, ey));
    hide Fall, Len2, Times, Dots;
  }

  lemma FallIs(zx: real, zy: real, ex: real, ey: real, u: real, t: real)
    requires Times(u, Len2(ex, ey)) == Dots(zx, zy, ex, ey)
    ensures Fall(zx, zy, ex, ey, t)
         == Times(Times(t - u, t - u), Len2(ex, ey)) + Len2(zx, zy) - Times(Times(u, u), Len2(ex, ey))
  {
    FallExpands(zx, zy, ex, ey, t);
    SquareExpands(t, u, Len2(ex, ey));
    hide Fall, Len2, Dots, Times;
  }

  lemma FallExpands(zx: real, zy: real, ex: real, ey: real, t: real)
    ensures Fall(zx, zy, ex, ey, t)
         == Len2(zx, zy) - 2.0 * Times(t, Dots(zx, zy, ex, ey)) + Times(Times(t, t), Len2(ex, ey))
  {
  }

  lemma SquareExpands(t: real, u: real, l: real)
    ensures Times(Times(t - u, t - u), l)
         == Times(Times(t, t), l) - 2.0 * Times(t, Times(u, l)) + Times(Times(u, u), l)
  {
  }

  lemma NearerSquare(u: real, n: real, t: real)
    requires n == Clamp(u, 0.0, 1.0) && 0.0 <= t <= 1.0
    ensures Times(n - u, n - u) <= Times(t - u, t - u)
  {
    if u < 0.0 { TimesGrow(-u, t - u); assert n - u == -u; }
    else if u > 1.0 { TimesGrow(u - 1.0, u - t); TimesEven(u - t); TimesEven(u - 1.0); assert n - u == -(u - 1.0); }
    else { assert n - u == 0.0; TimesEven(t - u); }
  }

  lemma TimesGrow(a: real, b: real)
    requires 0.0 <= a <= b
    ensures Times(a, a) <= Times(b, b)
  {
    ProductBound(a, b, a, b);
  }

  lemma TimesEven(a: real)
    ensures Times(-a, -a) == Times(a, a) >= 0.0
  {
  }

  lemma EdgeFarMeans(p: Point, vs: seq<Point>, e: nat, m: real, t: real)
    requires e < |vs| && EdgeFar(p, vs, e, m) && 0.0 <= t <= 1.0
    ensures Far(p, OnEdge(vs, e, t), m)
  {
    EdgeFarIs(p, vs, e, m);
    hide EdgeFar, SegmentDistance2, Mid, Len2, Times, Far;
    SegmentIsLeast(p, vs[e], vs[Next(e, |vs|)], t);
    FarIs(OnEdge(vs, e, t), p, m);
    FarSwaps(p, OnEdge(vs, e, t), m);
  }

  lemma EdgeFarIs(p: Point, vs: seq<Point>, e: nat, m: real)
    requires e < |vs| && EdgeFar(p, vs, e, m)
    ensures SegmentDistance2(p, vs[e], vs[Next(e, |vs|)]) >= Times(m, m)
  {
    hide SegmentDistance2;
    assert Next(e, |vs|) == (e + 1) % |vs|;
  }

  // ---------------------------------------------------------------- two segments

  /** The difference of the points a fraction s along a and t along b. */
  function GapX(a: Point, a': Point, b: Point, b': Point, s: real, t: real): real {
    Mid(b, b', t).x - Mid(a, a', s).x
  }

  function GapY(a: Point, a': Point, b: Point, b': Point, s: real, t: real): real {
    Mid(b, b', t).y - Mid(a, a', s).y
  }

  function Gap2(a: Point, a': Point, b: Point, b': Point, s: real, t: real): real {
    Len2(GapX(a, a', b, b', s, t), GapY(a, a', b, b', s, t))
  }

  predicate Unit(s: real) { 0.0 <= s <= 1.0 }

  /** One of the two points is an end of its segment. */
  predicate AtEnd(s: real, t: real) { s == 0.0 || s == 1.0 || t == 0.0 || t == 1.0 }

  function Way(x: real, y: real, l: real): real { x + l * (y - x) }

  /** How much of the way from x to y stays in [0, 1]: more than all of it, or up to an end. */
  predicate RoomOf(x: real, y: real, r: real) {
    r >= 0.0 && if Unit(y) then r > 1.0 else r <= 1.0 && (Way(x, y, r) == 0.0 || Way(x, y, r) == 1.0)
  }

  lemma Room(x: real, y: real) returns (r: real)
    requires Unit(x)
    ensures RoomOf(x, y, r)
  {
    if Unit(y) {
      r := 2.0;
    } else if y > 1.0 {
      r := Divided(1.0 - x, y - x);
      Quotient(r, 1.0 - x, y - x, 1.0);
    } else {
      r := Divided(x, x - y);
      Quotient(r, x, x - y, 1.0);
      assert r * (y - x) == -Times(r, x - y);
    }
  }

  lemma Stays(x: real, y: real, r: real, l: real)
    requires Unit(x) && RoomOf(x, y, r) && 0.0 <= l <= r && l <= 1.0
    ensures Unit(Way(x, y, l))
  {
    if Unit(y) { BetweenUnits(x, y, l); }
    else if r > 0.0 {
      var f := Divided(l, r);
      Quotient(f, l, r, 1.0);
      BetweenUnits(x, Way(x, y, r), f);
      Stepwise(x, y, r, f);
    }
  }

  lemma Stepwise(x: real, y: real, r: real, f: real)
    ensures Way(x, Way(x, y, r), f) == Way(x, y, Times(f, r))
  {
  }

  lemma BetweenUnits(x: real, y: real, l: real)
    requires Unit(x) && Unit(y) && Unit(l)
    ensures Unit(Way(x, y, l))
  {
    NotNegative(1.0 - l, x);
    NotNegative(l, y);
    NotNegative(1.0 - l, 1.0 - x);
    NotNegative(l, 1.0 - y);
    assert Way(x, y, l) == Times(1.0 - l, x) + Times(l, y);
    assert 1.0 - Way(x, y, l) == Times(1.0 - l, 1.0 - x) + Times(l, 1.0 - y);
  }

  /** On the way from a pair of points of the segments to a pair that is not, one of the two reaches an
      end. */
  lemma ReachesEnd(s: real, t: real, s': real, t': real) returns (l: real)
    requires Unit(s) && Unit(t) && !(Unit(s') && Unit(t'))
    ensures Unit(l) && Unit(Way(s, s', l)) && Unit(Way(t, t', l)) && AtEnd(Way(s, s', l), Way(t, t', l))
  {
    var a := Room(s, s');
    var b := Room(t, t');
    l := if a <= b then a else b;
    hide Way;
    Stays(s, s', a, l);
    Stays(t, t', b, l);
  }

  lemma GapIsAffine(a: Point, a': Point, b: Point, b': Point, s: real, t: real, s': real, t': real, l: real)
    ensures GapX(a, a', b, b', Way(s, s', l), Way(t, t', l))
         == Way(GapX(a, a', b, b', s, t), GapX(a, a', b, b', s', t'), l)
    ensures GapY(a, a', b, b', Way(s, s', l), Way(t, t', l))
         == Way(GapY(a, a', b, b', s, t), GapY(a, a', b, b', s', t'), l)
  {
  }

  /** Towards a common point, or along parallel segments, the distance does not grow. */
  lemma NoFurther(x: real, y: real, x': real, y': real, l: real)
    requires Unit(l) && ((x' == 0.0 && y' == 0.0) || (x' == x && y' == y))
    ensures Len2(Way(x, x', l), Way(y, y', l)) <= Len2(x, y)
  {
    if x' == x && y' == y {
      assert Way(x, x', l) == x && Way(y, y', l) == y;
    } else {
      var k := 1.0 - l;
      assert Way(x, x', l) == Times(k, x) && Way(y, y', l) == Times(k, y);
      Shrunk(k, x);
      Shrunk(k, y);
    }
  }

  lemma Shrunk(k: real, x: real)
    requires Unit(k)
    ensures Times(Times(k, x), Times(k, x)) <= Times(x, x)
  {
    SquareOfProduct(k, x);
    TimesMore(1.0, k, k);
    TimesEven(x);
    hide Times;
    TimesMore(Times(1.0, k), Times(k, k), Times(x, x));
    OneTimes(k);
    OneTimes(Times(x, x));
    TimesSwap(1.0, k);
    TimesMore(1.0, k, Times(x, x));
  }

  /** Where the line through the one segment meets that through the other, or a way along which the
      two stay as far apart as they are. */
  lemma Target(a: Point, a': Point, b: Point, b': Point, s: real, t: real) returns (s': real, t': real)
    requires a' != a && Unit(t)
    ensures GapX(a, a', b, b', s', t') == 0.0 == GapY(a, a', b, b', s', t')
            || (GapX(a, a', b, b', s', t') == GapX(a, a', b, b', s, t)
                && GapY(a, a', b, b', s', t') == GapY(a, a', b, b', s, t) && !Unit(t'))
  {
    var ux, uy, vx, vy := a'.x - a.x, a'.y - a.y, b'.x - b.x, b'.y - b.y;
    var rx, ry := b.x - a.x, b.y - a.y;
    var d := Cross(vx, vy, ux, uy);
    if d != 0.0 {
      t' := Divided(Cross(ux, uy, rx, ry), d);
      s' := Divided(Cross(vx, vy, rx, ry), d);
      Cramer(rx, ry, vx, vy, ux, uy, t', s');
    } else {
      LenIsPositive(ux, uy);
      var k := Divided(Dots(ux, uy, vx, vy), Len2(ux, uy));
      assert Cross(ux, uy, vx, vy) == -d;
      Parallel(vx, vy, ux, uy, k);
      t', s' := -1.0, s + k * (-1.0 - t);
      Along1(a.x, a'.x, b.x, b'.x, s, t, k);
      Along1(a.y, a'.y, b.y, b'.y, s, t, k);
    }
  }

  lemma Along1(a: real, a': real, b: real, b': real, s: real, t: real, k: real)
    requires b' - b == k * (a' - a)
    ensures b - (b' - b) - (a + (s + k * (-1.0 - t)) * (a' - a)) == b + t * (b' - b) - (a + s * (a' - a))
  {
  }

  /** Two segments without a common point are nearest where one of them ends. */
  lemma NearestAtEnd(a: Point, a': Point, b: Point, b': Point, s: real, t: real) returns (x: real, y: real)
    requires Unit(s) && Unit(t)
    requires forall x: real, y: real :: Unit(x) && Unit(y) ==> Mid(a, a', x) != Mid(b, b', y)
    ensures Unit(x) && Unit(y) && AtEnd(x, y) && Gap2(a, a', b, b', x, y) <= Gap2(a, a', b, b', s, t)
  {
    if a' == a {
      x, y := 0.0, t;
      assert Mid(a, a', 0.0) == Mid(a, a', s);
    } else {
      var s', t' := Target(a, a', b, b', s, t);
      if Unit(s') && Unit(t') { Meets(a, a', b, b', s', t'); }
      var l := ReachesEnd(s, t, s', t');
      x, y := Way(s, s', l), Way(t, t', l);
      GapIsAffine(a, a', b, b', s, t, s', t', l);
      NoFurther(GapX(a, a', b, b', s, t), GapY(a, a', b, b', s, t), GapX(a, a', b, b', s', t'),
                GapY(a, a', b, b', s', t'), l);
      hide Way, GapX, GapY, Len2, Mid;
    }
  }

  lemma Meets(a: Point, a': Point, b: Point, b': Point, s: real, t: real)
    requires GapX(a, a', b, b', s, t) == 0.0 == GapY(a, a', b, b', s, t)
    ensures Mid(a, a', s) == Mid(b, b', t)
  {
  }

  // ---------------------------------------------------------------- two polygons

  lemma BetweenAlong(nx: real, ny: real, a: Point, b: Point, s: real, c: real)
    requires Unit(s) && Dot(nx, ny, a) < c && Dot(nx, ny, b) < c
    ensures Dot(nx, ny, Mid(a, b, s)) < c
  {
    var u, v := Dot(nx, ny, a), Dot(nx, ny, b);
    assert Dot(nx, ny, Mid(a, b, s)) == Times(1.0 - s, u) + Times(s, v);
    TimesMore(c, u, 1.0 - s);
    TimesMore(c, v, s);
    TimesSwap(1.0 - s, u);
    TimesSwap(s, v);
    assert Times(c, 1.0 - s) + Times(c, s) == c;
    if s > 0.0 { TimesLess(c, v, s); } else { TimesLess(c, u, 1.0 - s); }
  }

  lemma CornerBefore(nx: real, ny: real, a: seq<Point>, b: seq<Point>, i: nat, j: nat)
    requires StrictlyBeyond(nx, ny, a, b) && i < |a| && j < |b|
    ensures Dot(nx, ny, a[i]) < Dot(nx, ny, b[j])
  {
    hide Dot;
  }

  /** All of a lies short of all of b. */
  lemma BeforeAt(nx: real, ny: real, a: seq<Point>, b: seq<Point>, e: nat, s: real, f: nat, t: real)
    requires StrictlyBeyond(nx, ny, a, b) && e < |a| && f < |b| && Unit(s) && Unit(t)
    ensures Dot(nx, ny, OnEdge(a, e, s)) < Dot(nx, ny, OnEdge(b, f, t))
  {
    hide Mid;
    forall i, j | 0 <= i < |a| && 0 <= j < |b| ensures Dot(nx, ny, a[i]) < Dot(nx, ny, b[j]) {
      CornerBefore(nx, ny, a, b, i, j);
    }
    hide Dot, StrictlyBeyond;
    BetweenAlong(nx, ny, a[e], a[Next(e, |a|)], s, Dot(nx, ny, b[f]));
    BetweenAlong(nx, ny, a[e], a[Next(e, |a|)], s, Dot(nx, ny, b[Next(f, |b|)]));
    BetweenAbove(nx, ny, b[f], b[Next(f, |b|)], t, Dot(nx, ny, OnEdge(a, e, s)));
  }

  lemma BetweenAbove(nx: real, ny: real, a: Point, b: Point, s: real, c: real)
    requires Unit(s) && Dot(nx, ny, a) > c && Dot(nx, ny, b) > c
    ensures Dot(nx, ny, Mid(a, b, s)) > c
  {
    Opposite(nx, ny, a);
    Opposite(nx, ny, b);
    Opposite(nx, ny, Mid(a, b, s));
    hide Dot;
    BetweenAlong(-nx, -ny, a, b, s, -c);
  }

  /** The way from p to q leaves the hull of a before it is at q. */
  lemma LeavesBefore(nx: real, ny: real, a: seq<Point>, p: Point, q: Point, sign: real)
    returns (e: nat, s: real, t: real)
    requires InHull(p, a) && TurnsBy(a, sign)
    requires forall i :: 0 <= i < |a| ==> Dot(nx, ny, a[i]) < Dot(nx, ny, q)
    ensures e < |a| && Unit(s) && Unit(t) && OnEdge(a, e, s) == Moved(p, q.x - p.x, q.y - p.y, t)
  {
    var i := Support(p, a, -nx, -ny);
    Opposite(nx, ny, p);
    Opposite(nx, ny, a[i]);
    assert Dot(nx, ny, p) < Dot(nx, ny, q);
    var dx, dy := q.x - p.x, q.y - p.y;
    if dx == 0.0 && dy == 0.0 { assert false; }
    e, s, t := Exit(p, a, dx, dy, sign);
    hide InHull, TurnsBy, Mid;
    BetweenAlong(nx, ny, a[e], a[Next(e, |a|)], s, Dot(nx, ny, q));
    AlongMoved(nx, ny, p, q, t);
    hide Dot, Moved;
    var d := Dot(nx, ny, q) - Dot(nx, ny, p);
    if t > 1.0 { TimesLess(t, 1.0, d); OneTimes(d); hide Times; }
  }

  lemma AlongMoved(nx: real, ny: real, p: Point, q: Point, t: real)
    ensures Dot(nx, ny, Moved(p, q.x - p.x, q.y - p.y, t))
         == Dot(nx, ny, p) + Times(t, Dot(nx, ny, q) - Dot(nx, ny, p))
  {
  }

  lemma MovedNearer(p: Point, q: Point, t: real)
    requires Unit(t)
    ensures var x := Moved(p, q.x - p.x, q.y - p.y, t);
            Len2(q.x - x.x, q.y - x.y) <= Len2(q.x - p.x, q.y - p.y)
  {
    var x := Moved(p, q.x - p.x, q.y - p.y, t);
    var dx, dy := q.x - p.x, q.y - p.y;
    assert q.x - x.x == Way(dx, 0.0, t) && q.y - x.y == Way(dy, 0.0, t);
    NoFurther(dx, dy, 0.0, 0.0, t);
  }

  lemma LenSwaps(p: Point, q: Point)
    ensures Len2(q.x - p.x, q.y - p.y) == Len2(p.x - q.x, p.y - q.y)
  {
  }

  /** Two convex polygons with a strictly separating axis, whose corners are at least m from the edges
      of the other, are at least m apart. */
  lemma CornersDecide(nx: real, ny: real, a: seq<Point>, b: seq<Point>, m: real, p: Point, q: Point, sa: real, sb: real)
    requires StrictlyBeyond(nx, ny, a, b) && CornersFar(a, b, m) && CornersFar(b, a, m)
    requires TurnsBy(a, sa) && TurnsBy(b, sb) && InHull(p, a) && InHull(q, b)
    ensures Far(p, q, m)
  {
    var j := Support(q, b, nx, ny);
    forall i | 0 <= i < |a| ensures Dot(nx, ny, a[i]) < Dot(nx, ny, q) {
      CornerBefore(nx, ny, a, b, i, j);
    }
    var e, s, u := LeavesBefore(nx, ny, a, p, q, sa);
    var x := OnEdge(a, e, s);
    MovedNearer(p, q, u);
    forall i | 0 <= i < |b| ensures Dot(-nx, -ny, b[i]) < Dot(-nx, -ny, x) {
      BeforeAt(nx, ny, a, b, e, s, i, 0.0);
      StartOfEdge(b, i);
      Opposite(nx, ny, b[i]);
      Opposite(nx, ny, x);
    }
    var f, t, w := LeavesBefore(-nx, -ny, b, q, x, sb);
    var y := OnEdge(b, f, t);
    MovedNearer(q, x, w);
    LenSwaps(x, q);
    LenSwaps(x, y);
    FarIs(p, q, m);
    FarIs(x, y, m);
    EdgesDecide(nx, ny, a, b, m, e, s, f, t);
    hide Far, Len2, OnEdge, Moved, Times, InHull, TurnsBy, CornersFar, StrictlyBeyond, Dot;
  }

  lemma StartOfEdge(vs: seq<Point>, i: nat)
    requires i < |vs|
    ensures OnEdge(vs, i, 0.0) == vs[i]
  {
  }

  lemma EndOfEdge(vs: seq<Point>, i: nat)
    requires i < |vs|
    ensures OnEdge(vs, i, 1.0) == vs[Next(i, |vs|)]
  {
  }

  /** Points on edges of the one and the other. */
  lemma EdgesDecide(nx: real, ny: real, a: seq<Point>, b: seq<Point>, m: real, e: nat, s: real, f: nat, t: real)
    requires StrictlyBeyond(nx, ny, a, b) && CornersFar(a, b, m) && CornersFar(b, a, m)
    requires e < |a| && f < |b| && Unit(s) && Unit(t)
    ensures Far(OnEdge(a, e, s), OnEdge(b, f, t), m)
  {
    var a0, a1, b0, b1 := a[e], a[Next(e, |a|)], b[f], b[Next(f, |b|)];
    forall x: real, y: real | Unit(x) && Unit(y) ensures Mid(a0, a1, x) != Mid(b0, b1, y) {
      BeforeAt(nx, ny, a, b, e, x, f, y);
    }
    var x, y := NearestAtEnd(a0, a1, b0, b1, s, t);
    EndsFar(a, b, m, e, x, f, y);
    FarIs(OnEdge(a, e, s), OnEdge(b, f, t), m);
    FarIs(OnEdge(a, e, x), OnEdge(b, f, y), m);
    hide Far, Len2, Mid, Times, CornersFar, StrictlyBeyond;
  }

  lemma EndsFar(a: seq<Point>, b: seq<Point>, m: real, e: nat, x: real, f: nat, y: real)
    requires CornersFar(a, b, m) && CornersFar(b, a, m) && e < |a| && f < |b|
    requires Unit(x) && Unit(y) && AtEnd(x, y)
    ensures Far(OnEdge(a, e, x), OnEdge(b, f, y), m)
  {
    hide EdgeFar, Far, OnEdge;
    StartOfEdge(a, e);
    EndOfEdge(a, e);
    StartOfEdge(b, f);
    EndOfEdge(b, f);
    FarSwaps(OnEdge(a, e, x), OnEdge(b, f, y), m);
    if x == 0.0 || x == 1.0 {
      var i := if x == 0.0 then e else Next(e, |a|);
      assert EdgeFar(a[i], b, f, m);
      EdgeFarMeans(a[i], b, f, m, y);
    } else {
      var i := if y == 0.0 then f else Next(f, |b|);
      assert EdgeFar(b[i], a, e, m);
      EdgeFarMeans(b[i], a, e, m, x);
    }
  }

  // ---------------------------------------------------------------- the clearance test

  /** The axis of an edge that tells the two apart, one way or the other. */
  lemma GapAxis(vs: seq<Point>, rect: bool, a: seq<Point>, b: seq<Point>, m: real) returns (nx: real, ny: real)
    requires GapOnEdges(vs, rect, a, b, m)
    ensures nx != 0.0 || ny != 0.0
    ensures Beyond(nx, ny, a, b, m) || Beyond(nx, ny, b, a, m)
  {
    hide Beyond, RealEdge, Edge;
    var e: nat :| e < |vs| && GapOnEdge(vs, e, a, b, m);
    nx, ny := GapAxisOf(vs, e, a, b, m);
  }

  lemma GapAxisOf(vs: seq<Point>, e: nat, a: seq<Point>, b: seq<Point>, m: real) returns (nx: real, ny: real)
    requires e < |vs| && GapOnEdge(vs, e, a, b, m)
    ensures nx != 0.0 || ny != 0.0
    ensures Beyond(nx, ny, a, b, m) || Beyond(nx, ny, b, a, m)
  {
    var t := Edge(vs, e);
    nx, ny := -t.1, t.0;
    NotNothing(t.0, t.1);
    hide Edge, Beyond;
  }

  lemma NotNothing(x: real, y: real)
    requires RealEdge((x, y))
    ensures -y != 0.0 || x != 0.0
  {
  }

  lemma PositiveAxis(vs: seq<Point>, rect: bool, a: seq<Point>, b: seq<Point>) returns (nx: real, ny: real)
    requires PositiveOnEdges(vs, rect, a, b)
    ensures StrictlyBeyond(nx, ny, a, b) || StrictlyBeyond(nx, ny, b, a)
  {
    hide StrictlyBeyond, RealEdge, Edge;
    var e: nat :| e < |vs| && PositiveOnEdge(vs, e, a, b);
    nx, ny := PositiveAxisOf(vs, e, a, b);
  }

  lemma PositiveAxisOf(vs: seq<Point>, e: nat, a: seq<Point>, b: seq<Point>) returns (nx: real, ny: real)
    requires e < |vs| && PositiveOnEdge(vs, e, a, b)
    ensures StrictlyBeyond(nx, ny, a, b) || StrictlyBeyond(nx, ny, b, a)
  {
    hide Edge, StrictlyBeyond;
    var t := Edge(vs, e);
    nx, ny := -t.1, t.0;
  }

  lemma GapOnEdgesIsFar(vs: seq<Point>, rect: bool, a: seq<Point>, b: seq<Point>, m: real, p: Point, q: Point)
    requires GapOnEdges(vs, rect, a, b, m) && m >= 0.0 && InHull(p, a) && InHull(q, b)
    ensures Far(p, q, m)
  {
    hide Far, InHull, GapOnEdges, Beyond;
    var nx, ny := GapAxis(vs, rect, a, b, m);
    FarSwaps(p, q, m);
    if Beyond(nx, ny, a, b, m) { GapIsFar(nx, ny, a, b, m, p, q); } else { GapIsFar(nx, ny, b, a, m, q, p); }
  }

  lemma PositiveIsFar(vs: seq<Point>, rect: bool, a: seq<Point>, b: seq<Point>, m: real, p: Point, q: Point)
    requires PositiveOnEdges(vs, rect, a, b) && CornersFar(a, b, m) && CornersFar(b, a, m)
    requires Convex(a) && Convex(b) && InHull(p, a) && InHull(q, b)
    ensures Far(p, q, m)
  {
    var sa, sb := if TurnsBy(a, 1.0) then 1.0 else -1.0, if TurnsBy(b, 1.0) then 1.0 else -1.0;
    hide Far, InHull, PositiveOnEdges, StrictlyBeyond, CornersFar, TurnsBy;
    var nx, ny := PositiveAxis(vs, rect, a, b);
    FarSwaps(p, q, m);
    if StrictlyBeyond(nx, ny, a, b) { CornersDecide(nx, ny, a, b, m, p, q, sa, sb); }
    else { CornersDecide(nx, ny, b, a, m, q, p, sb, sa); }
  }

  /** Convex polygons that pass the exact test are at least m apart. */
  lemma ExactClearIsFar(a: seq<Point>, rectA: bool, b: seq<Point>, rectB: bool, m: real)
    requires ExactClear(a, rectA, b, rectB, m) && m >= 0.0 && Convex(a) && Convex(b)
    ensures FarApart(a, b, m)
  {
    hide GapOnEdges, PositiveOnEdges, CornersFar, Convex, InHull, Far;
    forall p: Point, q: Point | InHull(p, a) && InHull(q, b) ensures Far(p, q, m) {
      if GapOnEdges(a, rectA, a, b, m) { GapOnEdgesIsFar(a, rectA, a, b, m, p, q); }
      else if GapOnEdges(b, rectB, a, b, m) { GapOnEdgesIsFar(b, rectB, a, b, m, p, q); }
      else if PositiveOnEdges(a, rectA, a, b) { PositiveIsFar(a, rectA, a, b, m, p, q); }
      else { PositiveIsFar(b, rectB, a, b, m, p, q); }
    }
  }

  lemma HullInBox(p: Point, vs: seq<Point>, box: Aabb)
    requires InHull(p, vs) && forall k :: 0 <= k < |vs| ==> InBox(vs[k], box)
    ensures InBox(p, box)
  {
    var i := Support(p, vs, 1.0, 0.0);
    var j := Support(p, vs, -1.0, 0.0);
    var k := Support(p, vs, 0.0, 1.0);
    var l := Support(p, vs, 0.0, -1.0);
  }

  lemma AxisIsFar(p: Point, q: Point, m: real)
    requires m >= 0.0 && (q.x - p.x >= m || p.x - q.x >= m || q.y - p.y >= m || p.y - q.y >= m)
    ensures Far(p, q, m)
  {
    var x, y := p.x - q.x, p.y - q.y;
    TimesEven(x);
    TimesEven(y);
    assert Far(p, q, m) <==> Times(x, x) + Times(y, y) >= Times(m, m);
    hide Far, Times;
    if x >= m { TimesGrow(m, x); } else if -x >= m { TimesGrow(m, -x); }
    else if y >= m { TimesGrow(m, y); } else { TimesGrow(m, -y); }
  }

  lemma BoxesAreFar(a: seq<Point>, boxA: Aabb, b: seq<Point>, boxB: Aabb, m: real)
    requires Separated(boxA, boxB, m) && m >= 0.0
    requires forall k :: 0 <= k < |a| ==> InBox(a[k], boxA)
    requires forall k :: 0 <= k < |b| ==> InBox(b[k], boxB)
    ensures FarApart(a, b, m)
  {
    hide InHull, Far;
    forall p: Point, q: Point | InHull(p, a) && InHull(q, b) ensures Far(p, q, m) {
      HullInBox(p, a, boxA);
      HullInBox(q, b, boxB);
      AxisIsFar(p, q, m);
    }
  }

  /** Three ways in a row are no longer than their bounds together. */
  lemma Triangle(xx: real, xy: real, wx: real, wy: real, yx: real, yy: real, A: real, M: real, B: real)
    requires A >= 0.0 && M >= 0.0 && B >= 0.0 && Len2(xx, xy) <= Times(A, A) && Len2(wx, wy) <= Times(M, M)
    requires Len2(yx, yy) <= Times(B, B)
    ensures Len2(xx + wx + yx, xy + wy + yy) <= Times(A + M + B, A + M + B)
  {
    DotBound(xx, xy, wx, wy, A, M);
    DotBound(xx, xy, yx, yy, A, B);
    DotBound(wx, wy, yx, yy, M, B);
    assert Len2(xx + wx + yx, xy + wy + yy) == Len2(xx, xy) + Len2(wx, wy) + Len2(yx, yy)
        + 2.0 * (xx * wx + xy * wy) + 2.0 * (xx * yx + xy * yy) + 2.0 * (wx * yx + wy * yy);
    assert Times(A + M + B, A + M + B) == Times(A, A) + Times(M, M) + Times(B, B)
        + 2.0 * Times(A, M) + 2.0 * Times(A, B) + 2.0 * Times(M, B);
  }

  lemma SumsUp(ca: Point, p: Point, q: Point, cb: Point, ra: real, m: real, rb: real)
    ensures ca.x - p.x + (p.x - q.x) + (q.x - cb.x) == ca.x - cb.x
    ensures ca.y - p.y + (p.y - q.y) + (q.y - cb.y) == ca.y - cb.y && ra + m + rb == ra + rb + m
  {
  }

  lemma CirclesAreFar(p: Point, ca: Point, ra: real, q: Point, cb: Point, rb: real, m: real)
    requires ra >= 0.0 && rb >= 0.0 && m >= 0.0
    requires Len2(p.x - ca.x, p.y - ca.y) <= Times(ra, ra) && Len2(q.x - cb.x, q.y - cb.y) <= Times(rb, rb)
    requires Len2(ca.x - cb.x, ca.y - cb.y) > Times(ra + rb + m, ra + rb + m)
    ensures Far(p, q, m)
  {
    FarIs(q, p, m);
    FarSwaps(p, q, m);
    if Len2(p.x - q.x, p.y - q.y) < Times(m, m) {
      LenSwaps(p, ca);
      hide Len2, Times, Far;
      Triangle(ca.x - p.x, ca.y - p.y, p.x - q.x, p.y - q.y, q.x - cb.x, q.y - cb.y, ra, m, rb);
      SumsUp(ca, p, q, cb, ra, m, rb);
    }
  }

  // ---------------------------------------------------------------- placed footprints

  /** A footprint as it is built: convex, and a rectangle has every corner within its radius. The polygon
      of an omnidirectional vehicle is drawn around the disc of its radius. */
  ghost predicate Solid(shape: Shape) {
    && WellFormed(shape) && shape.radius >= 0.0 && Convex(shape.corners)
    && (shape.rect ==> forall k :: 0 <= k < |shape.corners| ==>
          Len2(shape.corners[k].x, shape.corners[k].y) <= shape.radius * shape.radius)
  }

  /** The points a placed body covers: its rectangle, or the disc inside its polygon. */
  ghost predicate Covers(shape: Shape, q: Sample, p: Point) {
    InHull(p, Placed(shape, q)) && (shape.rect || Len2(p.x - q.x, p.y - q.y) <= shape.radius * shape.radius)
  }

  /** Any two points the two bodies cover are at least m apart. */
  ghost predicate BodiesFar(a: Shape, qa: Sample, b: Shape, qb: Sample, m: real) {
    forall p: Point, q: Point :: Covers(a, qa, p) && Covers(b, qb, q) ==> Far(p, q, m)
  }

  predicate UnitVector(x: real, y: real) { x * x + y * y == 1.0 }

  predicate UnitHeading(q: Sample) { UnitVector(q.hx, q.hy) }

  function RotX(q: Sample, x: real, y: real): real { q.hx * x - q.hy * y }

  function RotY(q: Sample, x: real, y: real): real { q.hy * x + q.hx * y }

  lemma Rotated(q: Sample, ax: real, ay: real, cx: real, cy: real)
    requires UnitHeading(q)
    ensures Cross(RotX(q, ax, ay), RotY(q, ax, ay), RotX(q, cx, cy), RotY(q, cx, cy)) == Cross(ax, ay, cx, cy)
    ensures Len2(RotX(q, ax, ay), RotY(q, ax, ay)) == Len2(ax, ay)
  {
    assert Len2(q.hx, q.hy) == 1.0;
    hide Len2, Cross, RotX, RotY, UnitHeading, Times;
    CrossTurned(q, ax, ay, cx, cy);
    LenTurned(q, ax, ay);
    OneTimes(Cross(ax, ay, cx, cy));
    OneTimes(Len2(ax, ay));
  }

  lemma CrossTurned(q: Sample, ax: real, ay: real, cx: real, cy: real)
    ensures Cross(RotX(q, ax, ay), RotY(q, ax, ay), RotX(q, cx, cy), RotY(q, cx, cy))
         == Times(Len2(q.hx, q.hy), Cross(ax, ay, cx, cy))
  {
    TurnedProduct(q.hx, q.hy, ax, ay, cx, cy);
    TurnedProduct(q.hx, q.hy, cx, cy, ax, ay);
  }

  lemma LenTurned(q: Sample, ax: real, ay: real)
    ensures Len2(RotX(q, ax, ay), RotY(q, ax, ay)) == Times(Len2(q.hx, q.hy), Len2(ax, ay))
  {
  }

  lemma TurnedProduct(hx: real, hy: real, ax: real, ay: real, cx: real, cy: real)
    ensures (hx * ax - hy * ay) * (hy * cx + hx * cy)
         == hx * hy * (ax * cx - ay * cy) + hx * hx * (ax * cy) - hy * hy * (ay * cx)
  {
  }

  /** How a placed corner lies from another, and from the origin. */
  lemma Turned(shape: Shape, q: Sample, k: nat, e: nat)
    requires shape.rect && e < |shape.corners| && k < |shape.corners|
    ensures var vs, c := Placed(shape, q), shape.corners;
            && vs[k].x - vs[e].x == RotX(q, c[k].x - c[e].x, c[k].y - c[e].y)
            && vs[k].y - vs[e].y == RotY(q, c[k].x - c[e].x, c[k].y - c[e].y)
            && vs[k].x - q.x == RotX(q, c[k].x, c[k].y) && vs[k].y - q.y == RotY(q, c[k].x, c[k].y)
  {
    var vs := Placed(shape, q);
    assert vs[k] == PlaceCorner(shape, k, q.x, q.y, q.hx, q.hy);
    assert vs[e] == PlaceCorner(shape, e, q.x, q.y, q.hx, q.hy);
  }

  lemma Unturned(shape: Shape, q: Sample, k: nat, e: nat)
    requires !shape.rect && e < |shape.corners| && k < |shape.corners|
    ensures var vs, c := Placed(shape, q), shape.corners;
            && vs[k].x - vs[e].x == c[k].x - c[e].x && vs[k].y - vs[e].y == c[k].y - c[e].y
            && vs[k].x - q.x == c[k].x && vs[k].y - q.y == c[k].y
  {
    var vs := Placed(shape, q);
    assert vs[k] == PlaceCorner(shape, k, q.x, q.y, q.hx, q.hy);
    assert vs[e] == PlaceCorner(shape, e, q.x, q.y, q.hx, q.hy);
  }

  /** Placing a footprint neither turns its corners over nor moves them from their origin. */
  lemma PlacedSame(shape: Shape, q: Sample, e: nat, k: nat)
    requires UnitHeading(q) && e < |shape.corners| && k < |shape.corners|
    ensures Left(Placed(shape, q), e, Placed(shape, q)[k]) == Left(shape.corners, e, shape.corners[k])
    ensures Len2(Placed(shape, q)[k].x - q.x, Placed(shape, q)[k].y - q.y)
         == Len2(shape.corners[k].x, shape.corners[k].y)
  {
    if shape.rect { TurnedSame(shape, q, e, k); } else {
      Unturned(shape, q, Next(e, |shape.corners|), e);
      Unturned(shape, q, k, e);
      hide Cross, Len2, Place, UnitHeading;
    }
  }

  lemma TurnedSame(shape: Shape, q: Sample, e: nat, k: nat)
    requires shape.rect && UnitHeading(q) && e < |shape.corners| && k < |shape.corners|
    ensures Left(Placed(shape, q), e, Placed(shape, q)[k]) == Left(shape.corners, e, shape.corners[k])
    ensures Len2(Placed(shape, q)[k].x - q.x, Placed(shape, q)[k].y - q.y)
         == Len2(shape.corners[k].x, shape.corners[k].y)
  {
    hide Cross, Len2, Place, UnitHeading, RotX, RotY;
    var c := shape.corners;
    var f := Next(e, |c|);
    Rotated(q, c[f].x - c[e].x, c[f].y - c[e].y, c[k].x - c[e].x, c[k].y - c[e].y);
    Rotated(q, c[k].x, c[k].y, 0.0, 0.0);
    Turned(shape, q, f, e);
    Turned(shape, q, k, e);
  }

  lemma PlacedIsSolid(shape: Shape, q: Sample)
    requires Solid(shape) && UnitHeading(q)
    ensures Convex(Placed(shape, q))
    ensures shape.rect ==> InCircle(Placed(shape, q), Point(q.x, q.y), shape.radius)
  {
    hide Left, Len2, UnitHeading, Place;
    var vs := Placed(shape, q);
    forall e, k | 0 <= e < |vs| && 0 <= k < |vs|
      ensures Left(vs, e, vs[k]) == Left(shape.corners, e, shape.corners[k])
    {
      PlacedSame(shape, q, e, k);
    }
    forall k | 0 <= k < |vs| && shape.rect
      ensures Len2(vs[k].x - q.x, vs[k].y - q.y) <= shape.radius * shape.radius
    {
      PlacedSame(shape, q, k, k);
    }
    if TurnsBy(shape.corners, 1.0) { assert TurnsBy(vs, 1.0); } else { assert TurnsBy(vs, -1.0); }
  }

  ghost predicate InCircle(vs: seq<Point>, c: Point, r: real) {
    forall k :: 0 <= k < |vs| ==> Len2(vs[k].x - c.x, vs[k].y - c.y) <= r * r
  }

  lemma BoxHolds(shape: Shape, q: Sample)
    requires Boxed(shape, q)
    ensures forall k :: 0 <= k < |Placed(shape, q)| ==> InBox(Placed(shape, q)[k], q.box)
  {
  }

  lemma HullsFar(a: Shape, qa: Sample, b: Shape, qb: Sample, m: real)
    requires FarApart(Placed(a, qa), Placed(b, qb), m)
    ensures BodiesFar(a, qa, b, qb, m)
  {
    hide InHull, Far, Place;
  }

  /** Two placed bodies that are clear by m are at least m apart, everywhere. */
  lemma ClearIsFar(a: Shape, qa: Sample, b: Shape, qb: Sample, m: real)
    requires SampleClear(a, qa, b, qb, m) && m >= 0.0 && Boxed(a, qa) && Boxed(b, qb)
    requires Solid(a) && Solid(b) && UnitHeading(qa) && UnitHeading(qb)
    ensures BodiesFar(a, qa, b, qb, m)
  {
    hide Convex, Place, ExactClear, BoxOf, UnitHeading, InCircle, FarApart, FarByRadius, Separated, BodiesFar;
    if FarByRadius(a, qa, b, qb, m) {
      RadiiAreFar(a, qa, b, qb, m);
    } else {
      HullsClearIsFar(a, qa, b, qb, m);
      HullsFar(a, qa, b, qb, m);
    }
  }

  /** Where the radii do not decide, the whole hulls are m apart. */
  lemma HullsClearIsFar(a: Shape, qa: Sample, b: Shape, qb: Sample, m: real)
    requires SampleClear(a, qa, b, qb, m) && !FarByRadius(a, qa, b, qb, m) && m >= 0.0
    requires Boxed(a, qa) && Boxed(b, qb) && Solid(a) && Solid(b) && UnitHeading(qa) && UnitHeading(qb)
    ensures FarApart(Placed(a, qa), Placed(b, qb), m)
  {
    var va, vb := Placed(a, qa), Placed(b, qb);
    PlacedIsSolid(a, qa);
    PlacedIsSolid(b, qb);
    hide Convex, Place, ExactClear, BoxOf, UnitHeading, InCircle, FarApart, FarByRadius, Separated;
    if Separated(qa.box, qb.box, m) {
      BoxHolds(a, qa);
      BoxHolds(b, qb);
      BoxesAreFar(va, qa.box, vb, qb.box, m);
    } else {
      ExactClearIsFar(va, a.rect, vb, b.rect, m);
    }
  }

  lemma InCircleHull(p: Point, vs: seq<Point>, c: Point, r: real)
    requires InHull(p, vs) && InCircle(vs, c, r)
    ensures Len2(p.x - c.x, p.y - c.y) <= Times(r, r)
  {
    HullInCircle(p, vs, c, r);
  }

  lemma CoveredIsNear(shape: Shape, q: Sample, p: Point)
    requires Solid(shape) && UnitHeading(q) && Covers(shape, q, p)
    ensures Len2(p.x - q.x, p.y - q.y) <= Times(shape.radius, shape.radius)
  {
    PlacedIsSolid(shape, q);
    hide InHull, Place, Convex, UnitHeading, InCircle, Len2;
    if shape.rect { InCircleHull(p, Placed(shape, q), Point(q.x, q.y), shape.radius); }
  }

  lemma RadiiAreFar(a: Shape, qa: Sample, b: Shape, qb: Sample, m: real)
    requires FarByRadius(a, qa, b, qb, m) && m >= 0.0
    requires Solid(a) && Solid(b) && UnitHeading(qa) && UnitHeading(qb)
    ensures BodiesFar(a, qa, b, qb, m)
  {
    var ca, cb := Point(qa.x, qa.y), Point(qb.x, qb.y);
    hide Covers, Far, Place, Len2, Dist2, Times, UnitHeading, Convex;
    FarCentres(qa, qb, a.radius + b.radius + m);
    forall p: Point, q: Point | Covers(a, qa, p) && Covers(b, qb, q) ensures Far(p, q, m) {
      CoveredIsNear(a, qa, p);
      CoveredIsNear(b, qb, q);
      CirclesAreFar(p, ca, a.radius, q, cb, b.radius, m);
    }
  }

  lemma FarCentres(qa: Sample, qb: Sample, r: real)
    requires r < 0.0 || Dist2(qa.x, qa.y, qb.x, qb.y) > r * r
    requires r >= 0.0
    ensures Len2(qa.x - qb.x, qa.y - qb.y) > Times(r, r)
  {
  }
}
