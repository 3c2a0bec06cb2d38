/** Escape certificates hold in continuous time. A step of a sweep is a translation with a fixed
    heading or a turn in place about the pivot; if the samples and the one critical heading pass the
    test, so does every placement in between, in the world frame and in the body frame. */
module EscapeMotion {
  import opened ResetProtocol
  import opened Geometry
  import opened Bodies
  import opened Escape
  import opened Sweep

  const SLACK: real := 0.000000000002

  predicate Unit(x: real, y: real) { x * x + y * y == 1.0 }

  // ---------------------------------------------------------------- plane vectors

  lemma Square(x: real)
    ensures x * x >= 0.0
  {
  }

  lemma Product(x: real, y: real)
    ensures x >= 0.0 && y >= 0.0 ==> x * y >= 0.0
    ensures x > 0.0 && y > 0.0 ==> x * y > 0.0
    ensures x >= 0.0 && y <= 0.0 ==> x * y <= 0.0
  {
  }

  lemma DotAtMostOne(ax: real, ay: real, cx: real, cy: real)
    requires Unit(ax, ay) && Unit(cx, cy)
    ensures ax * cx + ay * cy <= 1.0
  {
    var d, e := ax - cx, ay - cy;
    Square(d);
    Square(e);
    assert d * d + e * e == (ax * ax + ay * ay) + (cx * cx + cy * cy) - 2.0 * (ax * cx + ay * cy);
  }

  /** (a.c)^2 <= |a|^2 |c|^2. */
  lemma CauchySchwarz(ax: real, ay: real, cx: real, cy: real)
    ensures (ax * cx + ay * cy) * (ax * cx + ay * cy) <= (ax * ax + ay * ay) * (cx * cx + cy * cy)
  {
    var w := Cross(ax, ay, cx, cy);
    Square(w);
    assert (ax * ax + ay * ay) * (cx * cx + cy * cy)
        == (ax * cx + ay * cy) * (ax * cx + ay * cy) + w * w;
  }

  lemma BiggerSquare(a: real, b: real)
    requires b >= 0.0 && a > b
    ensures a * a > b * b
  {
    Product(a - b, a + b);
    assert (a - b) * (a + b) == a * a - b * b;
  }

  lemma RootOrder(a: real, b: real)
    requires b >= 0.0 && a * a <= b * b
    ensures -b <= a <= b
  {
    if a > b { BiggerSquare(a, b); }
    if -a > b {
      BiggerSquare(-a, b);
      NegatedSquare(a);
    }
  }

  lemma NegatedSquare(a: real)
    ensures (-a) * (-a) == a * a
  {
  }

  /** The projection on a unit vector is not beyond the length. */
  lemma UnitProjection(a: real, b: real, hx: real, hy: real, d: real)
    requires Unit(hx, hy) && d >= 0.0 && d * d >= a * a + b * b
    ensures -d <= a * hx + b * hy <= d
  {
    var v, m := a * hx + b * hy, a * a + b * b;
    CauchySchwarz(a, b, hx, hy);
    assert v * v <= m * (hx * hx + hy * hy);
    assert hx * hx + hy * hy == 1.0;
    RootOrder(v, d);
  }

  function Mix(x: real, p: real, y: real, q: real): real { x * p + y * q }

  /** u.h in the frame of a unit vector h0. */
  lemma InFrame(h0x: real, h0y: real, hx: real, hy: real, ux: real, uy: real)
    requires Unit(h0x, h0y)
    ensures ux * hx + uy * hy == Mix(ux * h0x + uy * h0y, h0x * hx + h0y * hy,
                                     Cross(h0x, h0y, ux, uy), Cross(h0x, h0y, hx, hy))
  {
    assert (ux * h0x + uy * h0y) * (h0x * hx + h0y * hy)
           + Cross(h0x, h0y, ux, uy) * Cross(h0x, h0y, hx, hy)
        == (ux * hx + uy * hy) * (h0x * h0x + h0y * h0y);
  }

  /** A vector that does not lie on the arc's own side of h0 points less along h than along h0. */
  lemma EndIsBetter(h0x: real, h0y: real, hx: real, hy: real, ux: real, uy: real)
    requires Unit(h0x, h0y) && Unit(hx, hy)
    requires ux * h0x + uy * h0y >= 0.0
    requires Cross(h0x, h0y, ux, uy) * Cross(h0x, h0y, hx, hy) <= 0.0
    ensures ux * hx + uy * hy <= ux * h0x + uy * h0y
  {
    hide Cross, Mix;
    InFrame(h0x, h0y, hx, hy, ux, uy);
    DotAtMostOne(h0x, h0y, hx, hy);
    MixBelow(ux * h0x + uy * h0y, h0x * hx + h0y * hy, Cross(h0x, h0y, ux, uy), Cross(h0x, h0y, hx, hy));
  }

  lemma MixBelow(x: real, p: real, y: real, q: real)
    requires x >= 0.0 && p <= 1.0 && y * q <= 0.0
    ensures Mix(x, p, y, q) <= x
  {
    Product(x, 1.0 - p);
    assert x * (1.0 - p) == x - x * p;
  }

  // ---------------------------------------------------------------- the arc

  /** A proper arc, turned to the left: less than half a turn and not nothing. */
  predicate LeftArc(h0x: real, h0y: real, h1x: real, h1y: real, hx: real, hy: real) {
    && Unit(h0x, h0y) && Unit(h1x, h1y) && Unit(hx, hy) && Cross(h0x, h0y, h1x, h1y) > 0.0
    && Cross(h0x, h0y, hx, hy) >= 0.0 && Cross(hx, hy, h1x, h1y) >= 0.0
  }

  /** sin a + sin b >= sin (a + b) on the arc. */
  lemma SinesAdd(h0x: real, h0y: real, h1x: real, h1y: real, hx: real, hy: real)
    requires LeftArc(h0x, h0y, h1x, h1y, hx, hy)
    ensures Cross(hx, hy, h1x, h1y) + Cross(h0x, h0y, hx, hy) >= Cross(h0x, h0y, h1x, h1y)
  {
    hide Cross, Mix;
    var a, b := Cross(h0x, h0y, hx, hy), Cross(hx, hy, h1x, h1y);
    var p, q := h0x * hx + h0y * hy, hx * h1x + hy * h1y;
    DotAtMostOne(h0x, h0y, hx, hy);
    DotAtMostOne(hx, hy, h1x, h1y);
    SineOfSum(h0x, h0y, h1x, h1y, hx, hy);
    SumOfShares(a, b, p, q);
  }

  lemma SumOfShares(a: real, b: real, p: real, q: real)
    requires a >= 0.0 && b >= 0.0 && p <= 1.0 && q <= 1.0
    ensures Mix(a, q, p, b) <= a + b
  {
    Product(a, 1.0 - q);
    Product(b, 1.0 - p);
    assert a * (1.0 - q) + b * (1.0 - p) == a + b - (a * q + p * b);
  }

  /** sin (a + b) = sin a cos b + cos a sin b. */
  lemma SineOfSum(h0x: real, h0y: real, h1x: real, h1y: real, hx: real, hy: real)
    requires Unit(hx, hy)
    ensures Cross(h0x, h0y, h1x, h1y)
         == Mix(Cross(h0x, h0y, hx, hy), hx * h1x + hy * h1y, h0x * hx + h0y * hy,
                Cross(hx, hy, h1x, h1y))
  {
    assert Cross(h0x, h0y, hx, hy) * (hx * h1x + hy * h1y)
           + (h0x * hx + h0y * hy) * Cross(hx, hy, h1x, h1y)
        == Cross(h0x, h0y, h1x, h1y) * (hx * hx + hy * hy);
  }

  /** Both ends at least d along a: so is everything between, if d is not negative. */
  lemma BetweenEnds(h0x: real, h0y: real, h1x: real, h1y: real, hx: real, hy: real, ax: real,
                    ay: real, d: real)
    requires LeftArc(h0x, h0y, h1x, h1y, hx, hy) && d >= 0.0
    requires ax * h0x + ay * h0y >= d && ax * h1x + ay * h1y >= d
    ensures ax * hx + ay * hy >= d
  {
    var c := Cross(h0x, h0y, h1x, h1y);
    var s, t := Cross(hx, hy, h1x, h1y), Cross(h0x, h0y, hx, hy);
    var a0, a1, a := ax * h0x + ay * h0y, ax * h1x + ay * h1y, ax * hx + ay * hy;
    assert c * a == s * a0 + t * a1;
    SinesAdd(h0x, h0y, h1x, h1y, hx, hy);
    ScaledBound(c, s, t, a0, a1, a, d);
  }

  /** Both ends point backward along u: so does everything between. */
  lemma BothBackward(h0x: real, h0y: real, h1x: real, h1y: real, hx: real, hy: real, ux: real, uy: real)
    requires LeftArc(h0x, h0y, h1x, h1y, hx, hy)
    requires ux * h0x + uy * h0y <= 0.0 && ux * h1x + uy * h1y <= 0.0
    ensures ux * hx + uy * hy <= 0.0
  {
    var c := Cross(h0x, h0y, h1x, h1y);
    var s, t := Cross(hx, hy, h1x, h1y), Cross(h0x, h0y, hx, hy);
    var x0, x1, x := ux * h0x + uy * h0y, ux * h1x + uy * h1y, ux * hx + uy * hy;
    assert c * x == s * x0 + t * x1;
    Product(s, x0);
    Product(t, x1);
    if x > 0.0 { Product(c, x); }
  }

  lemma ScaledBound(c: real, s: real, t: real, a0: real, a1: real, a: real, d: real)
    requires c > 0.0 && s >= 0.0 && t >= 0.0 && s + t >= c && d >= 0.0 && a0 >= d && a1 >= d
    requires c * a == s * a0 + t * a1
    ensures a >= d
  {
    Product(s, a0 - d);
    Product(t, a1 - d);
    Product(s + t - c, d);
    assert s * (a0 - d) == s * a0 - s * d && t * (a1 - d) == t * a1 - t * d;
    assert (s + t - c) * d == s * d + t * d - c * d;
    assert c * (d - a) == c * d - c * a;
    if a < d { Product(c, d - a); }
  }

  /** The direction in which a sinusoid is least, if it is not on the arc, cannot beat the ends. */
  lemma OutsideArc(h0x: real, h0y: real, h1x: real, h1y: real, hx: real, hy: real, ux: real,
                   uy: real, d: real)
    requires LeftArc(h0x, h0y, h1x, h1y, hx, hy) && d > 0.0
    requires !(Cross(h0x, h0y, ux, uy) >= 0.0 && Cross(ux, uy, h1x, h1y) >= 0.0)
    requires ux * h0x + uy * h0y <= d && ux * h1x + uy * h1y <= d
    ensures ux * hx + uy * hy <= d
  {
    var x0, x1 := ux * h0x + uy * h0y, ux * h1x + uy * h1y;
    if x0 <= 0.0 && x1 <= 0.0 {
      BothBackward(h0x, h0y, h1x, h1y, hx, hy, ux, uy);
    } else if Cross(h0x, h0y, ux, uy) < 0.0 && x0 >= 0.0 {
      var w, t := Cross(h0x, h0y, ux, uy), Cross(h0x, h0y, hx, hy);
      assert w * t <= 0.0;
      EndIsBetter(h0x, h0y, hx, hy, ux, uy);
    } else if Cross(ux, uy, h1x, h1y) < 0.0 && x1 >= 0.0 {
      FromTheOtherEnd(h1x, h1y, hx, hy, ux, uy);
    } else {
      NoThirdWay(h0x, h0y, h1x, h1y, ux, uy);
    }
  }

  lemma FromTheOtherEnd(h1x: real, h1y: real, hx: real, hy: real, ux: real, uy: real)
    requires Unit(h1x, h1y) && Unit(hx, hy) && ux * h1x + uy * h1y >= 0.0
    requires Cross(ux, uy, h1x, h1y) < 0.0 && Cross(hx, hy, h1x, h1y) >= 0.0
    ensures ux * hx + uy * hy <= ux * h1x + uy * h1y
  {
    var w, t := Cross(h1x, h1y, ux, uy), Cross(h1x, h1y, hx, hy);
    assert w == -Cross(ux, uy, h1x, h1y) && t == -Cross(hx, hy, h1x, h1y);
    assert w * t <= 0.0;
    EndIsBetter(h1x, h1y, hx, hy, ux, uy);
  }

  /** One end points forward and the vector is beyond the other end, which points backward: that
      cannot be, for an arc of less than half a turn. */
  lemma NoThirdWay(h0x: real, h0y: real, h1x: real, h1y: real, ux: real, uy: real)
    requires Unit(h0x, h0y) && Unit(h1x, h1y) && Cross(h0x, h0y, h1x, h1y) > 0.0
    ensures !(ux * h0x + uy * h0y > 0.0 && Cross(h0x, h0y, ux, uy) >= 0.0
              && ux * h1x + uy * h1y < 0.0 && Cross(ux, uy, h1x, h1y) < 0.0)
    ensures !(ux * h1x + uy * h1y > 0.0 && Cross(ux, uy, h1x, h1y) >= 0.0
              && ux * h0x + uy * h0y < 0.0 && Cross(h0x, h0y, ux, uy) < 0.0)
  {
    var x, z := ux * h0x + uy * h0y, Cross(h0x, h0y, ux, uy);
    var p, q := h0x * h1x + h0y * h1y, Cross(h0x, h0y, h1x, h1y);
    InFrame(h0x, h0y, h1x, h1y, ux, uy);
    CrossInFrame(h0x, h0y, h1x, h1y, ux, uy);
    SignsClash(x, z, p, q);
    var x', z' := ux * h1x + uy * h1y, Cross(ux, uy, h1x, h1y);
    InFrame(h1x, h1y, h0x, h0y, ux, uy);
    CrossInFrame(h1x, h1y, h0x, h0y, ux, uy);
    SignsClash(x', z', p, q);
  }

  /** u x h1 in the frame of h0. */
  lemma CrossInFrame(h0x: real, h0y: real, h1x: real, h1y: real, ux: real, uy: real)
    requires Unit(h0x, h0y)
    ensures Cross(ux, uy, h1x, h1y)
         == (ux * h0x + uy * h0y) * Cross(h0x, h0y, h1x, h1y)
            - Cross(h0x, h0y, ux, uy) * (h0x * h1x + h0y * h1y)
  {
    assert (ux * h0x + uy * h0y) * Cross(h0x, h0y, h1x, h1y)
           - Cross(h0x, h0y, ux, uy) * (h0x * h1x + h0y * h1y)
        == Cross(ux, uy, h1x, h1y) * (h0x * h0x + h0y * h0y);
  }

  lemma SignsClash(x: real, z: real, p: real, q: real)
    requires q > 0.0
    ensures !(x > 0.0 && z >= 0.0 && x * p + z * q < 0.0 && x * q - z * p < 0.0)
  {
    if x > 0.0 && z >= 0.0 && x * p + z * q < 0.0 {
      assert z * q >= 0.0;
      assert p < 0.0;
      assert z * p <= 0.0 && x * q > 0.0;
    }
  }

  /** A sinusoid c + a cos + b sin over a left arc: the ends and the critical heading decide. */
  lemma LeftArcDecides(prev: Sample, q: Sample, hx: real, hy: real, a: real, b: real, c: real,
                       floor: real)
    requires LeftArc(prev.hx, prev.hy, q.hx, q.hy, hx, hy)
    requires c + a * prev.hx + b * prev.hy >= floor && c + a * q.hx + b * q.hy >= floor
    requires InteriorClear(a, b, c, floor, prev, q)
    ensures c + a * hx + b * hy >= floor
  {
    var d := c - floor;
    if d <= 0.0 {
      BetweenEnds(prev.hx, prev.hy, q.hx, q.hy, hx, hy, a, b, -d);
    } else if OnArc(prev.hx, prev.hy, q.hx, q.hy, -a, -b) {
      UnitProjection(a, b, hx, hy, d);
    } else {
      OutsideArc(prev.hx, prev.hy, q.hx, q.hy, hx, hy, -a, -b, d);
    }
  }

  // ---------------------------------------------------------------- either way round

  /** A turn by less than half a turn, to either side, and a heading passed on the way. */
  predicate PassedHeading(prev: Sample, q: Sample, hx: real, hy: real) {
    && Unit(prev.hx, prev.hy) && Unit(q.hx, q.hy) && Unit(hx, hy)
    && Cross(prev.hx, prev.hy, q.hx, q.hy) != 0.0
    && OnArc(prev.hx, prev.hy, q.hx, q.hy, hx, hy)
  }

  function Mirror(q: Sample): Sample { q.(hy := -q.hy) }

  lemma MirrorArc(prev: Sample, q: Sample, ux: real, uy: real)
    requires Cross(prev.hx, prev.hy, q.hx, q.hy) < 0.0
    ensures OnArc(prev.hx, prev.hy, q.hx, q.hy, ux, uy)
         == OnArc(Mirror(prev).hx, Mirror(prev).hy, Mirror(q).hx, Mirror(q).hy, ux, -uy)
  {
    assert Cross(prev.hx, -prev.hy, q.hx, -q.hy) == -Cross(prev.hx, prev.hy, q.hx, q.hy);
    assert Cross(prev.hx, -prev.hy, ux, -uy) == -Cross(prev.hx, prev.hy, ux, uy);
    assert Cross(ux, -uy, q.hx, -q.hy) == -Cross(ux, uy, q.hx, q.hy);
  }

  lemma ArcDecides(prev: Sample, q: Sample, hx: real, hy: real, a: real, b: real, c: real, floor: real)
    requires PassedHeading(prev, q, hx, hy)
    requires c + a * prev.hx + b * prev.hy >= floor && c + a * q.hx + b * q.hy >= floor
    requires InteriorClear(a, b, c, floor, prev, q)
    ensures c + a * hx + b * hy >= floor
  {
    if Cross(prev.hx, prev.hy, q.hx, q.hy) > 0.0 {
      LeftArcDecides(prev, q, hx, hy, a, b, c, floor);
    } else {
      MirrorArc(prev, q, hx, hy);
      MirrorArc(prev, q, -a, -b);
      assert Cross(prev.hx, -prev.hy, q.hx, -q.hy) == -Cross(prev.hx, prev.hy, q.hx, q.hy);
      LeftArcDecides(Mirror(prev), Mirror(q), hx, -hy, a, -b, c, floor);
    }
  }

  /** Two headings are never further apart than the diameter of the circle. */
  lemma HeadingsAreClose(h0x: real, h0y: real, hx: real, hy: real)
    requires Unit(h0x, h0y) && Unit(hx, hy)
    ensures (hx - h0x) * (hx - h0x) + (hy - h0y) * (hy - h0y) <= 4.0
  {
    DotAtMostOne(-h0x, -h0y, hx, hy);
    assert (hx - h0x) * (hx - h0x) + (hy - h0y) * (hy - h0y)
        == (hx * hx + hy * hy) + (h0x * h0x + h0y * h0y) - 2.0 * (h0x * hx + h0y * hy);
    assert (-h0x) * hx + (-h0y) * hy == -(h0x * hx + h0y * hy);
  }

  lemma TinyProduct(m: real, n: real)
    requires 0.0 <= m < 0.000000000000000000000001 && 0.0 <= n <= 4.0
    ensures m * n <= SLACK * SLACK
  {
    Product(m, 4.0 - n);
    assert m * (4.0 - n) == 4.0 * m - m * n;
  }

  lemma TinyShift(a: real, b: real, dx: real, dy: real)
    requires Tiny(a, b) && dx * dx + dy * dy <= 4.0
    ensures a * dx + b * dy >= -SLACK
  {
    CauchySchwarz(a, b, dx, dy);
    Square(a);
    Square(b);
    Square(dx);
    Square(dy);
    TinyProduct(a * a + b * b, dx * dx + dy * dy);
    RootOrder(a * dx + b * dy, SLACK);
  }

  /** A corner at the pivot hardly moves. */
  lemma TinyDecides(prev: Sample, hx: real, hy: real, a: real, b: real, c: real, floor: real)
    requires Unit(prev.hx, prev.hy) && Unit(hx, hy) && Tiny(a, b)
    requires c + a * prev.hx + b * prev.hy >= floor
    ensures c + a * hx + b * hy >= floor - SLACK
  {
    hide Tiny;
    HeadingsAreClose(prev.hx, prev.hy, hx, hy);
    TinyShift(a, b, hx - prev.hx, hy - prev.hy);
    Difference(a, b, hx, hy, prev.hx, prev.hy);
  }

  lemma Difference(a: real, b: real, hx: real, hy: real, px: real, py: real)
    ensures a * (hx - px) + b * (hy - py) == (a * hx + b * hy) - (a * px + b * py)
  {
  }

  // ---------------------------------------------------------------- placements between samples

  datatype Placement = Placement(x: real, y: real, hx: real, hy: real)

  function At(q: Sample): Placement { Placement(q.x, q.y, q.hx, q.hy) }

  /** The body origin while the vehicle turns about its pivot. */
  function Turned(pivot: Point, ell: real, hx: real, hy: real): Placement {
    Placement(pivot.x - ell * hx, pivot.y - ell * hy, hx, hy)
  }

  function Moved(prev: Sample, q: Sample, t: real): Placement {
    Placement(prev.x + t * (q.x - prev.x), prev.y + t * (q.y - prev.y), q.hx, q.hy)
  }

  /** A step between consecutive samples is one primitive of the route. */
  predicate Primitive(sweep: SampleSet, i: nat)
    requires 0 < i < |sweep.pts|
  {
    var prev, q := sweep.pts[i - 1], sweep.pts[i];
    && Unit(prev.hx, prev.hy) && Unit(q.hx, q.hy)
    && if q.s != prev.s || (q.hx == prev.hx && q.hy == prev.hy)
       then q.hx == prev.hx && q.hy == prev.hy
       else Pivot(q, sweep.ell) == Pivot(prev, sweep.ell)
            && Cross(prev.hx, prev.hy, q.hx, q.hy) != 0.0
  }

  predicate IsMove(sweep: SampleSet, i: nat)
    requires 0 < i < |sweep.pts|
  {
    sweep.pts[i].hx == sweep.pts[i - 1].hx && sweep.pts[i].hy == sweep.pts[i - 1].hy
  }

  /** Every placement the vehicle passes in step i, in continuous time. */
  ghost predicate Passed(sweep: SampleSet, i: nat, p: Placement)
    requires i < |sweep.pts|
  {
    if i == 0 then p == At(sweep.pts[0])
    else
      var prev, q := sweep.pts[i - 1], sweep.pts[i];
      if IsMove(sweep, i) then exists t: real :: 0.0 <= t <= 1.0 && p == Moved(prev, q, t)
      else PassedHeading(prev, q, p.hx, p.hy) && p == Turned(Pivot(q, sweep.ell), sweep.ell, p.hx, p.hy)
  }

  ghost predicate Keeps(shape: Shape, cert: EscapeCert, p: Placement, floor: real) {
    forall k: nat :: k < Corners(shape, cert) ==> Projection(shape, cert, k, p.x, p.y, p.hx, p.hy) >= floor
  }

  lemma BodyMoveIsAffine(shape: Shape, cert: EscapeCert, k: nat, prev: Sample, q: Sample, t: real)
    requires k < Corners(shape, cert) && prev.hx == q.hx && prev.hy == q.hy && cert.bodyFixed
    ensures var m := Moved(prev, q, t);
            Projection(shape, cert, k, m.x, m.y, m.hx, m.hy)
            == (1.0 - t) * Projection(shape, cert, k, prev.x, prev.y, prev.hx, prev.hy)
               + t * Projection(shape, cert, k, q.x, q.y, q.hx, q.hy)
  {
    BodyAffine(cert.nx, cert.ny, cert.peerVerts[k].x, cert.peerVerts[k].y, prev.x, prev.y, q.x, q.y,
               q.hx, q.hy, t);
  }

  lemma WorldMoveIsAffine(shape: Shape, cert: EscapeCert, k: nat, prev: Sample, q: Sample, t: real)
    requires k < Corners(shape, cert) && prev.hx == q.hx && prev.hy == q.hy && !cert.bodyFixed
    ensures var m := Moved(prev, q, t);
            Projection(shape, cert, k, m.x, m.y, m.hx, m.hy)
            == (1.0 - t) * Projection(shape, cert, k, prev.x, prev.y, prev.hx, prev.hy)
               + t * Projection(shape, cert, k, q.x, q.y, q.hx, q.hy)
  {
    var c := PlaceCorner(shape, k, 0.0, 0.0, q.hx, q.hy);
    CornerShifts(shape, k, prev.x, prev.y, q.hx, q.hy);
    CornerShifts(shape, k, q.x, q.y, q.hx, q.hy);
    CornerShifts(shape, k, prev.x + t * (q.x - prev.x), prev.y + t * (q.y - prev.y), q.hx, q.hy);
    hide PlaceCorner;
    WorldAffine(cert.nx, cert.ny, c.x, c.y, prev.x, prev.y, q.x, q.y, t);
  }

  /** A projection is affine in the position. */
  lemma MoveIsAffine(shape: Shape, cert: EscapeCert, k: nat, prev: Sample, q: Sample, t: real)
    requires k < Corners(shape, cert) && prev.hx == q.hx && prev.hy == q.hy
    ensures var m := Moved(prev, q, t);
            Projection(shape, cert, k, m.x, m.y, m.hx, m.hy)
            == (1.0 - t) * Projection(shape, cert, k, prev.x, prev.y, prev.hx, prev.hy)
               + t * Projection(shape, cert, k, q.x, q.y, q.hx, q.hy)
  {
    if cert.bodyFixed { BodyMoveIsAffine(shape, cert, k, prev, q, t); }
    else { WorldMoveIsAffine(shape, cert, k, prev, q, t); }
  }

  lemma CornerShifts(shape: Shape, k: nat, x: real, y: real, hx: real, hy: real)
    requires k < |shape.corners|
    ensures var c := PlaceCorner(shape, k, 0.0, 0.0, hx, hy);
            PlaceCorner(shape, k, x, y, hx, hy) == Point(x + c.x, y + c.y)
  {
  }

  lemma WorldAffine(nx: real, ny: real, cx: real, cy: real, px: real, py: real, qx: real, qy: real, t: real)
    ensures nx * (px + t * (qx - px) + cx) + ny * (py + t * (qy - py) + cy)
         == (1.0 - t) * (nx * (px + cx) + ny * (py + cy)) + t * (nx * (qx + cx) + ny * (qy + cy))
  {
  }

  lemma BodyAffine(nx: real, ny: real, vx: real, vy: real, px: real, py: real, qx: real, qy: real,
                   hx: real, hy: real, t: real)
    ensures var mx, my := px + t * (qx - px), py + t * (qy - py);
            nx * ((vx - mx) * hx + (vy - my) * hy) + ny * (-(vx - mx) * hy + (vy - my) * hx)
            == (1.0 - t) * (nx * ((vx - px) * hx + (vy - py) * hy) + ny * (-(vx - px) * hy + (vy - py) * hx))
               + t * (nx * ((vx - qx) * hx + (vy - qy) * hy) + ny * (-(vx - qx) * hy + (vy - qy) * hx))
  {
    // Linear in the position, with the coefficients a of x and b of y.
    var a, b := nx * hx - ny * hy, nx * hy + ny * hx;
    AsLinear(nx, ny, vx - px, vy - py, hx, hy);
    AsLinear(nx, ny, vx - qx, vy - qy, hx, hy);
    var mx, my := px + t * (qx - px), py + t * (qy - py);
    AsLinear(nx, ny, vx - mx, vy - my, hx, hy);
    Mixed(a, vx, px, qx, t);
    Mixed(b, vy, py, qy, t);
  }

  lemma AsLinear(nx: real, ny: real, dx: real, dy: real, hx: real, hy: real)
    ensures nx * (dx * hx + dy * hy) + ny * (-dx * hy + dy * hx)
         == (nx * hx - ny * hy) * dx + (nx * hy + ny * hx) * dy
  {
  }

  lemma Mixed(a: real, v: real, p: real, q: real, t: real)
    ensures a * (v - (p + t * (q - p))) == (1.0 - t) * (a * (v - p)) + t * (a * (v - q))
  {
  }

  lemma Weighted(x: real, y: real, t: real, floor: real)
    requires 0.0 <= t <= 1.0 && x >= floor && y >= floor
    ensures (1.0 - t) * x + t * y >= floor
  {
    Product(1.0 - t, x - floor);
    Product(t, y - floor);
    assert (1.0 - t) * (x - floor) + t * (y - floor) == (1.0 - t) * x + t * y - floor;
  }

  /** The three coefficients of the turn test, c + a hx + b hy. */
  function Coefficients(shape: Shape, cert: EscapeCert, k: nat, ell: real, pivot: Point): (real, real, real)
    requires k < Corners(shape, cert)
  {
    var (a, b) := if cert.bodyFixed then PeerCoefficients(cert, k, pivot)
                  else SelfCoefficients(shape, k, ell, cert);
    (a, b, if cert.bodyFixed then cert.nx * ell else Dot(cert.nx, cert.ny, pivot))
  }

  /** The coefficients of the turn test are those of the projection as a function of the heading. */
  lemma TurnIsSinusoid(shape: Shape, cert: EscapeCert, k: nat, ell: real, pivot: Point, hx: real, hy: real)
    requires k < Corners(shape, cert) && Unit(hx, hy) && (cert.bodyFixed || shape.rect)
    ensures var (a, b, c) := Coefficients(shape, cert, k, ell, pivot);
            var m := Turned(pivot, ell, hx, hy);
            Projection(shape, cert, k, m.x, m.y, hx, hy) == c + a * hx + b * hy
  {
    if cert.bodyFixed { BodySinusoid(shape, cert, k, ell, pivot, hx, hy); }
    else { WorldSinusoid(shape, cert, k, ell, pivot, hx, hy); }
  }

  lemma BodySinusoid(shape: Shape, cert: EscapeCert, k: nat, ell: real, pivot: Point, hx: real, hy: real)
    requires k < Corners(shape, cert) && Unit(hx, hy) && cert.bodyFixed
    ensures var (a, b, c) := Coefficients(shape, cert, k, ell, pivot);
            var m := Turned(pivot, ell, hx, hy);
            Projection(shape, cert, k, m.x, m.y, hx, hy) == c + a * hx + b * hy
  {
    BodyTurn(cert.nx, cert.ny, cert.peerVerts[k].x - pivot.x, cert.peerVerts[k].y - pivot.y, ell, hx, hy);
    assert cert.peerVerts[k].x - (pivot.x - ell * hx) == (cert.peerVerts[k].x - pivot.x) + ell * hx;
    assert cert.peerVerts[k].y - (pivot.y - ell * hy) == (cert.peerVerts[k].y - pivot.y) + ell * hy;
    hide Unit;
  }

  lemma WorldSinusoid(shape: Shape, cert: EscapeCert, k: nat, ell: real, pivot: Point, hx: real, hy: real)
    requires k < Corners(shape, cert) && !cert.bodyFixed && shape.rect
    ensures var (a, b, c) := Coefficients(shape, cert, k, ell, pivot);
            var m := Turned(pivot, ell, hx, hy);
            Projection(shape, cert, k, m.x, m.y, hx, hy) == c + a * hx + b * hy
  {
    WorldTurn(cert.nx, cert.ny, pivot.x, pivot.y, shape.corners[k].x, shape.corners[k].y, ell, hx, hy);
  }

  lemma WorldTurn(nx: real, ny: real, px: real, py: real, cx: real, cy: real, ell: real, hx: real, hy: real)
    ensures nx * (px - ell * hx + hx * cx - hy * cy) + ny * (py - ell * hy + hy * cx + hx * cy)
         == (nx * px + ny * py) + (nx * (cx - ell) + ny * cy) * hx + (ny * (cx - ell) - nx * cy) * hy
  {
  }

  lemma BodyTurn(nx: real, ny: real, dx: real, dy: real, ell: real, hx: real, hy: real)
    requires Unit(hx, hy)
    ensures nx * ((dx + ell * hx) * hx + (dy + ell * hy) * hy) + ny * (-(dx + ell * hx) * hy + (dy + ell * hy) * hx)
         == nx * ell + (nx * dx + ny * dy) * hx + (nx * dy - ny * dx) * hy
  {
    assert (dx + ell * hx) * hx + (dy + ell * hy) * hy == dx * hx + dy * hy + ell * (hx * hx + hy * hy);
    assert -(dx + ell * hx) * hy + (dy + ell * hy) * hx == -dx * hy + dy * hx;
  }

  // ---------------------------------------------------------------- one step

  lemma MoveKeeps(shape: Shape, cert: EscapeCert, prev: Sample, q: Sample, t: real)
    requires KeepsAt(shape, cert, prev) && KeepsAt(shape, cert, q)
    requires prev.hx == q.hx && prev.hy == q.hy && 0.0 <= t <= 1.0
    ensures Keeps(shape, cert, Moved(prev, q, t), cert.rhs - TOL)
  {
    hide Projection;
    forall k: nat | k < Corners(shape, cert)
      ensures var m := Moved(prev, q, t);
              Projection(shape, cert, k, m.x, m.y, m.hx, m.hy) >= cert.rhs - TOL
    {
      MoveIsAffine(shape, cert, k, prev, q, t);
      Weighted(Projection(shape, cert, k, prev.x, prev.y, prev.hx, prev.hy),
               Projection(shape, cert, k, q.x, q.y, q.hx, q.hy), t, cert.rhs - TOL);
    }
  }

  lemma TurnKeeps(shape: Shape, cert: EscapeCert, ell: real, prev: Sample, q: Sample, hx: real, hy: real)
    requires KeepsAt(shape, cert, prev) && KeepsAt(shape, cert, q) && TurnClear(shape, cert, ell, prev, q)
    requires Pivot(prev, ell) == Pivot(q, ell) && PassedHeading(prev, q, hx, hy)
    requires cert.bodyFixed || shape.rect
    ensures Keeps(shape, cert, Turned(Pivot(q, ell), ell, hx, hy), cert.rhs - TOL - SLACK)
  {
    hide Projection, InteriorClear, PeerCoefficients, SelfCoefficients, OnArc, Tiny;
    var pivot := Pivot(q, ell);
    var m := Turned(pivot, ell, hx, hy);
    forall k: nat | k < Corners(shape, cert)
      ensures Projection(shape, cert, k, m.x, m.y, m.hx, m.hy) >= cert.rhs - TOL - SLACK
    {
      CornerTurnKeeps(shape, cert, k, ell, prev, q, hx, hy);
    }
  }

  lemma SampleIsTurned(q: Sample, ell: real)
    ensures Turned(Pivot(q, ell), ell, q.hx, q.hy) == At(q)
  {
  }

  lemma AtSample(shape: Shape, cert: EscapeCert, k: nat, ell: real, q: Sample)
    requires k < Corners(shape, cert) && Unit(q.hx, q.hy) && (cert.bodyFixed || shape.rect)
    requires KeepsAt(shape, cert, q)
    ensures var (a, b, c) := Coefficients(shape, cert, k, ell, Pivot(q, ell));
            c + a * q.hx + b * q.hy >= cert.rhs - TOL
  {
    TurnIsSinusoid(shape, cert, k, ell, Pivot(q, ell), q.hx, q.hy);
    SampleIsTurned(q, ell);
    hide Projection, Coefficients, Pivot, Turned;
  }

  lemma CornerTurnKeeps(shape: Shape, cert: EscapeCert, k: nat, ell: real, prev: Sample, q: Sample,
                        hx: real, hy: real)
    requires k < Corners(shape, cert) && KeepsAt(shape, cert, prev) && KeepsAt(shape, cert, q)
    requires CornerTurnClear(shape, cert, k, ell, Pivot(q, ell), prev, q)
    requires Pivot(prev, ell) == Pivot(q, ell) && PassedHeading(prev, q, hx, hy)
    requires cert.bodyFixed || shape.rect
    ensures var m := Turned(Pivot(q, ell), ell, hx, hy);
            Projection(shape, cert, k, m.x, m.y, hx, hy) >= cert.rhs - TOL - SLACK
  {
    var pivot, floor := Pivot(q, ell), cert.rhs - TOL;
    var (a, b, c) := Coefficients(shape, cert, k, ell, pivot);
    PassedUnits(prev, q, hx, hy);
    AtSample(shape, cert, k, ell, prev);
    AtSample(shape, cert, k, ell, q);
    TurnIsSinusoid(shape, cert, k, ell, pivot, hx, hy);
    TestedCorner(shape, cert, k, ell, pivot, prev, q);
    hide Projection, InteriorClear, Coefficients, PassedHeading, Tiny, Pivot, Turned, Unit, KeepsAt;
    hide CornerTurnClear;
    if Tiny(a, b) { TinyDecides(prev, hx, hy, a, b, c, floor); }
    else { ArcDecides(prev, q, hx, hy, a, b, c, floor); }
  }

  lemma PassedUnits(prev: Sample, q: Sample, hx: real, hy: real)
    requires PassedHeading(prev, q, hx, hy)
    ensures Unit(prev.hx, prev.hy) && Unit(q.hx, q.hy) && Unit(hx, hy)
  {
  }

  lemma TestedCorner(shape: Shape, cert: EscapeCert, k: nat, ell: real, pivot: Point, prev: Sample, q: Sample)
    requires k < Corners(shape, cert) && CornerTurnClear(shape, cert, k, ell, pivot, prev, q)
    ensures var (a, b, c) := Coefficients(shape, cert, k, ell, pivot);
            Tiny(a, b) || InteriorClear(a, b, c, cert.rhs - TOL, prev, q)
  {
    hide InteriorClear, Tiny, PeerCoefficients, SelfCoefficients;
  }

  // ---------------------------------------------------------------- the whole escape

  /** The steps of a sweep up to index e pass the test. */
  ghost predicate StepsClear(shape: Shape, sweep: SampleSet, e: nat, cert: EscapeCert)
    requires e < |sweep.pts|
  {
    forall i: nat :: i <= e ==> EscapeStepClear(shape, sweep, i, cert)
  }

  /** A footprint that is not turned, about a rotation centre at its origin, against a halfspace of the
      world: its corners stay where they are while the heading changes. */
  predicate Unturned(shape: Shape, cert: EscapeCert, sweep: SampleSet) {
    !cert.bodyFixed && !shape.rect && sweep.ell == 0.0
  }

  lemma UnturnedKeeps(shape: Shape, cert: EscapeCert, sweep: SampleSet, q: Sample, p: Placement)
    requires Unturned(shape, cert, sweep) && KeepsAt(shape, cert, q)
    requires p == Turned(Pivot(q, sweep.ell), sweep.ell, p.hx, p.hy)
    ensures Keeps(shape, cert, p, cert.rhs - TOL)
  {
    assert p.x == q.x && p.y == q.y;
    forall k: nat | k < Corners(shape, cert)
      ensures Projection(shape, cert, k, p.x, p.y, p.hx, p.hy) >= cert.rhs - TOL
    {
      assert Projection(shape, cert, k, p.x, p.y, p.hx, p.hy) == Projection(shape, cert, k, q.x, q.y, q.hx, q.hy);
    }
  }

  /** Continuous-time escape. If every step up to the escape index passes, the halfspace of the
      certificate holds, within its tolerance, at every placement the vehicle passes on the way: at
      every intermediate translation and at every intermediate heading of each turn. */
  lemma EscapeHoldsBetweenSamples(shape: Shape, sweep: SampleSet, e: nat, cert: EscapeCert, i: nat,
                                  p: Placement)
    requires e < |sweep.pts| && i <= e && StepsClear(shape, sweep, e, cert)
    requires || Unturned(shape, cert, sweep)
             || ((cert.bodyFixed || shape.rect) && (i > 0 ==> Primitive(sweep, i)))
    requires Passed(sweep, i, p)
    ensures Keeps(shape, cert, p, cert.rhs - TOL - SLACK)
  {
    hide Projection, TurnClear, PassedHeading;
    var q := sweep.pts[i];
    assert EscapeStepClear(shape, sweep, i, cert);
    if i > 0 {
      var prev := sweep.pts[i - 1];
      assert EscapeStepClear(shape, sweep, i - 1, cert);
      if IsMove(sweep, i) {
        var t: real :| 0.0 <= t <= 1.0 && p == Moved(prev, q, t);
        MoveKeeps(shape, cert, prev, q, t);
      } else if Unturned(shape, cert, sweep) {
        UnturnedKeeps(shape, cert, sweep, q, p);
      } else {
        TurnKeeps(shape, cert, sweep.ell, prev, q, p.hx, p.hy);
      }
    }
  }

  // ---------------------------------------------------------------- what the halfspace is worth

  /** The gap between corner k of the vehicle and corner j of the parked peer, along the normal of the
      certificate: in the world frame, or in the frame of the vehicle. */
  function Gap(shape: Shape, cert: EscapeCert, p: Placement, k: nat, j: nat): real
    requires k < |shape.corners| && j < |cert.peerVerts|
  {
    if cert.bodyFixed
    then Projection(shape, cert, j, p.x, p.y, p.hx, p.hy) - Dot(cert.nx, cert.ny, shape.corners[k])
    else Dot(cert.nx, cert.ny, PlaceCorner(shape, k, p.x, p.y, p.hx, p.hy))
         - Dot(cert.nx, cert.ny, cert.peerVerts[j])
  }

  /** Wherever the halfspace of a certificate holds, the gap it was made with is kept between every
      corner of the vehicle and every corner of the parked peer. */
  lemma GapIsKept(c: Contact, shape: Shape, hx: real, hy: real, peerPose: Pose, peerVerts: seq<Point>,
                  cert: EscapeCert, p: Placement, k: nat, j: nat)
    requires k < |shape.corners| && j < |peerVerts|
    requires cert == CertOf(c, shape, hx, hy, peerPose, peerVerts).(escapedAt := cert.escapedAt)
    requires Keeps(shape, cert, p, cert.rhs - TOL - SLACK)
    ensures Gap(shape, cert, p, k, j) >= c.gap - TOL - SLACK
  {
    hide Projection, Furthest, Dot, PlaceCorner;
    if c.bodyFixed {
      assert Projection(shape, cert, j, p.x, p.y, p.hx, p.hy) >= cert.rhs - TOL - SLACK;
    } else {
      assert Projection(shape, cert, k, p.x, p.y, p.hx, p.hy) >= cert.rhs - TOL - SLACK;
      WorldProjection(shape, cert, k, p);
    }
  }

  lemma WorldProjection(shape: Shape, cert: EscapeCert, k: nat, p: Placement)
    requires !cert.bodyFixed && k < |shape.corners|
    ensures Projection(shape, cert, k, p.x, p.y, p.hx, p.hy)
         == Dot(cert.nx, cert.ny, PlaceCorner(shape, k, p.x, p.y, p.hx, p.hy))
  {
  }

  /** The escape index is the first sample that is clear of the peer by the margin. */
  lemma {:induction false} FirstClearIsFirst(shape: Shape, sweep: SampleSet, peer: Shape, at: Sample,
                                             m: real, i: nat)
    requires i <= |sweep.pts|
    ensures var r := FirstClear(shape, sweep, peer, at, m, i);
            && (r.Some? ==> SampleClear(shape, sweep.pts[r.value], peer, at, m))
            && (forall j :: i <= j < (if r.Some? then r.value else |sweep.pts|) ==>
                  !SampleClear(shape, sweep.pts[j], peer, at, m))
    decreases |sweep.pts| - i
  {
    hide SampleClear;
    if i < |sweep.pts| && !SampleClear(shape, sweep.pts[i], peer, at, m) {
      FirstClearIsFirst(shape, sweep, peer, at, m, i + 1);
    }
  }

  /** An admitted route passes the test at every step up to the frozen escape index of each parked
      peer it started too close to, and keeps the full margin from the index on. */
  lemma AdmittedRouteEscapes(y: Query, sets: seq<SampleSet>, from: seq<nat>, s: Reach, v: nat, i: nat,
                             o: Id, cert: EscapeCert)
    requires WellFormedSweeps(y, sets, from) && NaiveAnswer(y, sets, from, false, s)
    requires Asked(sets, from, v, i) && Parked(y, o)
    requires MatchCert(o, y.bodies[o].pose, y.certs) == Some(cert)
    ensures if Escaped(cert, v, i)
            then SampleClear(y.shape, sets[v].pts[i], y.bodies[o].shape, y.bodies[o].At(), y.ParkedMargin())
            else EscapeStepClear(y.shape, sets[v], i, cert)
  {
    hide WorldHit, HitByMover, SampleClear, EscapeStepClear, SweepOf;
    assert !HardAt(y, sets, v, i);
    assert !ParkedHit(y, sets[v], v, i, o);
  }
}
