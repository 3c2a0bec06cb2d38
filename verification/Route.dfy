/** What the sampled route promises (reset_route.h): legs, samples and arc lengths, proved of the
    functions of RouteModel; and the loops that compute them. */
module Route {
  import opened ResetProtocol
  import opened Escape
  import opened RouteModel

  /** Headings are unit vectors of period 2 pi; the cross product of two headings is the sine of the
      turn between them, which vanishes for no proper turn of less than half a circle. */
  ghost predicate IsTrig(t: Trig) {
    && (forall a: real :: t.cos(a) * t.cos(a) + t.sin(a) * t.sin(a) == 1.0)
    && (forall a: real :: t.cos(WrapAngle(a)) == t.cos(a) && t.sin(WrapAngle(a)) == t.sin(a))
    && (forall a: real, b: real :: Cross(t.cos(a), t.sin(a), t.cos(b), t.sin(b)) == t.sin(b - a))
    && (forall a: real :: 0.0 < Abs(a) < K_PI ==> t.sin(a) != 0.0)
    && (forall x: real, y: real :: t.length(x, y) >= 0.0 && t.length(x, y) * t.length(x, y) == x * x + y * y)
  }

  lemma CentreOfOrigin(t: Trig, ell: real, c: Point, yaw: real)
    ensures Centre(t, ell, Origin(t, ell, c, yaw)) == c && Origin(t, ell, c, yaw).yaw == yaw
  {
  }

  // ---------------------------------------------------------------- angles

  lemma WrapRange(a: real)
    ensures -K_PI <= WrapAngle(a) < K_PI
    ensures exists m: int :: WrapAngle(a) == Turned(a, m)
  {
    var x := (a + K_PI) / (2.0 * K_PI);
    assert x * (2.0 * K_PI) == a + K_PI;
    var m := x.Floor;
    assert m as real <= x < m as real + 1.0;
    Scaled(m as real, x);
    Scaled(x, m as real + 1.0);
    assert (m as real + 1.0) * (2.0 * K_PI) == m as real * (2.0 * K_PI) + 2.0 * K_PI;
    assert WrapAngle(a) == Turned(a, m);
  }

  lemma Scaled(x: real, y: real)
    ensures x <= y ==> x * (2.0 * K_PI) <= y * (2.0 * K_PI)
    ensures x < y ==> x * (2.0 * K_PI) < y * (2.0 * K_PI)
  {
  }

  /** The same heading, m turns back. */
  function Turned(a: real, m: int): real { a - m as real * (2.0 * K_PI) }

  lemma WrapPeriodic(a: real, m: int)
    ensures WrapAngle(Turned(a, m)) == WrapAngle(a)
  {
    var x := (a + K_PI) / (2.0 * K_PI);
    var y := (Turned(a, m) + K_PI) / (2.0 * K_PI);
    assert x * (2.0 * K_PI) == a + K_PI && y * (2.0 * K_PI) == Turned(a, m) + K_PI;
    assert (x - y - m as real) * (2.0 * K_PI) == 0.0;
    assert y == x - m as real;
    assert y.Floor == x.Floor - m;
  }

  lemma WrapIsIdentity(a: real)
    requires -K_PI <= a < K_PI
    ensures WrapAngle(a) == a
  {
    var x := (a + K_PI) / (2.0 * K_PI);
    assert x * (2.0 * K_PI) == a + K_PI;
    if x < 0.0 { Scaled(x, 0.0); }
    if x >= 1.0 { Scaled(1.0, x); }
    assert x.Floor == 0;
  }

  /** Wrapping never makes an angle larger. */
  lemma WrapIsSmaller(a: real)
    ensures Abs(WrapAngle(a)) <= Abs(a)
  {
    WrapRange(a);
    if -K_PI <= a < K_PI { WrapIsIdentity(a); }
  }

  /** The turn between two wrapped headings is no larger than the turn between the headings. */
  lemma WrappedDifference(a: real, b: real)
    ensures WrapAngle(WrapAngle(b) - WrapAngle(a)) == WrapAngle(b - a)
    ensures Abs(WrapAngle(WrapAngle(b) - WrapAngle(a))) <= Abs(b - a)
  {
    WrapRange(a);
    WrapRange(b);
    var m: int :| WrapAngle(a) == Turned(a, m);
    var n: int :| WrapAngle(b) == Turned(b, n);
    TurnedDifference(a, b, m, n);
    WrapPeriodic(b - a, n - m);
    WrapIsSmaller(b - a);
  }

  lemma TurnedDifference(a: real, b: real, m: int, n: int)
    ensures Turned(b, n) - Turned(a, m) == Turned(b - a, n - m)
  {
  }

  /** Of a bearing and its reverse, the one that needs the smaller rotation needs at most a quarter
      turn: a vehicle that may drive either way never turns more than that at a vertex. */
  lemma SmallerRotation(bearing: real, previous: real)
    ensures var reverse := WrapAngle(bearing + K_PI);
            var f, r := Abs(WrapAngle(bearing - previous)), Abs(WrapAngle(reverse - previous));
            (f <= r ==> f <= K_PI / 2.0) && (r < f ==> r <= K_PI / 2.0)
  {
    var d := bearing - previous;
    WrapRange(bearing + K_PI);
    var m: int :| WrapAngle(bearing + K_PI) == Turned(bearing + K_PI, m);
    assert Turned(bearing + K_PI, m) - previous == Turned(d + K_PI, m);
    WrapPeriodic(d + K_PI, m);
    WrapRange(d);
    var n: int :| WrapAngle(d) == Turned(d, n);
    var w := WrapAngle(d);
    assert Turned(d + K_PI, n) == w + K_PI;
    WrapPeriodic(d + K_PI, n);
    if w < 0.0 { WrapIsIdentity(w + K_PI); }
    else {
      WrapPeriodic(w + K_PI, 1);
      assert Turned(w + K_PI, 1) == w - K_PI;
      WrapIsIdentity(w - K_PI);
    }
  }

  // ---------------------------------------------------------------- the constructor

  ghost predicate GoodRoute(t: Trig, r: Polyline) {
    && r.Indexed() && |r.cumulative| == |r.vertices|
    && r.vertices[0] == Centre(t, r.ell, r.start)
    && r.vertices[|r.vertices| - 1] == Centre(t, r.ell, r.goal)
    && r.cumulative[0] == 0.0
    && (forall j :: 0 <= j < |r.legs| ==>
          r.cumulative[j + 1] == r.cumulative[j] + Distance(t, r.vertices[j], r.vertices[j + 1]))
  }

  /** Each leg keeps the heading over a vanishing segment; otherwise it follows the bearing of the
      segment or its reverse, with a rotation of at most a quarter turn. */
  ghost predicate GoodLeg(t: Trig, d: (real, real), before: real, leg: Leg) {
    if t.length(d.0, d.1) < SLIVER then leg == Leg(before, true)
    else
      && leg.heading == (if leg.forward then t.bearing(d.0, d.1)
                         else WrapAngle(t.bearing(d.0, d.1) + K_PI))
      && Abs(WrapAngle(leg.heading - before)) <= K_PI / 2.0
  }

  ghost predicate GoodLegs(t: Trig, vertices: seq<Point>, start: real, legs: seq<Leg>) {
    |legs| < |vertices|
    && forall j :: 0 <= j < |legs| ==> GoodLeg(t, Span(vertices, j), Before(start, legs, j), legs[j])
  }

  lemma LegIsGood(t: Trig, d: (real, real), before: real)
    ensures GoodLeg(t, d, before, LegOf(t, d, before))
  {
    hide WrapAngle;
    SmallerRotation(t.bearing(d.0, d.1), before);
  }

  lemma {:induction false} LegsAreGood(t: Trig, vertices: seq<Point>, start: real, n: nat)
    requires n < |vertices|
    ensures GoodLegs(t, vertices, start, LegsOf(t, vertices, start, n))
  {
    hide GoodLeg, LegOf;
    if n > 0 {
      LegsAreGood(t, vertices, start, n - 1);
      var was, legs := LegsOf(t, vertices, start, n - 1), LegsOf(t, vertices, start, n);
      LegIsGood(t, Span(vertices, n - 1), Before(start, was, n - 1));
      forall k | 0 <= k < n ensures GoodLeg(t, Span(vertices, k), Before(start, legs, k), legs[k]) {
        assert Before(start, legs, k) == Before(start, was, k);
        if k < n - 1 { assert legs[k] == was[k]; }
      }
    }
  }

  lemma {:induction false} LengthsAdd(t: Trig, vertices: seq<Point>, n: nat)
    requires n < |vertices|
    ensures var c := LengthsOf(t, vertices, n);
            c[0] == 0.0 && forall k :: 0 <= k < n ==> c[k + 1] == c[k] + Distance(t, vertices[k], vertices[k + 1])
  {
    hide Distance;
    if n > 0 { LengthsAdd(t, vertices, n - 1); }
  }

  /** A route runs from the start to the goal, its arc lengths add up, and no leg turns the vehicle by
      more than a quarter. */
  lemma BuiltIsGood(t: Trig, start: Pose, via: seq<Point>, goal: Pose, ell: real)
    ensures var r := BuiltRoute(t, start, via, goal, ell);
            GoodRoute(t, r) && GoodLegs(t, r.vertices, start.yaw, r.legs)
            && r.vertices == [Centre(t, ell, start)] + via + [Centre(t, ell, goal)]
  {
    hide GoodLegs, Distance, Centre, LegsOf, LengthsOf;
    var vertices := [Centre(t, ell, start)] + via + [Centre(t, ell, goal)];
    LengthsAdd(t, vertices, |vertices| - 1);
    LegsAreGood(t, vertices, start.yaw, |vertices| - 1);
  }

  /** The constructor's loops. */
  method Build(t: Trig, start: Pose, via: seq<Point>, goal: Pose, ell: real) returns (r: Polyline)
    ensures r == BuiltRoute(t, start, via, goal, ell)
    ensures GoodRoute(t, r) && GoodLegs(t, r.vertices, start.yaw, r.legs)
  {
    hide GoodLegs, GoodRoute, Distance, Centre, LegOf;
    BuiltIsGood(t, start, via, goal, ell);
    var vertices := [Centre(t, ell, start)] + via + [Centre(t, ell, goal)];
    var cumulative := [0.0];
    for j := 0 to |vertices| - 1
      invariant cumulative == LengthsOf(t, vertices, j)
    {
      cumulative := cumulative + [cumulative[j] + Distance(t, vertices[j], vertices[j + 1])];
    }
    var legs := [];
    var previous := start.yaw;
    for j := 0 to |vertices| - 1
      invariant legs == LegsOf(t, vertices, start.yaw, j) && previous == Before(start.yaw, legs, j)
    {
      var leg := LegOf(t, Span(vertices, j), previous);
      previous := leg.heading;
      legs := legs + [leg];
    }
    r := Polyline(start, goal, ell, vertices, cumulative, legs);
  }

  // ---------------------------------------------------------------- sampling

  lemma CountIsEnough(whole: real, step: real)
    requires step > 0.0 && whole >= 0.0
    ensures whole / (Count(whole, step) as real) <= step
  {
    var n, q := Count(whole, step), whole / step;
    assert q * step == whole;
    assert q <= n as real;
    var part := whole / (n as real);
    assert part * (n as real) == whole;
    MulOrder(q, n as real, step);
    if part > step { MulStrict(step, part, n as real); }
  }

  lemma MulOrder(x: real, y: real, z: real)
    requires x <= y && z >= 0.0
    ensures x * z <= y * z
  {
  }

  lemma MulStrict(x: real, y: real, z: real)
    requires x < y && z > 0.0
    ensures x * z < y * z
  {
  }

  /** A fixed-heading move: the arc length grows by the way of the centre, by at most a step. */
  ghost predicate IsMove(t: Trig, ell: real, step: real, a: RouteSample, b: RouteSample) {
    && b.pose.yaw == a.pose.yaw && a.s < b.s <= a.s + step
    && var c, d := Centre(t, ell, a.pose), Centre(t, ell, b.pose);
       Dist2(c.x, c.y, d.x, d.y) == (b.s - a.s) * (b.s - a.s)
  }

  /** A turn in place: the same arc length, the same centre, a heading at most a yaw step away. */
  ghost predicate IsTurn(t: Trig, ell: real, stepYaw: real, a: RouteSample, b: RouteSample) {
    && b.s == a.s && Centre(t, ell, b.pose) == Centre(t, ell, a.pose)
    && Abs(WrapAngle(b.pose.yaw - a.pose.yaw)) <= stepYaw
  }

  ghost predicate StepOk(t: Trig, ell: real, step: real, stepYaw: real, a: RouteSample, b: RouteSample) {
    IsMove(t, ell, step, a, b) || IsTurn(t, ell, stepYaw, a, b)
  }

  ghost predicate Steps(t: Trig, ell: real, step: real, stepYaw: real, out: seq<RouteSample>) {
    forall i :: 0 < i < |out| ==> StepOk(t, ell, step, stepYaw, out[i - 1], out[i])
  }

  lemma StepsMore(t: Trig, ell: real, step: real, stepYaw: real, out: seq<RouteSample>, b: RouteSample)
    ensures Steps(t, ell, step, stepYaw, out + [b])
       <==> Steps(t, ell, step, stepYaw, out)
            && (out != [] ==> StepOk(t, ell, step, stepYaw, out[|out| - 1], b))
  {
    hide StepOk;
    var r := out + [b];
    if Steps(t, ell, step, stepYaw, r) {
      if out != [] { assert StepOk(t, ell, step, stepYaw, r[|out| - 1], r[|out|]); }
      forall i | 0 < i < |out| ensures StepOk(t, ell, step, stepYaw, out[i - 1], out[i]) {
        assert StepOk(t, ell, step, stepYaw, r[i - 1], r[i]) && r[i] == out[i] && r[i - 1] == out[i - 1];
      }
    }
  }

  /** The arc length never falls. */
  ghost predicate Grows(out: seq<RouteSample>) {
    forall i, j :: 0 <= i <= j < |out| ==> out[i].s <= out[j].s
  }

  lemma GrowsMore(out: seq<RouteSample>, b: RouteSample)
    requires Grows(out) && (out != [] ==> out[|out| - 1].s <= b.s)
    ensures Grows(out + [b])
  {
  }

  /** Where the samples have got to. */
  ghost predicate Stands(t: Trig, ell: real, out: seq<RouteSample>, c: Point, yaw: real, s: real) {
    out != [] && var l := out[|out| - 1]; Centre(t, ell, l.pose) == c && l.pose.yaw == yaw && l.s == s
  }

  lemma PartTurn(yaw: real, delta: real, k: nat, n: nat, stepYaw: real)
    requires stepYaw > 0.0 && n == Count(Abs(delta), stepYaw)
    ensures Abs(WrapAngle(PartYaw(yaw, delta, k + 1, n) - PartYaw(yaw, delta, k, n))) <= stepYaw
    ensures Abs(WrapAngle(PartYaw(yaw, delta, 1, n) - yaw)) <= stepYaw
  {
    hide WrapAngle, Count;
    var x, y := delta * ((k + 1) as real) / (n as real), delta * (k as real) / (n as real);
    var z := delta * (1 as real) / (n as real);
    PartLength(delta, k, n);
    CountIsEnough(Abs(delta), stepYaw);
    WrappedDifference(yaw + y, yaw + x);
    FromUnwrapped(yaw, yaw + z);
    assert (yaw + x) - (yaw + y) == x - y && (yaw + z) - yaw == z;
  }

  lemma FromUnwrapped(yaw: real, b: real)
    ensures Abs(WrapAngle(WrapAngle(b) - yaw)) <= Abs(b - yaw)
  {
    WrapRange(b);
    var n: int :| WrapAngle(b) == Turned(b, n);
    assert Turned(b, n) - yaw == Turned(b - yaw, n);
    WrapPeriodic(b - yaw, n);
    WrapIsSmaller(b - yaw);
  }

  lemma PartLength(delta: real, k: nat, n: nat)
    requires n >= 1
    ensures Abs(delta * ((k + 1) as real) / (n as real) - delta * (k as real) / (n as real)) == Abs(delta) / (n as real)
    ensures Abs(delta * (1 as real) / (n as real)) == Abs(delta) / (n as real)
  {
    var m := n as real;
    var x, y := delta * ((k + 1) as real), delta * (k as real);
    assert x - y == delta;
    assert x / m - y / m == delta / m by { Quotients(x, y, m); }
    if delta < 0.0 { assert (-delta) / m == -(delta / m) by { Quotients(0.0, delta, m); } }
    SignOfQuotient(delta, m);
  }

  lemma Quotients(x: real, y: real, m: real)
    requires m > 0.0
    ensures x / m - y / m == (x - y) / m
  {
  }

  lemma SignOfQuotient(x: real, m: real)
    requires m > 0.0
    ensures x >= 0.0 ==> x / m >= 0.0
    ensures x < 0.0 ==> x / m < 0.0
  {
    var q := x / m;
    assert q * m == x;
    if x >= 0.0 && q < 0.0 { MulStrict(q, 0.0, m); }
    if x < 0.0 && q >= 0.0 { MulOrder(0.0, q, m); }
  }

  // ---------------------------------------------------------------- turns

  /** The samples turn about c; the first of them continues the ones before exactly when those stood
      at c. */
  lemma {:induction false} TurnsContinue(t: Trig, ell: real, step: real, stepYaw: real,
                                         before: seq<RouteSample>, from: Point, c: Point, yaw: real,
                                         delta: real, s: real, n: nat, k: nat)
    requires stepYaw > 0.0 && n == Count(Abs(delta), stepYaw)
    requires Stands(t, ell, before, from, yaw, s) && Grows(before)
    ensures var out := before + TurnsTo(t, ell, c, yaw, delta, s, n, k);
            && Grows(out)
            && (Steps(t, ell, step, stepYaw, out)
                <==> Steps(t, ell, step, stepYaw, before) && (k == 0 || from == c))
            && Stands(t, ell, out, if k == 0 then from else c, if k == 0 then yaw else PartYaw(yaw, delta, k, n), s)
  {
    hide WrapAngle, Centre, Steps, Count, PartYaw, Origin, Grows;
    if k == 0 {
      assert before + TurnsTo(t, ell, c, yaw, delta, s, n, k) == before;
    } else {
      TurnsContinue(t, ell, step, stepYaw, before, from, c, yaw, delta, s, n, k - 1);
      var was := before + TurnsTo(t, ell, c, yaw, delta, s, n, k - 1);
      var p := PartYaw(yaw, delta, k, n);
      var q := RouteSample(Origin(t, ell, c, p), s);
      assert before + TurnsTo(t, ell, c, yaw, delta, s, n, k) == was + [q];
      PartTurn(yaw, delta, k - 1, n, stepYaw);
      CentreOfOrigin(t, ell, c, p);
      StepsMore(t, ell, step, stepYaw, was, q);
      GrowsMore(was, q);
    }
  }

  lemma RotationContinues(g: Gauge, ell: real, k: Track, from: Point, c: Point, to: real)
    requires g.stepYaw > 0.0 && Stands(g.trig, ell, k.out, from, k.yaw, k.s) && Grows(k.out)
    ensures var r := Rotated(g, ell, k, c, to);
            && (Steps(g.trig, ell, g.step, g.stepYaw, r.out)
                <==> Steps(g.trig, ell, g.step, g.stepYaw, k.out) && from == c)
            && Stands(g.trig, ell, r.out, c, r.yaw, r.s) && Grows(r.out) && k.out < r.out
            && r.yaw == WrapAngle(k.yaw + WrapAngle(to - k.yaw)) && r.s == k.s
  {
    hide WrapAngle, Centre, Steps, Grows, PartYaw, TurnsTo;
    var delta := WrapAngle(to - k.yaw);
    var n := Count(Abs(delta), g.stepYaw);
    TurnsContinue(g.trig, ell, g.step, g.stepYaw, k.out, from, c, k.yaw, delta, k.s, n, n);
    WholeYaw(k.yaw, delta, n);
  }

  /** The loop of rotate. */
  method Rotate(g: Gauge, ell: real, k: Track, c: Point, to: real) returns (r: Track)
    requires g.stepYaw > 0.0
    ensures r == Rotated(g, ell, k, c, to)
  {
    hide WrapAngle, Origin, PartYaw;
    var delta := WrapAngle(to - k.yaw);
    var n := Count(Abs(delta), g.stepYaw);
    var out := k.out;
    for i := 0 to n
      invariant out == k.out + TurnsTo(g.trig, ell, c, k.yaw, delta, k.s, n, i)
    {
      out := out + [RouteSample(Origin(g.trig, ell, c, PartYaw(k.yaw, delta, i + 1, n)), k.s)];
    }
    r := Track(out, WrapAngle(k.yaw + delta), k.s);
  }

  lemma WholeYaw(yaw: real, delta: real, n: nat)
    requires n >= 1
    ensures PartYaw(yaw, delta, n, n) == WrapAngle(yaw + delta)
  {
    hide WrapAngle;
    Whole(delta, n as real);
  }

  // ---------------------------------------------------------------- moves

  lemma PartPointEnds(a: Point, b: Point, n: nat)
    requires n >= 1
    ensures PartPoint(a, b, 0, n) == a && PartPoint(a, b, n, n) == b
  {
    Whole(b.x - a.x, n as real);
    Whole(b.y - a.y, n as real);
  }

  lemma Whole(x: real, m: real)
    requires m > 0.0
    ensures x * m / m == x && x * 0.0 / m == 0.0
  {
    var q := x * m / m;
    assert q * m == x * m;
    assert (q - x) * m == 0.0;
  }

  /** One part of a segment is as long as its share of the arc length. */
  lemma PartWay(t: Trig, a: Point, b: Point, k: nat, n: nat)
    requires IsTrig(t) && n >= 1
    ensures var c, d, w := PartPoint(a, b, k, n), PartPoint(a, b, k + 1, n), Distance(t, a, b) / (n as real);
            Dist2(c.x, c.y, d.x, d.y) == w * w
  {
    hide IsTrig;
    var m, dx, dy := n as real, b.x - a.x, b.y - a.y;
    var c, d := PartPoint(a, b, k, n), PartPoint(a, b, k + 1, n);
    PartStep(dx, k, m);
    PartStep(dy, k, m);
    var p, q := dx / m, dy / m;
    assert c.x - d.x == -p && c.y - d.y == -q;
    assert (-p) * (-p) == p * p && (-q) * (-q) == q * q;
    LengthSquared(t, dx, dy);
    SquaredParts(dx, dy, t.length(dx, dy), m);
  }

  lemma LengthSquared(t: Trig, dx: real, dy: real)
    requires IsTrig(t)
    ensures t.length(dx, dy) * t.length(dx, dy) == dx * dx + dy * dy
  {
    hide WrapAngle;
  }

  lemma PartStep(x: real, k: nat, m: real)
    requires m > 0.0
    ensures x * ((k + 1) as real) / m - x * (k as real) / m == x / m
  {
    Quotients(x * ((k + 1) as real), x * (k as real), m);
    assert x * ((k + 1) as real) - x * (k as real) == x;
  }

  lemma SquaredParts(x: real, y: real, l: real, m: real)
    requires m > 0.0 && l * l == x * x + y * y
    ensures (x / m) * (x / m) + (y / m) * (y / m) == (l / m) * (l / m)
  {
    var k := PositiveProduct(m, m);
    SquaredQuotient(x, m, k);
    SquaredQuotient(y, m, k);
    SquaredQuotient(l, m, k);
    var xx, yy := x * x, y * y;
    assert xx / k + yy / k == (xx + yy) / k by { Quotients(xx + yy, yy, k); }
  }

  lemma PositiveProduct(x: real, y: real) returns (k: real)
    requires x > 0.0 && y > 0.0
    ensures k == x * y && k > 0.0
  {
    k := x * y;
  }

  lemma SquaredQuotient(x: real, m: real, k: real)
    requires m > 0.0 && k == m * m && k > 0.0
    ensures (x / m) * (x / m) == (x * x) / k
  {
    var w := x / m;
    assert w * m == x;
    SquareOfProduct(w, m, x);
    QuotientIs(w * w, x * x, k);
  }

  lemma SquareOfProduct(w: real, m: real, x: real)
    requires w * m == x
    ensures (w * w) * (m * m) == x * x
  {
    assert (w * w) * (m * m) == (w * m) * (w * m);
  }

  lemma QuotientIs(q: real, x: real, k: real)
    requires k > 0.0 && q * k == x
    ensures x / k == q
  {
    var r := x / k;
    assert r * k == x;
    Distribute(r, q, k);
    ZeroFactor(r - q, k);
  }

  lemma Distribute(r: real, q: real, k: real)
    ensures (r - q) * k == r * k - q * k
  {
  }

  lemma ZeroFactor(z: real, k: real)
    requires k > 0.0 && z * k == 0.0
    ensures z == 0.0
  {
    if z > 0.0 { MulStrict(0.0, z, k); }
    if z < 0.0 { MulStrict(z, 0.0, k); }
  }

  /** The samples move from a to b with a fixed heading; the first of them continues the ones before
      when those stood at a. */
  lemma {:induction false} MovesContinue(t: Trig, ell: real, step: real, stepYaw: real,
                                         before: seq<RouteSample>, from: Point, a: Point, b: Point,
                                         yaw: real, s: real, n: nat, k: nat)
    requires IsTrig(t) && step > 0.0 && Distance(t, a, b) >= SLIVER && n == Count(Distance(t, a, b), step)
    requires Stands(t, ell, before, from, yaw, s)
    ensures var out := before + MovesTo(t, ell, a, b, yaw, s, Distance(t, a, b), n, k);
            && (Steps(t, ell, step, stepYaw, before) && from == a ==> Steps(t, ell, step, stepYaw, out))
            && (Steps(t, ell, step, stepYaw, out) ==> Steps(t, ell, step, stepYaw, before))
            && Stands(t, ell, out, if k == 0 then from else PartPoint(a, b, k, n), yaw,
                      WayTo(s, Distance(t, a, b), k, n))
  {
    hide WrapAngle, Centre, Steps, Dist2, IsTrig, Distance, StepOk, Origin, Count, PartPoint, WayTo;
    WayGrows(s, Distance(t, a, b), k, n);
    var length := Distance(t, a, b);
    if k == 0 {
      assert before + MovesTo(t, ell, a, b, yaw, s, length, n, k) == before;
    } else {
      MovesContinue(t, ell, step, stepYaw, before, from, a, b, yaw, s, n, k - 1);
      var was := before + MovesTo(t, ell, a, b, yaw, s, length, n, k - 1);
      var c := PartPoint(a, b, k, n);
      var part := length / (n as real);
      var q := RouteSample(Origin(t, ell, c, yaw), WayTo(s, length, k, n));
      assert before + MovesTo(t, ell, a, b, yaw, s, length, n, k) == was + [q];
      CountIsEnough(length, step);
      PartIsPositive(length, n as real);
      CentreOfOrigin(t, ell, c, yaw);
      if k > 1 { PartWay(t, a, b, k - 1, n); }
      FirstWay(t, ell, step, stepYaw, was, q, from, a, b, k, n, part);
      StepsMore(t, ell, step, stepYaw, was, q);
    }
  }

  lemma WayGrows(s: real, length: real, k: nat, n: nat)
    requires n >= 1
    ensures WayTo(s, length, 0, n) == s
    ensures k >= 1 ==> WayTo(s, length, k, n) == WayTo(s, length, k - 1, n) + length / (n as real)
    ensures WayTo(s, length, n, n) == s + length
  {
    var part := length / (n as real);
    if k >= 1 { assert (k as real) * part == ((k - 1) as real) * part + part; }
    WholeAgain(length, n as real);
  }

  /** The step to the k-th part, unless it is the first one and the samples stood elsewhere. */
  lemma FirstWay(t: Trig, ell: real, step: real, stepYaw: real, was: seq<RouteSample>, q: RouteSample,
                 from: Point, a: Point, b: Point, k: nat, n: nat, part: real)
    requires IsTrig(t) && n >= 1 && k >= 1 && 0.0 < part <= step && part == Distance(t, a, b) / (n as real)
    requires was != [] && q.pose.yaw == was[|was| - 1].pose.yaw && q.s == was[|was| - 1].s + part
    requires Centre(t, ell, was[|was| - 1].pose) == (if k == 1 then from else PartPoint(a, b, k - 1, n))
    requires Centre(t, ell, q.pose) == PartPoint(a, b, k, n)
    ensures k > 1 || from == a ==> StepOk(t, ell, step, stepYaw, was[|was| - 1], q)
  {
    hide Centre, Dist2, IsTrig, PartPoint, StepOk, Distance;
    PartPointEnds(a, b, n);
    if k > 1 || from == a {
      PartWay(t, a, b, k - 1, n);
      MoveIsOk(t, ell, step, stepYaw, was[|was| - 1], q, PartPoint(a, b, k - 1, n), PartPoint(a, b, k, n));
    }
  }

  lemma {:induction false} MovesGrow(t: Trig, ell: real, before: seq<RouteSample>, a: Point, b: Point,
                                     yaw: real, s: real, length: real, n: nat, k: nat)
    requires n >= 1 && length >= 0.0 && before != [] && before[|before| - 1].s == s && Grows(before)
    ensures var out := before + MovesTo(t, ell, a, b, yaw, s, length, n, k);
            Grows(out) && out[|out| - 1].s == WayTo(s, length, k, n)
  {
    hide Origin, PartPoint, Grows, WayTo;
    SignOfQuotient(length, n as real);
    WayGrows(s, length, k, n);
    if k == 0 {
      assert before + MovesTo(t, ell, a, b, yaw, s, length, n, k) == before;
    } else {
      MovesGrow(t, ell, before, a, b, yaw, s, length, n, k - 1);
      var was := before + MovesTo(t, ell, a, b, yaw, s, length, n, k - 1);
      var q := RouteSample(Origin(t, ell, PartPoint(a, b, k, n), yaw), WayTo(s, length, k, n));
      assert before + MovesTo(t, ell, a, b, yaw, s, length, n, k) == was + [q];
      GrowsMore(was, q);
    }
  }

  lemma DriveContinues(g: Gauge, ell: real, k: Track, from: Point, a: Point, b: Point)
    requires IsTrig(g.trig) && g.step > 0.0 && Distance(g.trig, a, b) >= SLIVER
    requires Stands(g.trig, ell, k.out, from, k.yaw, k.s)
    ensures var r := Driven(g, ell, k, a, b);
            && (Steps(g.trig, ell, g.step, g.stepYaw, k.out) && from == a
                ==> Steps(g.trig, ell, g.step, g.stepYaw, r.out))
            && (Steps(g.trig, ell, g.step, g.stepYaw, r.out) ==> Steps(g.trig, ell, g.step, g.stepYaw, k.out))
            && Stands(g.trig, ell, r.out, b, r.yaw, r.s)
  {
    hide Centre, Steps, IsTrig, Distance, PartPoint, MovesTo, WayTo;
    var length := Distance(g.trig, a, b);
    var n := Count(length, g.step);
    MovesContinue(g.trig, ell, g.step, g.stepYaw, k.out, from, a, b, k.yaw, k.s, n, n);
    PartPointEnds(a, b, n);
    WayGrows(k.s, length, n, n);
  }

  lemma DriveGrows(g: Gauge, ell: real, k: Track, a: Point, b: Point)
    requires GoodGauge(g) && k.out != [] && k.out[|k.out| - 1].s == k.s && Grows(k.out)
    ensures var r := Driven(g, ell, k, a, b);
            Grows(r.out) && r.out[|r.out| - 1].s == r.s && k.out < r.out && r.out[0] == k.out[0]
            && r.s == k.s + Distance(g.trig, a, b)
  {
    hide Grows, MovesTo, WayTo;
    var length := Distance(g.trig, a, b);
    var n := Count(length, g.step);
    MovesGrow(g.trig, ell, k.out, a, b, k.yaw, k.s, length, n, n);
    WayGrows(k.s, length, n, n);
  }

  /** The loop along one segment. */
  method Drive(g: Gauge, ell: real, k: Track, a: Point, b: Point) returns (r: Track)
    requires g.step > 0.0
    ensures r == Driven(g, ell, k, a, b)
  {
    hide Origin, PartPoint, Distance, WayTo;
    var length := Distance(g.trig, a, b);
    var n := Count(length, g.step);
    var out, s := k.out, k.s;
    WayGrows(k.s, length, n, n);
    for i := 0 to n
      invariant out == k.out + MovesTo(g.trig, ell, a, b, k.yaw, k.s, length, n, i)
      invariant s == WayTo(k.s, length, i, n)
    {
      WayGrows(k.s, length, i + 1, n);
      s := s + length / (n as real);
      out := out + [RouteSample(Origin(g.trig, ell, PartPoint(a, b, i + 1, n), k.yaw), s)];
    }
    r := Track(out, k.yaw, s);
  }

  lemma MoveIsOk(t: Trig, ell: real, step: real, stepYaw: real, a: RouteSample, b: RouteSample, c: Point,
                 d: Point)
    requires b.pose.yaw == a.pose.yaw && a.s < b.s <= a.s + step
    requires Centre(t, ell, a.pose) == c && Centre(t, ell, b.pose) == d
    requires Dist2(c.x, c.y, d.x, d.y) == (b.s - a.s) * (b.s - a.s)
    ensures StepOk(t, ell, step, stepYaw, a, b)
  {
    hide Centre, Dist2, IsTurn;
    assert IsMove(t, ell, step, a, b);
  }

  lemma PartIsPositive(x: real, m: real)
    requires x > 0.0 && m > 0.0
    ensures x / m > 0.0
  {
    var q := x / m;
    assert q * m == x;
    if q <= 0.0 { MulOrder(q, 0.0, m); }
  }

  lemma WholeAgain(x: real, m: real)
    requires m > 0.0
    ensures m * (x / m) == x
  {
  }

  // ---------------------------------------------------------------- the whole route

  /** The summed length of the segments that are driven; shorter ones are skipped. */
  function DrivenLength(t: Trig, vertices: seq<Point>): real
    decreases |vertices|
  {
    if |vertices| < 2 then 0.0
    else
      var d := Distance(t, vertices[|vertices| - 2], vertices[|vertices| - 1]);
      DrivenLength(t, vertices[..|vertices| - 1]) + if d < SLIVER then 0.0 else d
  }

  /** Where the samples stand before segment j: the end of the last driven segment. */
  function Anchor(t: Trig, vertices: seq<Point>, j: nat): Point
    requires j < |vertices|
  {
    if j == 0 || Distance(t, vertices[j - 1], vertices[j]) >= SLIVER then vertices[j]
    else Anchor(t, vertices, j - 1)
  }

  /** Among the first n segments, every driven one starts where the last driven one ended: the
      skipped segments in between lead nowhere. */
  predicate Unbroken(t: Trig, vertices: seq<Point>, n: nat)
    requires n < |vertices|
  {
    n == 0 || (Unbroken(t, vertices, n - 1)
               && (Distance(t, vertices[n - 1], vertices[n]) >= SLIVER
                   ==> Anchor(t, vertices, n - 1) == vertices[n - 1]))
  }

  /** The whole polyline is driven without a gap, up to the last vertex. */
  predicate Continuous(t: Trig, vertices: seq<Point>)
    requires |vertices| >= 1
  {
    Unbroken(t, vertices, |vertices| - 1) && Anchor(t, vertices, |vertices| - 1) == vertices[|vertices| - 1]
  }

  /** Without segments that are too short to be driven and yet have two ends, no gap arises. */
  lemma {:induction false} NoSliversNoGaps(t: Trig, vertices: seq<Point>, n: nat)
    requires n < |vertices|
    requires forall j: nat :: j + 1 < |vertices| ==>
               vertices[j] == vertices[j + 1] || Distance(t, vertices[j], vertices[j + 1]) >= SLIVER
    ensures Unbroken(t, vertices, n) && Anchor(t, vertices, n) == vertices[n]
  {
    hide Distance;
    if n > 0 {
      NoSliversNoGaps(t, vertices, n - 1);
      assert vertices[n - 1] == vertices[n - 1 + 1] || Distance(t, vertices[n - 1], vertices[n - 1 + 1]) >= SLIVER;
    }
  }

  lemma DrivenMore(t: Trig, vertices: seq<Point>, j: nat)
    requires j + 1 < |vertices|
    ensures var d := Distance(t, vertices[j], vertices[j + 1]);
            DrivenLength(t, vertices[..j + 2]) == DrivenLength(t, vertices[..j + 1]) + if d < SLIVER then 0.0 else d
  {
    assert vertices[..j + 2][..j + 1] == vertices[..j + 1];
  }

  /** Where the samples of the first j segments have got to, whether or not they are continuous. */
  lemma {:induction false} TrackGrows(g: Gauge, r: Polyline, unicycle: bool, j: nat)
    requires GoodGauge(g) && r.Indexed() && j < |r.vertices|
    ensures var k := TrackTo(g, r, unicycle, j);
            && k.out != [] && Grows(k.out) && k.out[|k.out| - 1].s == k.s
            && k.out[0] == RouteSample(Origin(g.trig, r.ell, r.vertices[0], r.start.yaw), 0.0)
            && k.s == DrivenLength(g.trig, r.vertices[..j + 1])
  {
    hide Grows, Rotated, Driven, Origin, Distance;
    if j == 0 {
      OneGrows(TrackTo(g, r, unicycle, j).out);
    } else {
      TrackGrows(g, r, unicycle, j - 1);
      DrivenMore(g.trig, r.vertices, j - 1);
      var k := TrackTo(g, r, unicycle, j - 1);
      if unicycle { RotationGrows(g, r.ell, k, r.vertices[j - 1], r.legs[j - 1].heading); }
      DriveGrows(g, r.ell, Turning(g, r, unicycle, k, j - 1), r.vertices[j - 1], r.vertices[j]);
    }
  }

  lemma OneGrows(out: seq<RouteSample>)
    requires |out| == 1
    ensures Grows(out)
  {
  }

  lemma RotationGrows(g: Gauge, ell: real, k: Track, c: Point, to: real)
    requires g.stepYaw > 0.0 && k.out != [] && k.out[|k.out| - 1].s == k.s && Grows(k.out)
    ensures var r := Rotated(g, ell, k, c, to);
            Grows(r.out) && r.out[|r.out| - 1].s == r.s == k.s && k.out < r.out && r.out[0] == k.out[0]
  {
    hide WrapAngle, Grows, TurnsTo;
    var delta := WrapAngle(to - k.yaw);
    var n := Count(Abs(delta), g.stepYaw);
    TurnsGrow(g.trig, ell, k.out, c, k.yaw, delta, k.s, n, n);
  }

  lemma {:induction false} TurnsGrow(t: Trig, ell: real, before: seq<RouteSample>, c: Point, yaw: real,
                                     delta: real, s: real, n: nat, k: nat)
    requires n >= 1 && before != [] && before[|before| - 1].s == s && Grows(before)
    ensures var out := before + TurnsTo(t, ell, c, yaw, delta, s, n, k);
            Grows(out) && out[|out| - 1].s == s
  {
    hide Origin, PartYaw, Grows;
    if k == 0 {
      assert before + TurnsTo(t, ell, c, yaw, delta, s, n, k) == before;
    } else {
      TurnsGrow(t, ell, before, c, yaw, delta, s, n, k - 1);
      var was := before + TurnsTo(t, ell, c, yaw, delta, s, n, k - 1);
      var q := RouteSample(Origin(t, ell, c, PartYaw(yaw, delta, k, n)), s);
      assert before + TurnsTo(t, ell, c, yaw, delta, s, n, k) == was + [q];
      GrowsMore(was, q);
    }
  }

  lemma {:induction false} TrackContinues(g: Gauge, r: Polyline, unicycle: bool, j: nat)
    requires GoodGauge(g) && IsTrig(g.trig) && r.Indexed() && j < |r.vertices|
    ensures var k := TrackTo(g, r, unicycle, j);
            && Stands(g.trig, r.ell, k.out, Anchor(g.trig, r.vertices, j), k.yaw, k.s) && Grows(k.out)
            && (Unbroken(g.trig, r.vertices, j) ==> Steps(g.trig, r.ell, g.step, g.stepYaw, k.out))
            && (unicycle && Steps(g.trig, r.ell, g.step, g.stepYaw, k.out) ==> Unbroken(g.trig, r.vertices, j))
  {
    hide WrapAngle, Centre, Steps, IsTrig, Distance, Grows, Rotated, Driven, StepOk;
    TrackGrows(g, r, unicycle, j);
    if j == 0 {
      CentreOfOrigin(g.trig, r.ell, r.vertices[0], r.start.yaw);
      OneSample(g.trig, r.ell, g.step, g.stepYaw, TrackTo(g, r, unicycle, 0).out[0]);
    } else {
      TrackContinues(g, r, unicycle, j - 1);
      var k := TrackTo(g, r, unicycle, j - 1);
      var a, b := r.vertices[j - 1], r.vertices[j];
      var from := Anchor(g.trig, r.vertices, j - 1);
      if Distance(g.trig, a, b) >= SLIVER {
        if unicycle { RotationContinues(g, r.ell, k, from, a, r.legs[j - 1].heading); }
        DriveContinues(g, r.ell, Turning(g, r, unicycle, k, j - 1), if unicycle then a else from, a, b);
      }
    }
  }

  /** Route::sample. The samples start at the start pose with s = 0, s never falls, and s ends at the
      summed length of the driven segments. */
  lemma SamplesGrow(g: Gauge, r: Polyline, unicycle: bool)
    requires GoodGauge(g) && r.Indexed()
    ensures var out := SamplesOf(g, r, unicycle);
            && |out| >= 2 && out[0] == RouteSample(Origin(g.trig, r.ell, r.vertices[0], r.start.yaw), 0.0)
            && Grows(out) && out[|out| - 1].s == DrivenLength(g.trig, r.vertices)
  {
    hide Grows, Rotated, TrackTo, Origin;
    var n := |r.vertices| - 1;
    TrackGrows(g, r, unicycle, n);
    var k := TrackTo(g, r, unicycle, n);
    assert r.vertices[..n + 1] == r.vertices;
    if unicycle { RotationGrows(g, r.ell, k, r.vertices[n], r.goal.yaw); }
    else { GrowsMore(k.out, RouteSample(Origin(g.trig, r.ell, r.vertices[n], r.goal.yaw), k.s)); }
  }

  /** The last sample has the goal's rotation centre and heading. For a unicycle each step is a move
      with a fixed heading of at most `step`, on which s strictly grows by the way driven, or a turn of
      at most `stepYaw` about a fixed centre at equal s, exactly when the route has no gap. An
      omnidirectional vehicle moves so on every sample but the last. */
  lemma SamplesContinue(g: Gauge, r: Polyline, unicycle: bool)
    requires GoodGauge(g) && IsTrig(g.trig) && GoodRoute(g.trig, r)
    ensures var out := SamplesOf(g, r, unicycle);
            && out != [] && Centre(g.trig, r.ell, out[|out| - 1].pose) == Centre(g.trig, r.ell, r.goal)
            && (exists m: int :: out[|out| - 1].pose.yaw == Turned(r.goal.yaw, m))
            && (unicycle ==>
                  (Steps(g.trig, r.ell, g.step, g.stepYaw, out) <==> Continuous(g.trig, r.vertices)))
            && (!unicycle && Unbroken(g.trig, r.vertices, |r.vertices| - 1) ==>
                  Steps(g.trig, r.ell, g.step, g.stepYaw, out[..|out| - 1]))
  {
    hide WrapAngle, Centre, Steps, IsTrig, Distance, StepOk, TrackTo, Rotated, Grows, Unbroken;
    var n := |r.vertices| - 1;
    TrackContinues(g, r, unicycle, n);
    var k := TrackTo(g, r, unicycle, n);
    var last, out := r.vertices[n], SamplesOf(g, r, unicycle);
    if unicycle {
      TurnArrives(k.yaw, r.goal.yaw);
      RotationContinues(g, r.ell, k, Anchor(g.trig, r.vertices, n), last, r.goal.yaw);
    } else {
      assert r.goal.yaw == Turned(r.goal.yaw, 0);
      CentreOfOrigin(g.trig, r.ell, last, r.goal.yaw);
      assert out[..|out| - 1] == k.out;
    }
  }

  /** The loop over the segments. */
  method SampleRoute(g: Gauge, r: Polyline, unicycle: bool) returns (out: seq<RouteSample>)
    requires GoodGauge(g) && r.Indexed()
    ensures out == SamplesOf(g, r, unicycle)
  {
    hide WrapAngle, Rotated, Driven, Origin, GoodGauge;
    var k := Track([RouteSample(Origin(g.trig, r.ell, r.vertices[0], r.start.yaw), 0.0)], r.start.yaw, 0.0);
    assert g.step > 0.0 && g.stepYaw > 0.0 by { GaugeSteps(g); }
    for j := 0 to |r.vertices| - 1
      invariant k == TrackTo(g, r, unicycle, j)
    {
      if !(Distance(g.trig, r.vertices[j], r.vertices[j + 1]) < SLIVER) {
        if unicycle { k := Rotate(g, r.ell, k, r.vertices[j], r.legs[j].heading); }
        k := Drive(g, r.ell, k, r.vertices[j], r.vertices[j + 1]);
      }
    }
    var last := r.vertices[|r.vertices| - 1];
    if unicycle {
      k := Rotate(g, r.ell, k, last, r.goal.yaw);
      out := k.out;
    } else {
      out := k.out + [RouteSample(Origin(g.trig, r.ell, last, r.goal.yaw), k.s)];
    }
  }

  lemma GaugeSteps(g: Gauge)
    requires GoodGauge(g)
    ensures g.step > 0.0 && g.stepYaw > 0.0
  {
  }

  lemma OneSample(t: Trig, ell: real, step: real, stepYaw: real, q: RouteSample)
    ensures Steps(t, ell, step, stepYaw, [q])
  {
  }

  lemma TurnArrives(yaw: real, to: real)
    ensures exists m: int :: WrapAngle(yaw + WrapAngle(to - yaw)) == Turned(to, m)
  {
    WrapRange(to - yaw);
    var m: int :| WrapAngle(to - yaw) == Turned(to - yaw, m);
    WrapRange(yaw + WrapAngle(to - yaw));
    var n: int :| WrapAngle(yaw + WrapAngle(to - yaw)) == Turned(yaw + WrapAngle(to - yaw), n);
    assert yaw + Turned(to - yaw, m) == Turned(to, m);
    assert Turned(Turned(to, m), n) == Turned(to, m + n);
  }

  /** A route can have a gap: a first segment of half a SLIVER is skipped, and the next one is
      driven from its end, although the samples still stand at its start. */
  lemma GapHappens(t: Trig) returns (vertices: seq<Point>)
    requires IsTrig(t)
    ensures |vertices| == 3 && !Continuous(t, vertices)
  {
    hide WrapAngle;
    var h := SLIVER / 2.0;
    vertices := [Point(0.0, 0.0), Point(h, 0.0), Point(h + 1.0, 0.0)];
    RootIs(t.length(h, 0.0), h);
    RootIs(t.length(1.0, 0.0), 1.0);
    assert Distance(t, vertices[0], vertices[1]) < SLIVER && Distance(t, vertices[1], vertices[2]) >= SLIVER;
    assert Anchor(t, vertices, 1) == vertices[0] by { assert Anchor(t, vertices, 0) == vertices[0]; }
    assert !Unbroken(t, vertices, 2);
  }

  lemma RootIs(x: real, y: real)
    requires x >= 0.0 && y > 0.0 && x * x == y * y
    ensures x == y
  {
    var k := x + y;
    assert (x - y) * k == 0.0;
    ZeroFactor(x - y, k);
  }

  lemma DistanceIsNonNegative(t: Trig, a: Point, b: Point)
    requires IsTrig(t)
    ensures Distance(t, a, b) >= 0.0
  {
    hide WrapAngle;
  }

  /** The arc length the samples end at is that of the route less the skipped segments. */
  lemma {:induction false} SkippedIsLittle(t: Trig, vertices: seq<Point>, cumulative: seq<real>)
    requires IsTrig(t) && |vertices| >= 1 && |cumulative| == |vertices| && cumulative[0] == 0.0
    requires forall j :: 0 <= j < |vertices| - 1 ==>
               cumulative[j + 1] == cumulative[j] + Distance(t, vertices[j], vertices[j + 1])
    ensures var n := |vertices| - 1;
            DrivenLength(t, vertices) <= cumulative[n] <= DrivenLength(t, vertices) + (n as real) * SLIVER
    decreases |vertices|
  {
    hide WrapAngle, IsTrig, Distance;
    if |vertices| > 1 {
      var n := |vertices| - 1;
      DistanceIsNonNegative(t, vertices[n - 1], vertices[n]);
      SkippedIsLittle(t, vertices[..n], cumulative[..n]);
      assert cumulative[n - 1 + 1] == cumulative[n - 1] + Distance(t, vertices[n - 1], vertices[n - 1 + 1]);
      assert (n as real) * SLIVER == ((n - 1) as real) * SLIVER + SLIVER;
    }
  }
}
