/** The sweep verifier (reset_planner.cpp, firstViolation): the fast form, which skips whole chunks of
    eight samples by their boxes, is proved to answer what the check of every sample would. */
module Sweep {
  import opened ResetProtocol
  import opened Geometry
  import opened Bodies
  import opened Escape

  datatype Fence = Fence(enabled: bool, xmin: real, xmax: real, ymin: real, ymax: real)
  datatype StaticPoly = StaticPoly(id: Id, verts: seq<Point>, box: Aabb)
  datatype World = World(statics: seq<StaticPoly>, fence: Fence)

  /** One question to the verifier: who asks, with which certificates, and everybody else. `order`
      lists the bodies once each. */
  datatype Query = Query(cfg: PlannerConfig, world: World, bodies: map<Id, Body>, order: seq<Id>,
                         self: Id, shape: Shape, delta: real, certs: seq<EscapeCert>)
  {
    function StaticMargin(): real { cfg.staticMargin + delta }
    function FenceMargin(): real { cfg.fenceMargin + delta }
    function ParkedMargin(): real { cfg.pairMargin + delta }
    function MoverMargin(other: Body): real { cfg.pairMargin + delta + other.delta }
  }

  ghost predicate WellFormedQuery(y: Query) {
    && WellFormed(y.shape)
    && (forall o :: o in y.bodies <==> o in y.order)
    && (forall o :: o in y.bodies ==> WellFormedBody(y.bodies[o]))
    && (forall k :: 0 <= k < |y.world.statics| ==>
          |y.world.statics[k].verts| > 0
          && y.world.statics[k].box == BoxOf(y.world.statics[k].verts))
  }

  // ---------------------------------------------------------------- the naive check of one sample

  predicate CornerOutside(p: Point, f: Fence, m: real) {
    p.x < f.xmin + m || p.x > f.xmax - m || p.y < f.ymin + m || p.y > f.ymax - m
  }

  predicate OutsideFence(vs: seq<Point>, f: Fence, m: real) {
    f.enabled && exists k :: 0 <= k < |vs| && CornerOutside(vs[k], f, m)
  }

  predicate StaticHit(y: Query, q: Sample, k: nat)
    requires k < |y.world.statics|
  {
    var st := y.world.statics[k];
    !Separated(q.box, st.box, y.StaticMargin())
    && !ExactClear(Placed(y.shape, q), y.shape.rect, st.verts, false, y.StaticMargin())
  }

  ghost predicate WorldHit(y: Query, q: Sample) {
    OutsideFence(Placed(y.shape, q), y.world.fence, y.FenceMargin())
    || exists k :: 0 <= k < |y.world.statics| && StaticHit(y, q, k)
  }

  /** Two reported poses are the same place (the planner's tolerance, not the protocol's). */
  predicate SamePlace(a: Pose, b: Pose) {
    Abs(a.x - b.x) < 0.000001 && Abs(a.y - b.y) < 0.000001
    && Abs(WrapAngle(a.yaw - b.yaw)) < 0.000001
  }

  /** matchCert: the certificate frozen for this peer at this pose, if any. */
  function MatchCert(o: Id, at: Pose, certs: seq<EscapeCert>): (c: Option<EscapeCert>)
    ensures c.Some? ==> c.value in certs
  {
    if certs == [] then None
    else if certs[0].peerId == o && SamePlace(certs[0].peerPose, at) then Some(certs[0])
    else MatchCert(o, at, certs[1..])
  }

  /** Past the escape index of the certificate, the ordinary margin applies again. */
  predicate Escaped(c: EscapeCert, v: nat, i: nat) {
    v < |c.escapedAt| && c.escapedAt[v].Some? && i > c.escapedAt[v].value
  }

  predicate ParkedHit(y: Query, sweep: SampleSet, v: nat, i: nat, o: Id)
    requires i < |sweep.pts| && o in y.bodies && WellFormed(y.bodies[o].shape)
  {
    var other := y.bodies[o];
    var cert := MatchCert(o, other.pose, y.certs);
    if cert.None? || Escaped(cert.value, v, i)
    then !SampleClear(y.shape, sweep.pts[i], other.shape, other.At(), y.ParkedMargin())
    else !EscapeStepClear(y.shape, sweep, i, cert.value)
  }

  /** The samples of a reservation that are kept: the granted prefix, from a few samples behind. */
  function RetainedFrom(cursor: nat): nat { if cursor > K_BEHIND then cursor - K_BEHIND else 0 }

  ghost predicate Retained(p: Plan, w: nat, r: nat) {
    w < |p.sets| && w < |p.cursor| && w < |p.hi|
    && RetainedFrom(p.cursor[w]) <= r < p.hi[w] && r < |p.sets[w].pts|
  }

  ghost predicate SampleHit(y: Query, q: Sample, o: Id, w: nat, r: nat)
    requires o in y.bodies && y.bodies[o].HasPlan()
  {
    var other := y.bodies[o];
    Retained(other.reservation.plan, w, r)
    && !SampleClear(y.shape, q, other.shape, other.reservation.plan.sets[w].pts[r],
                    y.MoverMargin(other))
  }

  predicate NowHit(y: Query, q: Sample, o: Id)
    requires o in y.bodies && WellFormed(y.bodies[o].shape)
  {
    var other := y.bodies[o];
    !SampleClear(y.shape, q, other.shape, other.At(), y.MoverMargin(other))
  }

  /** A mover is in the way: at its reported pose or with its retained sweep. */
  ghost predicate MoverHit(y: Query, q: Sample, o: Id)
    requires o in y.bodies && y.bodies[o].HasPlan() && WellFormed(y.bodies[o].shape)
  {
    NowHit(y, q, o) || exists w: nat, r: nat :: SampleHit(y, q, o, w, r)
  }

  ghost predicate Parked(y: Query, o: Id) { o in y.bodies && o != y.self && !y.bodies[o].HasPlan() }

  ghost predicate Mover(y: Query, o: Id, retiring: bool) {
    o in y.bodies && o != y.self && y.bodies[o].HasPlan() && y.bodies[o].IsRetiring() == retiring
  }

  ghost predicate HitByMover(y: Query, q: Sample, retiring: bool)
    requires WellFormedQuery(y)
  {
    exists o :: Mover(y, o, retiring) && MoverHit(y, q, o)
  }

  ghost predicate HitByParked(y: Query, sweep: SampleSet, v: nat, i: nat)
    requires WellFormedQuery(y) && i < |sweep.pts|
  {
    exists o :: Parked(y, o) && ParkedHit(y, sweep, v, i, o)
  }

  /** A conflict that does not go away by waiting: world, parked body, retiring reservation. */
  ghost predicate HardAt(y: Query, sets: seq<SampleSet>, v: nat, i: nat)
    requires WellFormedQuery(y) && v < |sets| && i < |sets[v].pts|
  {
    WorldHit(y, sets[v].pts[i]) || HitByParked(y, sets[v], v, i)
    || HitByMover(y, sets[v].pts[i], true)
  }

  /** A conflict with a mover whose reservation still shrinks. */
  ghost predicate SoftAt(y: Query, sets: seq<SampleSet>, v: nat, i: nat)
    requires WellFormedQuery(y) && v < |sets| && i < |sets[v].pts|
  {
    HitByMover(y, sets[v].pts[i], false)
  }

  // ---------------------------------------------------------------- the answer

  datatype Reach = Unbounded | At(s: real)
  datatype Violation = Violation(hard: bool, world: bool, s: Reach, who: Option<Id>)

  ghost predicate Asked(sets: seq<SampleSet>, from: seq<nat>, v: nat, i: nat) {
    v < |sets| && v < |from| && from[v] <= i < |sets[v].pts|
  }

  /** Sample (v, i) is checked before (a, b): variant by variant, along the sweep. */
  predicate Before(v: nat, i: nat, a: nat, b: nat) { v < a || (v == a && i < b) }

  ghost predicate WellFormedSweeps(y: Query, sets: seq<SampleSet>, from: seq<nat>) {
    && WellFormedQuery(y) && |from| == |sets|
    && (forall v :: 0 <= v < |sets| ==> SweepOf(y.shape, sets[v]))
    && (forall c :: 0 <= c < |y.certs| ==> |y.certs[c].escapedAt| == |sets|)
  }

  ghost predicate FirstHard(y: Query, sets: seq<SampleSet>, from: seq<nat>, v: nat, i: nat)
    requires WellFormedSweeps(y, sets, from)
  {
    && Asked(sets, from, v, i) && HardAt(y, sets, v, i)
    && forall a: nat, b: nat :: Asked(sets, from, a, b) && Before(a, b, v, i) ==> !HardAt(y, sets, a, b)
  }

  ghost predicate FirstSoft(y: Query, sets: seq<SampleSet>, from: seq<nat>, x: real)
    requires WellFormedSweeps(y, sets, from)
  {
    && (exists v: nat, i: nat :: Asked(sets, from, v, i) && SoftAt(y, sets, v, i) && sets[v].pts[i].s == x)
    && (forall v: nat, i: nat :: Asked(sets, from, v, i) && SoftAt(y, sets, v, i) ==> sets[v].pts[i].s >= x)
  }

  /** What checking every sample, one after the other, against everything would answer. */
  ghost predicate NaiveAnswer(y: Query, sets: seq<SampleSet>, from: seq<nat>, hard: bool, s: Reach)
    requires WellFormedSweeps(y, sets, from)
  {
    if hard then s.At? && exists v: nat, i: nat :: FirstHard(y, sets, from, v, i) && s.s == sets[v].pts[i].s
    else
      && (forall v: nat, i: nat :: Asked(sets, from, v, i) ==> !HardAt(y, sets, v, i))
      && (match s
          case Unbounded => forall v: nat, i: nat :: Asked(sets, from, v, i) ==> !SoftAt(y, sets, v, i)
          case At(x) => FirstSoft(y, sets, from, x))
  }

  /** The hard violation is blamed on something that is really hit, and on the world exactly when
      the world is hit there. */
  ghost predicate Culprit(y: Query, sets: seq<SampleSet>, v: nat, i: nat, world: bool, who: Id)
    requires WellFormedQuery(y) && v < |sets| && i < |sets[v].pts|
  {
    var q := sets[v].pts[i];
    && world == WorldHit(y, q)
    && (world ==> who == "fence" || exists k :: 0 <= k < |y.world.statics| && StaticHit(y, q, k)
                                                && who == y.world.statics[k].id)
    && (!world ==> (Parked(y, who) && ParkedHit(y, sets[v], v, i, who))
                   || (Mover(y, who, true) && MoverHit(y, q, who)))
  }

  ghost predicate Blames(y: Query, sets: seq<SampleSet>, from: seq<nat>, r: Violation)
    requires WellFormedSweeps(y, sets, from)
  {
    r.hard ==> (
      r.s.At? && r.who.Some?
      && exists v: nat, i: nat :: FirstHard(y, sets, from, v, i) && r.s.s == sets[v].pts[i].s
                                  && Culprit(y, sets, v, i, r.world, r.who.value))
  }

  /** The naive answer is unique, so a verifier that meets it cannot differ in flag or arc length. */
  lemma NaiveAnswerUnique(y: Query, sets: seq<SampleSet>, from: seq<nat>, h1: bool, s1: Reach,
                          h2: bool, s2: Reach)
    requires WellFormedSweeps(y, sets, from)
    requires NaiveAnswer(y, sets, from, h1, s1) && NaiveAnswer(y, sets, from, h2, s2)
    ensures h1 == h2 && s1 == s2
  {
    hide HardAt, SoftAt, WellFormedSweeps;
    if h1 != h2 {
      assert false;
    } else if h1 {
      var v1: nat, i1: nat :| FirstHard(y, sets, from, v1, i1) && s1.s == sets[v1].pts[i1].s;
      var v2: nat, i2: nat :| FirstHard(y, sets, from, v2, i2) && s2.s == sets[v2].pts[i2].s;
      assert !Before(v1, i1, v2, i2) && !Before(v2, i2, v1, i1);
    }
  }

  /** Without a hard violation, every sample short of the returned arc length is clear of all. */
  lemma ClearBelow(y: Query, sets: seq<SampleSet>, from: seq<nat>, s: Reach, v: nat, i: nat)
    requires WellFormedSweeps(y, sets, from) && NaiveAnswer(y, sets, from, false, s)
    requires Asked(sets, from, v, i) && (s.At? ==> sets[v].pts[i].s < s.s)
    ensures !HardAt(y, sets, v, i) && !SoftAt(y, sets, v, i)
  {
    hide HardAt, SoftAt, WellFormedSweeps;
  }
}
