/** What the verifier's answer means on the ground: where it finds no conflict, the whole footprint is
    far enough from every obstacle, inside the fence, and far enough from every other vehicle, where it
    stands and wherever its reservation is kept. Distances are between any points the bodies cover. */
module Clearance {
  import opened ResetProtocol
  import opened Geometry
  import opened Bodies
  import opened Sweep
  import opened Escape
  import opened Hulls
  import opened Separation

  /** Footprints are solid, headings are unit vectors, obstacles are convex, margins not negative. */
  ghost predicate SolidQuery(y: Query, sets: seq<SampleSet>) {
    && Solid(y.shape) && y.StaticMargin() >= 0.0 && y.ParkedMargin() >= 0.0
    && (forall k :: 0 <= k < |y.world.statics| ==> Convex(y.world.statics[k].verts))
    && (forall o :: o in y.bodies ==> SolidBody(y.bodies[o]) && y.MoverMargin(y.bodies[o]) >= 0.0)
    && (forall v :: 0 <= v < |sets| ==> UnitSweep(sets[v]))
  }

  ghost predicate UnitSweep(sweep: SampleSet) {
    forall i :: 0 <= i < |sweep.pts| ==> UnitHeading(sweep.pts[i])
  }

  ghost predicate SolidBody(b: Body) {
    && Solid(b.shape) && UnitVector(b.hx, b.hy)
    && (b.HasPlan() ==> forall w :: 0 <= w < |b.reservation.plan.sets| ==> UnitSweep(b.reservation.plan.sets[w]))
  }

  /** Inside the fence by m. */
  predicate Fenced(p: Point, f: Fence, m: real) {
    f.enabled ==> f.xmin + m <= p.x <= f.xmax - m && f.ymin + m <= p.y <= f.ymax - m
  }

  ghost predicate HullFenced(vs: seq<Point>, f: Fence, m: real) {
    forall p: Point :: InHull(p, vs) ==> Fenced(p, f, m)
  }

  lemma FenceHolds(vs: seq<Point>, f: Fence, m: real)
    requires !OutsideFence(vs, f, m)
    ensures HullFenced(vs, f, m)
  {
    hide InHull;
    if f.enabled {
      var box := Aabb(f.xmin + m, f.xmax - m, f.ymin + m, f.ymax - m);
      assert forall k :: 0 <= k < |vs| ==> !CornerOutside(vs[k], f, m) && InBox(vs[k], box);
      forall p: Point | InHull(p, vs) ensures Fenced(p, f, m) { HullInBox(p, vs, box); }
    }
  }

  /** Away from every obstacle, and inside the fence. */
  ghost predicate AwayFromWorld(y: Query, q: Sample) {
    && (forall k :: 0 <= k < |y.world.statics| ==>
          FarApart(Placed(y.shape, q), y.world.statics[k].verts, y.StaticMargin()))
    && HullFenced(Placed(y.shape, q), y.world.fence, y.FenceMargin())
  }

  lemma ObstacleIsFar(y: Query, q: Sample, k: nat)
    requires k < |y.world.statics| && !StaticHit(y, q, k) && y.StaticMargin() >= 0.0
    requires Solid(y.shape) && Boxed(y.shape, q) && UnitHeading(q)
    requires var st := y.world.statics[k]; |st.verts| > 0 && st.box == BoxOf(st.verts) && Convex(st.verts)
    ensures FarApart(Placed(y.shape, q), y.world.statics[k].verts, y.StaticMargin())
  {
    var st, vs := y.world.statics[k], Placed(y.shape, q);
    PlacedIsSolid(y.shape, q);
    hide Convex, Place, ExactClear, BoxOf, UnitHeading, FarApart, Separated;
    if Separated(q.box, st.box, y.StaticMargin()) {
      BoxHolds(y.shape, q);
      BoxesAreFar(vs, q.box, st.verts, st.box, y.StaticMargin());
    } else {
      ExactClearIsFar(vs, y.shape.rect, st.verts, false, y.StaticMargin());
    }
  }

  /** A sample that does not hit the world is away from it. */
  lemma WorldIsFar(y: Query, q: Sample)
    requires !WorldHit(y, q) && Solid(y.shape) && Boxed(y.shape, q) && UnitHeading(q) && y.StaticMargin() >= 0.0
    requires forall k :: 0 <= k < |y.world.statics| ==>
               var st := y.world.statics[k]; |st.verts| > 0 && st.box == BoxOf(st.verts) && Convex(st.verts)
    ensures AwayFromWorld(y, q)
  {
    FenceHolds(Placed(y.shape, q), y.world.fence, y.FenceMargin());
    hide StaticHit, Solid, Boxed, UnitHeading, Convex, FarApart, OutsideFence, HullFenced, BoxOf;
    forall k | 0 <= k < |y.world.statics|
      ensures FarApart(Placed(y.shape, q), y.world.statics[k].verts, y.StaticMargin())
    {
      ObstacleIsFar(y, q, k);
    }
  }

  /** Away from a body that stands: unless a certificate still lets the vehicle escape from it. */
  ghost predicate AwayFromParked(y: Query, q: Sample, v: nat, i: nat, o: Id)
    requires o in y.bodies && WellFormed(y.bodies[o].shape)
  {
    var other := y.bodies[o];
    var cert := MatchCert(o, other.pose, y.certs);
    (cert.None? || Escaped(cert.value, v, i)) ==>
      BodiesFar(y.shape, q, other.shape, other.At(), y.ParkedMargin())
  }

  /** Away from a vehicle with a reservation: where it is, and wherever its reservation is kept. */
  ghost predicate AwayFromMover(y: Query, q: Sample, o: Id)
    requires o in y.bodies && y.bodies[o].HasPlan() && WellFormed(y.bodies[o].shape)
  {
    var other := y.bodies[o];
    && BodiesFar(y.shape, q, other.shape, other.At(), y.MoverMargin(other))
    && forall w: nat, r: nat :: Retained(other.reservation.plan, w, r) ==>
         BodiesFar(y.shape, q, other.shape, other.reservation.plan.sets[w].pts[r], y.MoverMargin(other))
  }

  ghost predicate AwayFromAll(y: Query, q: Sample, v: nat, i: nat)
    requires WellFormedQuery(y)
  {
    && AwayFromWorld(y, q)
    && (forall o :: Parked(y, o) ==> AwayFromParked(y, q, v, i, o))
    && (forall o :: o in y.bodies && o != y.self && y.bodies[o].HasPlan() ==> AwayFromMover(y, q, o))
  }

  lemma StandingSample(b: Body)
    requires WellFormed(b.shape) && UnitVector(b.hx, b.hy)
    ensures Boxed(b.shape, b.At()) && UnitHeading(b.At())
  {
  }

  lemma ParkedIsFar(y: Query, sweep: SampleSet, v: nat, i: nat, o: Id)
    requires i < |sweep.pts| && o in y.bodies && WellFormed(y.bodies[o].shape) && !ParkedHit(y, sweep, v, i, o)
    requires Solid(y.shape) && SolidBody(y.bodies[o]) && y.ParkedMargin() >= 0.0
    requires Boxed(y.shape, sweep.pts[i]) && UnitHeading(sweep.pts[i])
    ensures AwayFromParked(y, sweep.pts[i], v, i, o)
  {
    var other := y.bodies[o];
    StandingSample(other);
    hide Solid, Boxed, UnitHeading, BodiesFar, SampleClear, EscapeStepClear, Escaped, Place, Body.At, Placed;
    hide UnitVector;
    var cert := MatchCert(o, other.pose, y.certs);
    if cert.None? || Escaped(cert.value, v, i) {
      ClearIsFar(y.shape, sweep.pts[i], other.shape, other.At(), y.ParkedMargin());
    }
  }

  lemma MoverIsFar(y: Query, q: Sample, o: Id)
    requires o in y.bodies && y.bodies[o].HasPlan() && WellFormedBody(y.bodies[o]) && !MoverHit(y, q, o)
    requires Solid(y.shape) && SolidBody(y.bodies[o]) && y.MoverMargin(y.bodies[o]) >= 0.0
    requires Boxed(y.shape, q) && UnitHeading(q)
    ensures AwayFromMover(y, q, o)
  {
    var other := y.bodies[o];
    var p, m := other.reservation.plan, y.MoverMargin(other);
    StandingSample(other);
    hide Solid, Boxed, UnitHeading, BodiesFar, SampleClear, PrefixEnds, Place, Retained, Body.At, Query.MoverMargin;
    hide UnitVector;
    ClearIsFar(y.shape, q, other.shape, other.At(), m);
    forall w: nat, r: nat | Retained(p, w, r)
      ensures BodiesFar(y.shape, q, other.shape, p.sets[w].pts[r], m)
    {
      RetainedSample(p, w, r);
      assert !SampleHit(y, q, o, w, r);
      PlanSample(other, w, r);
      ClearIsFar(y.shape, q, other.shape, p.sets[w].pts[r], m);
    }
  }

  lemma PlanSample(b: Body, w: nat, r: nat)
    requires b.HasPlan() && WellFormedBody(b) && SolidBody(b)
    requires w < |b.reservation.plan.sets| && r < |b.reservation.plan.sets[w].pts|
    ensures var q := b.reservation.plan.sets[w].pts[r]; Boxed(b.shape, q) && UnitHeading(q)
  {
    hide Solid, Boxed, UnitHeading, PrefixEnds, ChunksCover;
    assert SweepOf(b.shape, b.reservation.plan.sets[w]) && UnitSweep(b.reservation.plan.sets[w]);
  }

  lemma RetainedSample(p: Plan, w: nat, r: nat)
    requires Retained(p, w, r)
    ensures w < |p.sets| && r < |p.sets[w].pts|
  {
  }

  /** A sample without a conflict is away from everything. */
  lemma FreeIsFar(y: Query, sets: seq<SampleSet>, from: seq<nat>, v: nat, i: nat)
    requires WellFormedSweeps(y, sets, from) && SolidQuery(y, sets) && Asked(sets, from, v, i)
    requires !HardAt(y, sets, v, i) && !SoftAt(y, sets, v, i)
    ensures AwayFromAll(y, sets[v].pts[i], v, i)
  {
    var q := sets[v].pts[i];
    assert SweepOf(y.shape, sets[v]) && UnitSweep(sets[v]);
    hide Solid, Boxed, UnitHeading, ParkedHit, MoverHit, AwayFromParked, AwayFromMover, AwayFromWorld, WorldHit;
    hide WellFormedBody, SolidBody, Convex;
    WorldIsFar(y, q);
    forall o | Parked(y, o) ensures AwayFromParked(y, q, v, i, o) { ParkedIsFar(y, sets[v], v, i, o); }
    forall o | o in y.bodies && o != y.self && y.bodies[o].HasPlan() ensures AwayFromMover(y, q, o) {
      assert Mover(y, o, y.bodies[o].IsRetiring());
      MoverIsFar(y, q, o);
    }
  }

  /** Without a hard violation, every sample short of the returned arc length is away from obstacles,
      fence, parked bodies and movers, by their margins. */
  lemma ClearBelowIsFar(y: Query, sets: seq<SampleSet>, from: seq<nat>, s: Reach, v: nat, i: nat)
    requires WellFormedSweeps(y, sets, from) && SolidQuery(y, sets) && NaiveAnswer(y, sets, from, false, s)
    requires Asked(sets, from, v, i) && (s.At? ==> sets[v].pts[i].s < s.s)
    ensures AwayFromAll(y, sets[v].pts[i], v, i)
  {
    ClearBelow(y, sets, from, s, v, i);
    hide WellFormedSweeps, SolidQuery, HardAt, SoftAt, NaiveAnswer;
    FreeIsFar(y, sets, from, v, i);
  }
}
