/** What every reachable state of the whole system guarantees. */
module FleetSafety {
  import opened ResetProtocol
  import opened Geometry
  import opened Bodies
  import opened PlannerModel
  import opened Reservations
  import opened Fleet
  import opened RouteModel
  import opened Hulls
  import opened Separation
  import L = Link
  import LV = LinkVehicle

  /** What one link says about a vehicle that is executing. */
  lemma RunningIsCovered(c: L.Core, seat: Option<L.Seat>, words: set<L.Word>, notes: set<L.Note>,
                         next: nat)
    requires L.LinkInv(c, seat, words, notes, next) && c.stage.Running?
    ensures seat.Some? && seat.value.claim.Some?
    ensures var h := seat.value.claim.value;
            && h.gen == c.gen && c.stage.route == h.route && c.stage.limit <= h.limit
            && c.stage.id <= h.grantId && seat.value.spec == c.spec
            && (h.phase.GoReceived? ==> c.stage.id == h.grantId && c.stage.limit == h.limit)
  {
    var w :| w in words && w.state.Go? && w.gen == c.gen && w.id == c.stage.id
             && w.limit == c.stage.limit;
    assert L.Covered(seat.value.claim.value, w);
  }

  lemma ExecutingLink(f: State, id: Id)
    requires FleetInv(f) && id in f.execs && f.execs[id].permission.Executing?
    ensures L.LinkInv(LV.CoreOf(f.execs[id]), SeatIn(f, id), Words(f, id), Notes(f, id), f.st.next)
    ensures LV.CoreOf(f.execs[id]).stage.Running?
  {
    assert Linked(f, id);
    hide L.LinkInv, StationInv, PairwiseDisjoint;
  }

  ghost predicate Executes(f: State, id: Id) {
    id in f.execs && f.execs[id].permission.Executing?
  }

  /** The reservation behind a vehicle that is executing: of its very generation, with its very
      route, for its very footprint, and at least as far as the vehicle may go. */
  ghost predicate Contained(f: State, id: Id)
    requires Executes(f, id)
  {
    var e := f.execs[id];
    && id in f.st.bodies && f.st.bodies[id].HasPlan()
    && var b, motion := f.st.bodies[id], e.permission.motion;
    && var p := b.reservation.plan;
    && p.generation == e.generation && p.route == motion.route && motion.sLimit <= p.sLimit
    && motion.grantId <= p.grantId && b.spec == e.spec && KitShaped(f.st.kit, b)
    && WellFormedPlan(b.shape, p)
  }

  lemma ContainedNow(f: State, id: Id)
    requires FleetInv(f) && Executes(f, id)
    ensures Contained(f, id)
    ensures f.st.bodies[id].ReceivedGo() ==>
              f.execs[id].permission.motion.grantId == f.st.bodies[id].reservation.plan.grantId
              && f.execs[id].permission.motion.sLimit == f.st.bodies[id].reservation.plan.sLimit
  {
    ExecutingLink(f, id);
    RunningIsCovered(LV.CoreOf(f.execs[id]), SeatIn(f, id), Words(f, id), Notes(f, id), f.st.next);
    hide L.LinkInv, PairwiseDisjoint, WellFormedPlan, Linked;
    assert WellFormedBody(f.st.bodies[id]);
  }

  /** Permission containment, in every reachable state. */
  lemma PermissionContainment(f0: State, evs: seq<Event>, f: State, id: Id)
    requires Reachable(f0, evs, f) && Executes(f, id)
    ensures Contained(f, id)
  {
    ReachableIsGood(f0, evs, f);
    ContainedNow(f, id);
    hide FleetInv, Contained, Reachable;
  }

  /** The rear of a reservation is released only to a vehicle that runs exactly its latest Go. */
  lemma RearReleaseFollowsReceipt(f0: State, evs: seq<Event>, f: State, id: Id)
    requires Reachable(f0, evs, f) && Executes(f, id)
    requires id in f.st.bodies && f.st.bodies[id].ReceivedGo()
    ensures var motion, p := f.execs[id].permission.motion, f.st.bodies[id].reservation.plan;
            motion.grantId == p.grantId && motion.sLimit == p.sLimit
  {
    ReachableIsGood(f0, evs, f);
    ContainedNow(f, id);
    hide FleetInv, Contained, Reachable;
  }

  // ---------------------------------------------------------------- the routes that are driven

  /** The sweep of the route the vehicle itself drives, with its own footprint, for one offset of its
      rotation centre. */
  function OwnSweep(f: State, id: Id, ell: real): SampleSet
    requires Executes(f, id) && GoodKit(f.st.kit)
  {
    var e := f.execs[id];
    MadeSweep(f.st.kit.gauge, f.st.kit.shapeOf(e.spec), e.spec.model, e.permission.motion.route, ell)
  }

  /** The station keeps the rear of variant w of the vehicle's route: that of offset `ell`. */
  ghost predicate KeptVariant(f: State, id: Id, w: nat, ell: real) {
    id in f.st.bodies && f.st.bodies[id].HasPlan()
    && var p := f.st.bodies[id].reservation.plan;
       w < |p.sets| && w < |p.cursor| && p.sets[w].ell == ell
  }

  /** The offset is one the station reserves for: for a unicycle the estimate of the route itself, or
      that with the spread of the estimate on either side; otherwise none. */
  ghost predicate ReservedFor(f: State, id: Id, ell: real) { exists w: nat :: KeptVariant(f, id, w, ell) }

  /** Sample i of the vehicle's own route lies between the station's cursor and the vehicle's limit. */
  ghost predicate Ahead(f: State, id: Id, ell: real, i: nat)
    requires Executes(f, id) && GoodKit(f.st.kit)
  {
    && (exists w: nat :: KeptVariant(f, id, w, ell) && f.st.bodies[id].reservation.plan.cursor[w] <= i)
    && i < |OwnSweep(f, id, ell).pts|
    && OwnSweep(f, id, ell).pts[i].s <= f.execs[id].permission.motion.sLimit + 0.000000001
  }

  ghost predicate HeldFor(st: Station, id: Id, v: nat, i: nat) {
    id in st.bodies && st.bodies[id].HasPlan() && Held(st.bodies[id].reservation.plan, v, i)
  }

  /** What is reserved is the route that is driven. */
  lemma ReservedIsDriven(f: State, id: Id, w: nat)
    requires Executes(f, id) && Contained(f, id) && GoodKit(f.st.kit)
    ensures var p := f.st.bodies[id].reservation.plan;
            w < |p.sets| ==> p.sets[w] == OwnSweep(f, id, p.sets[w].ell)
  {
    hide MadeSweep, WellFormedPlan;
    var b := f.st.bodies[id];
    assert SweptAt(f.st.kit, b.shape, b.spec.model, b.reservation.plan, w);
  }

  /** The estimate the route itself is driven with is reserved for. */
  lemma OwnEllIsReserved(f: State, id: Id)
    requires Executes(f, id) && Contained(f, id)
    ensures ReservedFor(f, id, f.execs[id].permission.motion.route.ell)
  {
    hide SweptAt, SweepOf, PrefixEnds;
    var w := if f.st.bodies[id].spec.model == Unicycle then 1 else 0;
    assert KeptVariant(f, id, w, f.execs[id].permission.motion.route.ell);
  }

  lemma AheadIsHeld(f: State, id: Id, ell: real, i: nat) returns (w: nat)
    requires Executes(f, id) && Contained(f, id) && GoodKit(f.st.kit) && Ahead(f, id, ell, i)
    ensures id in f.st.bodies && f.st.bodies[id].HasPlan() && HeldFor(f.st, id, w, i)
    ensures f.st.bodies[id].reservation.plan.sets[w] == OwnSweep(f, id, ell)
  {
    hide SweepOf, Swept, MadeSweep;
    w :| KeptVariant(f, id, w, ell) && f.st.bodies[id].reservation.plan.cursor[w] <= i;
    ReservedIsDriven(f, id, w);
    var p := f.st.bodies[id].reservation.plan;
    assert PrefixEnds(p.sets[w], p.sLimit, p.hi[w]);
  }

  /** Two samples are at the distance the station keeps between these two vehicles. */
  ghost predicate ApartAt(f: State, a: Id, b: Id, ellA: real, i: nat, ellB: real, j: nat)
    requires Executes(f, a) && Executes(f, b) && GoodKit(f.st.kit)
    requires Ahead(f, a, ellA, i) && Ahead(f, b, ellB, j)
  {
    var kit, x, y := f.st.kit, f.execs[a].spec, f.execs[b].spec;
    SampleClear(kit.shapeOf(x), OwnSweep(f, a, ellA).pts[i], kit.shapeOf(y), OwnSweep(f, b, ellB).pts[j],
                f.st.cfg.pairMargin + kit.deltaOf(x) + kit.deltaOf(y))
  }

  lemma ApartNow(f: State, a: Id, b: Id, ellA: real, i: nat, ellB: real, j: nat)
    requires PairwiseDisjoint(f.st) && a != b && Executes(f, a) && Executes(f, b) && GoodKit(f.st.kit)
    requires Contained(f, a) && Contained(f, b) && Ahead(f, a, ellA, i) && Ahead(f, b, ellB, j)
    ensures ApartAt(f, a, b, ellA, i, ellB, j)
  {
    hide SampleClear, PairwiseDisjoint, Ahead, OwnSweep, Contained, GoodKit, HeldFor;
    var v := AheadIsHeld(f, a, ellA, i);
    var w := AheadIsHeld(f, b, ellB, j);
    ContainedShape(f, a);
    ContainedShape(f, b);
    HeldApart(f.st, a, b, v, i, w, j);
    AheadIsIndex(f, a, ellA, i);
    AheadIsIndex(f, b, ellB, j);
  }

  lemma AheadIsIndex(f: State, id: Id, ell: real, i: nat)
    requires Executes(f, id) && GoodKit(f.st.kit) && Ahead(f, id, ell, i)
    ensures i < |OwnSweep(f, id, ell).pts|
  {
    hide OwnSweep;
  }

  lemma ContainedShape(f: State, id: Id)
    requires Executes(f, id) && Contained(f, id)
    ensures var b := f.st.bodies[id];
            b.shape == f.st.kit.shapeOf(f.execs[id].spec) && b.delta == f.st.kit.deltaOf(f.execs[id].spec)
  {
    hide WellFormedPlan, Swept;
  }

  lemma HeldApart(st: Station, a: Id, b: Id, v: nat, i: nat, w: nat, j: nat)
    requires PairwiseDisjoint(st) && a != b && a in st.bodies && b in st.bodies
    requires HeldFor(st, a, v, i) && HeldFor(st, b, w, j)
    ensures var x, y := st.bodies[a], st.bodies[b];
            SampleClear(x.shape, x.reservation.plan.sets[v].pts[i], y.shape,
                        y.reservation.plan.sets[w].pts[j], st.cfg.pairMargin + x.delta + y.delta)
  {
    hide SampleClear;
    assert SweepsDisjoint(st.cfg, st.bodies[a], st.bodies[b]);
  }

  // ---------------------------------------------------------------- distances

  /** The samples of the route the vehicle itself drives, for one offset of its rotation centre. */
  function OwnRoute(f: State, id: Id, ell: real): seq<RouteSample>
    requires Executes(f, id) && GoodKit(f.st.kit)
  {
    var g, e := f.st.kit.gauge, f.execs[id];
    var r := e.permission.motion.route;
    SamplesOf(g, BuiltRoute(g.trig, r.start, r.via, r.goal, ell), e.spec.model == Unicycle)
  }

  /** The corners of a vehicle's footprint at a pose: turned by its heading, unless the footprint
      covers every heading. */
  function FootprintAt(kit: Kit, spec: VehicleSpec, at: Pose): seq<Point> {
    var n := |kit.shapeOf(spec).corners|;
    seq(n, k requires 0 <= k < n => CornerAt(kit, spec, at, k))
  }

  function CornerAt(kit: Kit, spec: VehicleSpec, at: Pose, k: nat): Point
    requires k < |kit.shapeOf(spec).corners|
  {
    var corner, c, s := kit.shapeOf(spec).corners[k], kit.gauge.trig.cos(at.yaw), kit.gauge.trig.sin(at.yaw);
    if spec.model == Unicycle then Point(at.x + c * corner.x - s * corner.y, at.y + s * corner.x + c * corner.y)
    else Point(at.x + corner.x, at.y + corner.y)
  }

  /** The points a vehicle covers at a pose: its rectangle at its heading, or for an omnidirectional one
      the disc inside the polygon drawn around it. */
  ghost predicate Occupies(kit: Kit, spec: VehicleSpec, at: Pose, p: Point) {
    var r, dx, dy := kit.shapeOf(spec).radius, p.x - at.x, p.y - at.y;
    InHull(p, FootprintAt(kit, spec, at)) && (spec.model == Unicycle || dx * dx + dy * dy <= r * r)
  }

  /** Footprints are convex, rectangles within their radius, margins are not negative, and sine and cosine make
      unit vectors. */
  ghost predicate SolidKit(cfg: PlannerConfig, kit: Kit) {
    && cfg.pairMargin >= 0.0
    && (forall spec :: Solid(kit.shapeOf(spec)) && kit.deltaOf(spec) >= 0.0)
    && (forall x: real :: UnitVector(kit.gauge.trig.cos(x), kit.gauge.trig.sin(x)))
  }

  ghost predicate VehiclesFar(kit: Kit, x: VehicleSpec, atX: Pose, y: VehicleSpec, atY: Pose, m: real) {
    forall p: Point, q: Point :: Occupies(kit, x, atX, p) && Occupies(kit, y, atY, q) ==> Far(p, q, m)
  }

  /** At these two samples of their routes, any point of the one vehicle is at least the pair margin and
      both sampling errors away from any point of the other. */
  ghost predicate FarAt(f: State, a: Id, b: Id, ellA: real, i: nat, ellB: real, j: nat)
    requires Executes(f, a) && Executes(f, b) && GoodKit(f.st.kit)
  {
    var kit, x, y := f.st.kit, f.execs[a].spec, f.execs[b].spec;
    && i < |OwnRoute(f, a, ellA)| && j < |OwnRoute(f, b, ellB)|
    && VehiclesFar(kit, x, OwnRoute(f, a, ellA)[i].pose, y, OwnRoute(f, b, ellB)[j].pose,
                   f.st.cfg.pairMargin + kit.deltaOf(x) + kit.deltaOf(y))
  }

  /** A sample of the sweep is the footprint at the pose of the route. */
  lemma OwnFootprint(f: State, id: Id, ell: real, i: nat)
    requires Executes(f, id) && GoodKit(f.st.kit) && i < |OwnSweep(f, id, ell).pts|
    ensures i < |OwnRoute(f, id, ell)|
    ensures OwnSweep(f, id, ell).pts[i]
         == SampleOf(f.st.kit.gauge.trig, f.st.kit.shapeOf(f.execs[id].spec), OwnRoute(f, id, ell)[i])
  {
    hide SamplesOf, BuiltRoute, ChunksOf, BoxOf;
  }

  lemma PlacedAt(kit: Kit, spec: VehicleSpec, r: RouteSample)
    requires GoodKit(kit)
    ensures Placed(kit.shapeOf(spec), SampleOf(kit.gauge.trig, kit.shapeOf(spec), r)) == FootprintAt(kit, spec, r.pose)
  {
    var shape, q := kit.shapeOf(spec), SampleOf(kit.gauge.trig, kit.shapeOf(spec), r);
    SampleIs(kit.gauge.trig, shape, r);
    hide SampleOf, GoodKit, PlaceCorner, CornerAt;
    forall k | 0 <= k < |shape.corners| ensures Placed(shape, q)[k] == FootprintAt(kit, spec, r.pose)[k] {
      assert Placed(shape, q)[k] == PlaceCorner(shape, k, q.x, q.y, q.hx, q.hy);
      CornerIs(kit, spec, r.pose, k);
    }
  }

  lemma CornerIs(kit: Kit, spec: VehicleSpec, at: Pose, k: nat)
    requires GoodKit(kit) && k < |kit.shapeOf(spec).corners|
    ensures CornerAt(kit, spec, at, k)
         == PlaceCorner(kit.shapeOf(spec), k, at.x, at.y, kit.gauge.trig.cos(at.yaw), kit.gauge.trig.sin(at.yaw))
  {
    hide GoodGauge;
  }

  lemma SampleIs(t: Trig, shape: Shape, r: RouteSample)
    requires WellFormed(shape)
    ensures var q := SampleOf(t, shape, r);
            q.x == r.pose.x && q.y == r.pose.y && q.hx == t.cos(r.pose.yaw) && q.hy == t.sin(r.pose.yaw)
  {
    hide BoxOf, Place;
  }

  lemma SampleIsSolid(cfg: PlannerConfig, kit: Kit, spec: VehicleSpec, r: RouteSample)
    requires GoodKit(kit) && SolidKit(cfg, kit)
    ensures var shape := kit.shapeOf(spec);
            var q := SampleOf(kit.gauge.trig, shape, r);
            Boxed(shape, q) && UnitHeading(q) && Solid(shape) && kit.deltaOf(spec) >= 0.0
  {
    hide BoxOf, Place, UnitVector, Solid, GoodGauge;
  }

  lemma OccupiesIsCovers(kit: Kit, spec: VehicleSpec, r: RouteSample, p: Point)
    requires GoodKit(kit)
    ensures var shape := kit.shapeOf(spec);
            Occupies(kit, spec, r.pose, p) == Covers(shape, SampleOf(kit.gauge.trig, shape, r), p)
  {
    PlacedAt(kit, spec, r);
    hide InHull, FootprintAt, Place, BoxOf, GoodGauge;
  }

  lemma OccupiedIsFar(kit: Kit, x: VehicleSpec, r: RouteSample, y: VehicleSpec, s: RouteSample, m: real)
    requires GoodKit(kit)
    requires var a, b := kit.shapeOf(x), kit.shapeOf(y);
             BodiesFar(a, SampleOf(kit.gauge.trig, a, r), b, SampleOf(kit.gauge.trig, b, s), m)
    ensures VehiclesFar(kit, x, r.pose, y, s.pose, m)
  {
    hide Occupies, Covers, Far, SampleOf;
    forall p: Point, q: Point | Occupies(kit, x, r.pose, p) && Occupies(kit, y, s.pose, q) ensures Far(p, q, m) {
      OccupiesIsCovers(kit, x, r, p);
      OccupiesIsCovers(kit, y, s, q);
    }
  }

  lemma SamplesFar(cfg: PlannerConfig, kit: Kit, x: VehicleSpec, r: RouteSample, y: VehicleSpec, s: RouteSample)
    requires GoodKit(kit) && SolidKit(cfg, kit)
    requires SampleClear(kit.shapeOf(x), SampleOf(kit.gauge.trig, kit.shapeOf(x), r), kit.shapeOf(y),
                         SampleOf(kit.gauge.trig, kit.shapeOf(y), s), cfg.pairMargin + kit.deltaOf(x) + kit.deltaOf(y))
    ensures VehiclesFar(kit, x, r.pose, y, s.pose, cfg.pairMargin + kit.deltaOf(x) + kit.deltaOf(y))
  {
    var m := cfg.pairMargin + kit.deltaOf(x) + kit.deltaOf(y);
    SampleIsSolid(cfg, kit, x, r);
    SampleIsSolid(cfg, kit, y, s);
    assert m >= 0.0;
    hide SampleOf, BodiesFar, VehiclesFar, SampleClear, Boxed, Solid, UnitHeading, SolidKit, GoodGauge;
    ClearIsFar(kit.shapeOf(x), SampleOf(kit.gauge.trig, kit.shapeOf(x), r), kit.shapeOf(y),
               SampleOf(kit.gauge.trig, kit.shapeOf(y), s), m);
    OccupiedIsFar(kit, x, r, y, s, m);
  }

  lemma AheadOnRoute(f: State, id: Id, ell: real, i: nat)
    requires Executes(f, id) && GoodKit(f.st.kit) && Ahead(f, id, ell, i)
    ensures i < |OwnSweep(f, id, ell).pts| && i < |OwnRoute(f, id, ell)|
    ensures OwnSweep(f, id, ell).pts[i]
         == SampleOf(f.st.kit.gauge.trig, f.st.kit.shapeOf(f.execs[id].spec), OwnRoute(f, id, ell)[i])
  {
    hide OwnSweep, OwnRoute, SampleOf;
    AheadIsIndex(f, id, ell, i);
    OwnFootprint(f, id, ell, i);
  }

  lemma FarNow(f: State, a: Id, b: Id, ellA: real, i: nat, ellB: real, j: nat)
    requires Executes(f, a) && Executes(f, b) && GoodKit(f.st.kit) && SolidKit(f.st.cfg, f.st.kit)
    requires Ahead(f, a, ellA, i) && Ahead(f, b, ellB, j) && ApartAt(f, a, b, ellA, i, ellB, j)
    ensures FarAt(f, a, b, ellA, i, ellB, j)
  {
    hide OwnSweep, OwnRoute, SampleClear, SampleOf, VehiclesFar, SolidKit, Ahead, GoodGauge;
    AheadOnRoute(f, a, ellA, i);
    AheadOnRoute(f, b, ellB, j);
    SamplesFar(f.st.cfg, f.st.kit, f.execs[a].spec, OwnRoute(f, a, ellA)[i], f.execs[b].spec, OwnRoute(f, b, ellB)[j]);
  }

  /** Fleet safety. In every reachable state, for any two vehicles that are executing, every sample of
      the route the one drives, from the planner's cursor up to its own limit, is clear of every such
      sample of the route the other drives, by the pair margin and both sampling errors, for every
      offset of the rotation centre that is reserved for; the offset of the route itself is one. Any
      two points of the vehicles at these samples are that far apart. */
  lemma ExecutingVehiclesAreApart(f0: State, evs: seq<Event>, f: State, a: Id, b: Id)
    requires Reachable(f0, evs, f) && a != b && Executes(f, a) && Executes(f, b)
    ensures GoodKit(f.st.kit) && Contained(f, a) && Contained(f, b)
    ensures ReservedFor(f, a, f.execs[a].permission.motion.route.ell)
    ensures ReservedFor(f, b, f.execs[b].permission.motion.route.ell)
    ensures forall ellA: real, i: nat, ellB: real, j: nat :: Ahead(f, a, ellA, i) && Ahead(f, b, ellB, j)
              ==> ApartAt(f, a, b, ellA, i, ellB, j)
    ensures SolidKit(f.st.cfg, f.st.kit) ==>
              forall ellA: real, i: nat, ellB: real, j: nat :: Ahead(f, a, ellA, i) && Ahead(f, b, ellB, j)
                ==> FarAt(f, a, b, ellA, i, ellB, j)
  {
    ReachableIsGood(f0, evs, f);
    ContainedNow(f, a);
    ContainedNow(f, b);
    OwnEllIsReserved(f, a);
    OwnEllIsReserved(f, b);
    InvHasKit(f);
    hide Linked, StationInv, PairwiseDisjoint, Reachable, Contained, Ahead, ApartAt, Executes, GoodKit;
    hide SolidKit, FarAt;
    forall ellA: real, i: nat, ellB: real, j: nat | Ahead(f, a, ellA, i) && Ahead(f, b, ellB, j)
      ensures ApartAt(f, a, b, ellA, i, ellB, j)
    {
      ApartNow(f, a, b, ellA, i, ellB, j);
    }
    if SolidKit(f.st.cfg, f.st.kit) {
      forall ellA: real, i: nat, ellB: real, j: nat | Ahead(f, a, ellA, i) && Ahead(f, b, ellB, j)
        ensures FarAt(f, a, b, ellA, i, ellB, j)
      {
        FarNow(f, a, b, ellA, i, ellB, j);
      }
    }
  }

  lemma InvHasKit(f: State)
    requires FleetInv(f)
    ensures GoodKit(f.st.kit)
  {
    hide Linked, PairwiseDisjoint;
  }
}
