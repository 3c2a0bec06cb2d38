/** A run of the station, from its start, in which a Go is said that nobody stands by. Vehicle "b" is
    granted a way that ends where the way of "a" ends, so "a" is granted a beginning only and waits.
    Then "b" gives its way up, the rest is free for "a", and in the very turn in which "a" is told to
    go on it is refused, because no vehicle has moved for too long. */
module StalledRun {
  import opened ResetProtocol
  import opened Geometry
  import opened Bodies
  import opened Sweep
  import opened RouteModel
  import opened PlannerModel
  import opened Reservations
  import opened PlannerOut
  import opened PlannerTurn
  import opened PlannerRuns
  import opened StalledExtension

  const CFG := PlannerConfig(0.1, 0.12, 0.05, 0.45, 0.25, 0.2, 10.0, 0.5)
  const SPEC := VehicleSpec(Omni, Footprint(0.1, 0.1, 0.0, 0.0), 1.0, 1.0, 1.0, 1.0, 1.0, 0.0)
  const CORNERS := [Point(-0.1, -0.1), Point(0.1, -0.1), Point(0.1, 0.1), Point(-0.1, 0.1)]
  const SQUARE := Shape(false, CORNERS, 0.2)
  const EMPTY := World([], Sweep.Fence(false, 0.0, 0.0, 0.0, 0.0))

  function ShapeOf(spec: VehicleSpec): Shape { Shape(spec.model == Unicycle, CORNERS, 0.2) }
  function NoError(spec: VehicleSpec): real { 0.0 }
  function NoCost(p: Pose, m: Model, q: Sample): real { 0.0 }

  /** All headings are zero, and all ways run along an axis. */
  function One(x: real): real { 1.0 }
  function Zero(x: real): real { 0.0 }
  function Ahead0(x: real, y: real): real { 0.0 }
  function Along(x: real, y: real): real { Abs(x) + Abs(y) }

  const GAUGE := Gauge(Trig(One, Zero, Ahead0, Along), 10.0, 10.0)
  const KIT := Kit(ShapeOf, NoError, NoCost, GAUGE)

  function Start(): Station { EmptyStation(CFG, KIT, EMPTY) }

  lemma KitIsGood()
    ensures GoodKit(KIT)
  {
  }

  // ---------------------------------------------------------------- the reports

  function Report(id: Id, generation: nat, ack: nat, certified: bool, at: Pose, phase: Phase): Vehicle {
    Vehicle(id, 1, generation, ack, certified, true, SPEC, at, 1.0, 0.0, at, phase, false)
  }

  const HOME_A := Pose(0.0, 0.0, 0.0)
  const HOME_B := Pose(1.0, 5.0, 0.0)
  const MEET := Pose(1.0, 0.0, 0.0)

  const REPORTS := [
    Report("a", 1, 0, false, HOME_A, Requesting), Report("a", 1, 1, true, HOME_A, Requesting),
    Report("b", 1, 0, false, HOME_B, Requesting), Report("b", 1, 2, true, HOME_B, Requesting),
    Report("a", 1, 4, false, HOME_A, Phase.Waiting),
    Report("b", 2, 3, false, HOME_B, Requesting), Report("b", 2, 5, true, HOME_B, Requesting)]

  /** A body at its place, in its request, with what is reserved for it. */
  ghost predicate Stands(b: Body, at: Pose, generation: nat, r: Reservation, c: Certificate) {
    && b.spec == SPEC && b.shape == SQUARE && b.delta == 0.0 && b.pose == at && b.hx == 1.0 && b.hy == 0.0
    && b.session == 1 && b.generation == generation && b.reservation == r && b.certificate == c
    && !b.rejected && b.grants <= 1
  }

  ghost predicate Scene(st: Station, next: nat) {
    st.cfg == CFG && st.kit == KIT && st.world == EMPTY && !st.halted && st.next == next
  }

  /** Only this body has changed. */
  ghost predicate OnlyChanges(st: Station, r: Station, id: Id) {
    id in r.bodies && r.bodies == st.bodies[id := r.bodies[id]]
  }

  lemma FirstOnDesk(t: Desk, v: Vehicle)
    requires t.id == v.id && !t.halted && t.next < 10 && t.body == NewBody(KIT, v)
    requires v == Report(v.id, 1, 0, false, v.pose, Requesting)
    ensures var r := SyncBody(KIT, t, v, true);
            && r.id == t.id && !r.halted && r.next == t.next + 1 && r.body.phase == Requesting && r.body.grants == 0
            && Stands(r.body, v.pose, 1, Unreserved, AwaitingStop(t.next))
  {
    hide StaleQuiescent, SyncRest;
    var t1 := t.(body := Anchored(KIT, t.body, v, true));
    var t2 := Requested(t1, v, true, true);
    assert SyncBody(KIT, t, v, true) == SyncRest(KIT, t2, v, true);
    assert Stands(t2.body, v.pose, 1, Unreserved, AwaitingStop(t.next)) && t2.body.phase == Requesting;
    assert t2.id == t.id && !t2.halted && t2.next == t.next + 1 && t2.body.grants == 0;
    NothingYet(t2, v);
  }

  lemma NothingYet(t: Desk, v: Vehicle)
    requires t.body.reservation == Unreserved
    ensures SyncRest(KIT, t, v, true) == t
  {
    assert Withdrawn(t, v) == t;
  }

  lemma ReceiptOnDesk(t: Desk, v: Vehicle, p: Plan, c: Certificate)
    requires t.id == v.id && !t.halted && p.session == 1 && p.generation == 1
    requires v == Report(v.id, 1, p.grantId, false, v.pose, Phase.Waiting)
    requires Stands(t.body, v.pose, 1, Reserved(p, AwaitGoReceipt), c)
    ensures var r := SyncBody(KIT, t, v, false);
            && r == t.(body := r.body) && r.body.phase == Phase.Waiting && r.body.progress == t.body.progress
            && Stands(r.body, v.pose, 1, Reserved(p, GoReceived), c)
  {
    hide StaleQuiescent, SyncRest;
    var t1 := t.(body := Anchored(KIT, t.body, v, false));
    assert SyncBody(KIT, t, v, false) == SyncRest(KIT, t1, v, false);
    assert t1.body.phase == Phase.Waiting && Stands(t1.body, v.pose, 1, Reserved(p, AwaitGoReceipt), c);
    assert t1.body.progress == t.body.progress;
    OnlyReceipt(t1, v, p);
  }

  lemma OnlyReceipt(t: Desk, v: Vehicle, p: Plan)
    requires !t.halted && t.body.generation == 1 && t.body.reservation == Reserved(p, AwaitGoReceipt)
    requires v == Report(v.id, 1, p.grantId, false, v.pose, Phase.Waiting) && t.body.phase == Phase.Waiting
    requires p.session == 1 && p.generation == 1
    ensures SyncRest(KIT, t, v, false) == t.(body := t.body.(reservation := Reserved(p, GoReceived)))
  {
    assert Withdrawn(t, v) == t;
    assert Released(KIT, t, v, false) == t;
  }

  lemma HearsFirst(st: Station, v: Vehicle)
    requires Shaped(st) && Scene(st, st.next) && st.next < 10 && v.id !in st.bodies
    requires v == Report(v.id, 1, 0, false, v.pose, Requesting)
    ensures var r := SyncVehicle(st, v);
            && Scene(r, st.next + 1) && OnlyChanges(st, r, v.id) && r.order == InsertId(st.order, v.id)
            && Stands(r.bodies[v.id], v.pose, 1, Unreserved, AwaitingStop(st.next))
            && r.bodies[v.id].phase == Requesting && r.bodies[v.id].grants == 0
  {
    SyncIsPut(st, v);
    hide Touches, SyncBody, SyncVehicle, Shaped;
    FirstOnDesk(WithVehicle(st, v).At(v.id), v);
  }

  lemma StopOnDesk(t: Desk, v: Vehicle, generation: nat, res: Reservation)
    requires t.id == v.id && !t.halted && generation > 0 && v.ack > 0
    requires v == Report(v.id, generation, v.ack, true, v.pose, Requesting)
    requires Stands(t.body, v.pose, generation, res, AwaitingStop(v.ack))
    requires res.Unreserved? || res.phase.Retiring?
    ensures var r := SyncBody(KIT, t, v, false);
            && r == t.(body := r.body) && r.body.phase == Requesting && r.body.grants <= t.body.grants
            && Stands(r.body, v.pose, generation, Unreserved, Certified(v.ack))
  {
    hide StaleQuiescent, SyncRest;
    var t1 := t.(body := Anchored(KIT, t.body, v, false));
    assert SyncBody(KIT, t, v, false) == SyncRest(KIT, t1, v, false);
    assert t1.body.phase == Requesting && Stands(t1.body, v.pose, generation, res, AwaitingStop(v.ack));
    RestOnDesk(t1, v, generation, res);
  }

  lemma RestOnDesk(t: Desk, v: Vehicle, generation: nat, res: Reservation)
    requires t.id == v.id && !t.halted && generation > 0 && v.ack > 0 && t.body.phase == Requesting
    requires v == Report(v.id, generation, v.ack, true, v.pose, Requesting)
    requires Stands(t.body, v.pose, generation, res, AwaitingStop(v.ack))
    requires res.Unreserved? || res.phase.Retiring?
    ensures var r := SyncRest(KIT, t, v, false);
            && r == t.(body := r.body) && r.body.phase == Requesting && r.body.grants <= t.body.grants
            && Stands(r.body, v.pose, generation, Unreserved, Certified(v.ack))
  {
    assert Withdrawn(t, v) == t;
    assert Released(KIT, t, v, false) == t.(body := ReleasedBody(KIT, t.body, v));
  }

  lemma HearsStop(st: Station, v: Vehicle, generation: nat, res: Reservation)
    requires Shaped(st) && Scene(st, st.next) && v.id in st.bodies && generation > 0
    requires v == Report(v.id, generation, v.ack, true, v.pose, Requesting) && v.ack > 0
    requires Stands(st.bodies[v.id], v.pose, generation, res, AwaitingStop(v.ack))
    requires res.Unreserved? || res.phase.Retiring?
    ensures var r := SyncVehicle(st, v);
            && Scene(r, st.next) && OnlyChanges(st, r, v.id) && r.order == st.order
            && Stands(r.bodies[v.id], v.pose, generation, Unreserved, Certified(v.ack))
            && r.bodies[v.id].phase == Requesting && r.bodies[v.id].grants <= st.bodies[v.id].grants
  {
    SyncIsPut(st, v);
    hide Touches, SyncBody, SyncVehicle, Shaped;
    StopOnDesk(st.At(v.id), v, generation, res);
  }

  lemma HearsReceipt(st: Station, v: Vehicle, p: Plan, c: Certificate)
    requires Shaped(st) && Scene(st, st.next) && v.id in st.bodies
    requires v == Report(v.id, 1, p.grantId, false, v.pose, Phase.Waiting)
    requires Stands(st.bodies[v.id], v.pose, 1, Reserved(p, AwaitGoReceipt), c)
    requires p.session == 1 && p.generation == 1
    ensures var r := SyncVehicle(st, v);
            && Scene(r, st.next) && OnlyChanges(st, r, v.id) && r.order == st.order
            && Stands(r.bodies[v.id], v.pose, 1, Reserved(p, GoReceived), c)
            && r.bodies[v.id].phase == Phase.Waiting && r.bodies[v.id].progress == st.bodies[v.id].progress
  {
    SyncIsPut(st, v);
    hide Touches, SyncBody, SyncVehicle, Shaped;
    ReceiptOnDesk(st.At(v.id), v, p, c);
  }

  lemma RequestOnDesk(t: Desk, v: Vehicle, p: Plan, phase: ReservedPhase, c: Certificate)
    requires t.id == v.id && !t.halted && t.next < 10
    requires v == Report(v.id, 2, v.ack, false, v.pose, Requesting)
    requires Stands(t.body, v.pose, 1, Reserved(p, phase), c)
    ensures var r := SyncBody(KIT, t, v, false);
            && r.id == t.id && !r.halted && r.next == t.next + 1 && r.body.phase == Requesting
            && Stands(r.body, v.pose, 2, Reserved(p, Retiring), AwaitingStop(t.next))
  {
    hide StaleQuiescent, SyncRest;
    var t1 := t.(body := Anchored(KIT, t.body, v, false));
    var t2 := Requested(t1, v, true, false);
    assert SyncBody(KIT, t, v, false) == SyncRest(KIT, t2, v, true);
    assert Stands(t2.body, v.pose, 2, Reserved(p, Retiring), AwaitingStop(t.next)) && t2.body.phase == Requesting;
    assert t2.id == t.id && !t2.halted && t2.next == t.next + 1;
    NothingMore(t2, v, p);
  }

  lemma NothingMore(t: Desk, v: Vehicle, p: Plan)
    requires t.body.reservation == Reserved(p, Retiring)
    ensures SyncRest(KIT, t, v, true) == t
  {
    assert Withdrawn(t, v) == t;
  }

  lemma HearsNewRequest(st: Station, v: Vehicle, p: Plan, phase: ReservedPhase, c: Certificate)
    requires Shaped(st) && Scene(st, st.next) && st.next < 10 && v.id in st.bodies
    requires v == Report(v.id, 2, v.ack, false, v.pose, Requesting)
    requires Stands(st.bodies[v.id], v.pose, 1, Reserved(p, phase), c)
    ensures var r := SyncVehicle(st, v);
            && Scene(r, st.next + 1) && OnlyChanges(st, r, v.id) && r.order == st.order
            && Stands(r.bodies[v.id], v.pose, 2, Reserved(p, Retiring), AwaitingStop(st.next))
            && r.bodies[v.id].phase == Requesting
  {
    SyncIsPut(st, v);
    hide Touches, SyncBody, SyncVehicle, Shaped;
    RequestOnDesk(st.At(v.id), v, p, phase, c);
  }

  // ---------------------------------------------------------------- the ways

  function Way(to: Pose): Choice { Choice([], to, true, 0.0, 0.0, []) }

  function Mark(at: Pose, s: real): Sample { MakeSample(SQUARE, at.x, at.y, 1.0, 0.0, s) }

  ghost predicate Marks(sweep: SampleSet, from: Pose, to: Pose, length: real) {
    sweep.pts == [Mark(from, 0.0), Mark(to, length), Mark(to, length)]
  }

  lemma StraightWay(from: Pose, to: Pose)
    requires from.yaw == to.yaw == 0.0 && 0.0 < SLIVER <= Along(to.x - from.x, to.y - from.y) <= 10.0
    ensures var r := BuiltRoute(GAUGE.trig, from, [], to, 0.0);
            var n := Along(to.x - from.x, to.y - from.y);
            SamplesOf(GAUGE, r, false) == [RouteSample(from, 0.0), RouteSample(to, n), RouteSample(to, n)]
  {
    var r := BuiltRoute(GAUGE.trig, from, [], to, 0.0);
    var n := Along(to.x - from.x, to.y - from.y);
    assert r.vertices == [Point(from.x, from.y), Point(to.x, to.y)];
    assert Distance(GAUGE.trig, r.vertices[0], r.vertices[1]) == n;
    assert Count(n, 10.0) == 1;
    var k0 := TrackTo(GAUGE, r, false, 0);
    assert k0 == Track([RouteSample(from, 0.0)], 0.0, 0.0);
    OnePart(from, to, n);
    assert TrackTo(GAUGE, r, false, 1) == Driven(GAUGE, 0.0, k0, r.vertices[0], r.vertices[1]);
  }

  lemma OnePart(from: Pose, to: Pose, n: real)
    ensures MovesTo(GAUGE.trig, 0.0, Point(from.x, from.y), Point(to.x, to.y), 0.0, 0.0, n, 1, 1)
         == [RouteSample(Pose(to.x, to.y, 0.0), n)]
  {
    assert MovesTo(GAUGE.trig, 0.0, Point(from.x, from.y), Point(to.x, to.y), 0.0, 0.0, n, 1, 0) == [];
  }

  lemma WayIsMarked(from: Pose, to: Pose)
    requires from.yaw == to.yaw == 0.0 && 0.0 < SLIVER <= Along(to.x - from.x, to.y - from.y) <= 10.0
    requires GoodGauge(GAUGE)
    ensures Marks(MadeSweep(GAUGE, SQUARE, Omni, RouteDecl(from, [], to, 0.0, true), 0.0), from, to,
                  Along(to.x - from.x, to.y - from.y))
  {
    StraightWay(from, to);
    hide SamplesOf, BuiltRoute, ChunksOf, Place, BoxOf;
  }

  /** What is held after an admission: one variant of three samples, granted up to `limit`. */
  ghost predicate Rides(p: Plan, from: Pose, to: Pose, limit: real, hi: nat, grantId: nat) {
    && p.session == 1 && p.generation == 1 && p.route == RouteDecl(from, [], to, 0.0, true) && p.certs == []
    && |p.sets| == 1 && Marks(p.sets[0], from, to, Along(to.x - from.x, to.y - from.y))
    && |p.cursor| == 1 && p.hi == [hi] && p.sLimit == limit && p.grantId == grantId
    && p.total == Along(to.x - from.x, to.y - from.y)
  }

  lemma PlanIsMarked(st: Station, id: Id, from: Pose, to: Pose, generation: nat, r: Reservation, c: Certificate)
    requires Shaped(st) && Scene(st, st.next) && id in st.bodies && Stands(st.bodies[id], from, generation, r, c)
    requires from.yaw == to.yaw == 0.0 && SLIVER <= Along(to.x - from.x, to.y - from.y) <= 10.0
    ensures Viable(st, id, Way(to))
    ensures var p := PlanFor(st, id, Way(to)); var n := Along(to.x - from.x, to.y - from.y);
            && p == Plan(0, 0, RouteDecl(from, [], to, 0.0, true), p.sets, [], [], 0.0, n, 0, [])
            && |p.sets| == 1 && Marks(p.sets[0], from, to, n)
  {
    KitIsGood();
    WayIsMarked(from, to);
    hide MadeSweep, MakeSample, Shaped;
    var b := st.bodies[id];
    assert KitShaped(st.kit, b) by { ShapedAt(st, id); }
    var p := PlanFor(st, id, Way(to));
    assert p.sets == SetsFor(KIT, b, Way(to));
    assert p.sets[0] == MadeSweep(GAUGE, SQUARE, Omni, RouteFor(b, Way(to)), 0.0);
    assert p.total == TotalOf(p.sets, 1) == Max(TotalOf(p.sets, 0), p.sets[0].pts[2].s);
    assert CertsFor(st, id, p.sets, []) == [];
  }

  lemma ShapedAt(st: Station, id: Id)
    requires Shaped(st) && id in st.bodies
    ensures KitShaped(st.kit, st.bodies[id])
  {
  }

  // ---------------------------------------------------------------- what the verifier answers

  /** More than the two radii and the margin apart. */
  lemma FarApart(p: Sample, q: Sample)
    requires Dist2(p.x, p.y, q.x, q.y) >= 1.0
    ensures SampleClear(SQUARE, p, SQUARE, q, 0.1)
  {
    hide ExactClear, Separated;
  }

  /** Where everybody else is parked and away from the way, it is free. */
  lemma WayIsFree(y: Query, sets: seq<SampleSet>, from: seq<nat>)
    requires WellFormedSweeps(y, sets, from) && y.world == EMPTY && y.certs == []
    requires forall o :: o in y.bodies && o != y.self ==> !y.bodies[o].HasPlan()
    requires forall o, v: nat, i: nat :: o in y.bodies && o != y.self && Asked(sets, from, v, i) ==>
               SampleClear(y.shape, sets[v].pts[i], y.bodies[o].shape, y.bodies[o].At(), y.ParkedMargin())
    ensures NaiveAnswer(y, sets, from, false, Unbounded)
  {
    hide SampleClear, WellFormedQuery, OutsideFence, SweepOf;
    forall v: nat, i: nat | Asked(sets, from, v, i) ensures !HardAt(y, sets, v, i) && !SoftAt(y, sets, v, i) {
      NothingHit(y, sets, v, i);
    }
  }

  lemma NothingHit(y: Query, sets: seq<SampleSet>, v: nat, i: nat)
    requires WellFormedQuery(y) && y.world == EMPTY && y.certs == [] && v < |sets| && i < |sets[v].pts|
    requires forall o :: o in y.bodies && o != y.self ==>
               !y.bodies[o].HasPlan()
               && SampleClear(y.shape, sets[v].pts[i], y.bodies[o].shape, y.bodies[o].At(), y.ParkedMargin())
    ensures !HardAt(y, sets, v, i) && !SoftAt(y, sets, v, i)
  {
    hide SampleClear, WellFormedBody;
  }

  /** Footprints at the same place are in conflict. */
  lemma SamePlaceHits(p: Sample, q: Sample, s: real)
    requires p == MakeSample(SQUARE, p.x, p.y, 1.0, 0.0, s) && p.x == q.x && p.y == q.y
    requires q.box == p.box && q.hx == 1.0 && q.hy == 0.0
    ensures !SampleClear(SQUARE, p, SQUARE, q, 0.1)
  {
    var a := Placed(SQUARE, p);
    assert Placed(SQUARE, q) == a && |a| == 4;
    assert InBox(a[0], p.box);
    forall e | 0 <= e < 4 ensures !GapOnEdge(a, e, a, a, 0.1) && !PositiveOnEdge(a, e, a, a) {
      NoGapWithItself(a, e);
    }
    hide GapOnEdge, PositiveOnEdge, CornersFar, BoxOf;
  }

  lemma NoGapWithItself(a: seq<Point>, e: nat)
    requires e < |a|
    ensures !GapOnEdge(a, e, a, a, 0.1) && !PositiveOnEdge(a, e, a, a)
  {
    var t := Edge(a, e);
    var d := Dot(-t.1, t.0, a[0]) - Dot(-t.1, t.0, a[0]);
    assert d == 0.0;
  }

  // ---------------------------------------------------------------- the admissions

  lemma MarkAt(at: Pose, s: real)
    ensures var q := Mark(at, s); q.x == at.x && q.y == at.y && q.hx == 1.0 && q.hy == 0.0 && q.s == s
    ensures Mark(at, s).box == Mark(at, 0.0).box
  {
  }

  /** Only `o` is there, and it rides from its home to the meeting place. */
  ghost predicate MeetsRider(y: Query, sets: seq<SampleSet>, o: Id) {
    && WellFormedQuery(y) && y.world == EMPTY && y.certs == [] && y.cfg == CFG
    && y.shape == SQUARE && y.delta == 0.0 && o in y.bodies && o != y.self
    && (forall x :: x in y.bodies ==> x == o || x == y.self)
    && |sets| == 1 && Marks(sets[0], HOME_A, MEET, 1.0)
    && var b := y.bodies[o];
    && b.reservation.Reserved? && !b.IsRetiring() && b.shape == SQUARE && b.delta == 0.0
    && b.pose == HOME_B && b.hx == 1.0 && b.hy == 0.0
    && Rides(b.reservation.plan, HOME_B, MEET, UNLIMITED, 3, 3) && b.reservation.plan.cursor == [0]
  }

  lemma SharedSample(y: Query, sets: seq<SampleSet>, o: Id, i: nat)
    requires MeetsRider(y, sets, o) && i < 3
    ensures !HardAt(y, sets, 0, i) && (i == 0 ==> !SoftAt(y, sets, 0, i))
  {
    hide SampleClear, WellFormedBody, MakeSample;
    MarkAt(HOME_A, 0.0);
    MarkAt(HOME_B, 0.0);
    MarkAt(MEET, 5.0);
    if i == 0 {
      var q, other := sets[0].pts[0], y.bodies[o];
      FarApart(q, other.At());
      FarApart(q, Mark(HOME_B, 0.0));
      FarApart(q, Mark(MEET, 5.0));
      forall w: nat, r: nat ensures !SampleHit(y, q, o, w, r) {}
    }
  }

  lemma SharedPlace(y: Query, sets: seq<SampleSet>, o: Id)
    requires MeetsRider(y, sets, o)
    ensures SoftAt(y, sets, 0, 1)
  {
    hide SampleClear, WellFormedBody, MakeSample;
    MarkAt(MEET, 1.0);
    MarkAt(MEET, 5.0);
    var q, other := sets[0].pts[1], y.bodies[o];
    assert q == Mark(MEET, 1.0) && other.reservation.plan.sets[0].pts[1] == Mark(MEET, 5.0);
    SamePlaceHits(Mark(MEET, 1.0), Mark(MEET, 5.0), 1.0) by {
      assert Mark(MEET, 1.0) == MakeSample(SQUARE, 1.0, 0.0, 1.0, 0.0, 1.0);
    }
    assert SampleHit(y, q, o, 0, 1);
    assert Mover(y, o, false) && MoverHit(y, q, o);
  }

  /** A mover ends its way on the same place: free before it, shared from there on. */
  lemma WayIsShared(y: Query, sets: seq<SampleSet>, o: Id)
    requires MeetsRider(y, sets, o) && WellFormedSweeps(y, sets, [0])
    ensures NaiveAnswer(y, sets, [0], false, At(1.0))
  {
    hide HardAt, SoftAt, WellFormedQuery, SweepOf, Rides, MakeSample;
    SharedPlace(y, sets, o);
    MarkAt(HOME_A, 0.0);
    MarkAt(MEET, 1.0);
    forall v: nat, i: nat | Asked(sets, [0], v, i)
      ensures !HardAt(y, sets, v, i) && (SoftAt(y, sets, v, i) ==> sets[v].pts[i].s >= 1.0)
    {
      SharedSample(y, sets, o, i);
    }
    assert Asked(sets, [0], 0, 1) && sets[0].pts[1].s == 1.0;
  }

  // ---------------------------------------------------------------- the admissions

  /** Ready for a route: certified in its first request, at home. */
  ghost predicate Ready(st: Station, id: Id, at: Pose, brake: nat) {
    && id in st.bodies && Stands(st.bodies[id], at, 1, Unreserved, Certified(brake))
    && st.bodies[id].phase == Requesting && st.bodies[id].grants == 0
  }

  ghost predicate Both(st: Station, next: nat) {
    Scene(st, next) && st.bodies.Keys == {"a", "b"} && st.order == ["a", "b"]
  }

  const OPEN_WAY := Turn(Violation(false, false, Unbounded, None), [3])
  const SHARED_WAY := Turn(Violation(false, false, At(1.0), Some("b")), [1])

  /** An admitted way is held with its cursor at the start. */
  lemma AdmitGives(st: Station, id: Id, from: Pose, to: Pose, brake: nat, turn: Turn, hi: nat)
    requires Shaped(st) && Scene(st, st.next) && st.next < 10 && Ready(st, id, from, brake) && turn.hi == [hi]
    requires from.yaw == to.yaw == 0.0 && SLIVER <= Along(to.x - from.x, to.y - from.y) <= 10.0
    requires !turn.answer.hard && !TooShort(CFG, turn.answer.s)
    ensures Admits(st, TryMove(id, Way(to)), turn.answer)
    ensures var r := AdmitOne(st, TryMove(id, Way(to)), turn);
            && Scene(r, st.next + 1) && OnlyChanges(st, r, id) && r.order == st.order
            && var b := r.bodies[id];
            && b.reservation.Reserved? && b.reservation.plan.cursor == [0] && b.progress == from
            && Stands(b, from, 1, Reserved(b.reservation.plan, AwaitGoReceipt), Certified(brake))
            && Rides(b.reservation.plan, from, to, Limit(CFG, turn.answer.s), hi, st.next)
  {
    PlanIsMarked(st, id, from, to, 1, Unreserved, Certified(brake));
    hide PlanFor, Viable, Shaped, Marks, Along;
    var p := PlanFor(st, id, Way(to)).(sLimit := Limit(CFG, turn.answer.s));
    InstallOnDesk(st.At(id), p, from, to, brake, hi);
    hide InstallPlan;
  }

  lemma InstallOnDesk(t: Desk, p: Plan, from: Pose, to: Pose, brake: nat, hi: nat)
    requires !t.halted && t.next < 10 && t.body.grants == 0
    requires Stands(t.body, from, 1, Unreserved, Certified(brake))
    requires p.route == RouteDecl(from, [], to, 0.0, true) && p.certs == [] && |p.sets| == 1
    requires Marks(p.sets[0], from, to, p.total) && p.total == Along(to.x - from.x, to.y - from.y)
    ensures var r := InstallPlan(t, p, [hi]);
            && r.id == t.id && !r.halted && r.next == t.next + 1
            && r.body.reservation.Reserved? && r.body.reservation.plan.cursor == [0] && r.body.progress == from
            && Stands(r.body, from, 1, Reserved(r.body.reservation.plan, AwaitGoReceipt), Certified(brake))
            && Rides(r.body.reservation.plan, from, to, p.sLimit, hi, t.next)
  {
    hide Marks, Along;
    assert Zeros(1) == [0];
  }

  lemma WayOfB(st: Station)
    requires StationInv(st) && Both(st, 3) && Ready(st, "a", HOME_A, 1) && Ready(st, "b", HOME_B, 2)
    ensures MoveRight(st, TryMove("b", Way(MEET)), OPEN_WAY)
  {
    PlanIsMarked(st, "b", HOME_B, MEET, 1, Unreserved, Certified(2));
    var move := TryMove("b", Way(MEET));
    CandidateIsGood(st, move);
    var p := Candidate(st, move);
    ForB(st, p);
    hide PlanFor, Viable, NaiveAnswer, GoodCandidate, StationInv, MakeSample;
    assert p.certs == [] && Zeros(1) == [0];
    MarkAt(HOME_B, 0.0);
    MarkAt(MEET, 5.0);
  }

  lemma ForB(st: Station, p: Plan)
    requires StationInv(st) && Both(st, 3) && Ready(st, "a", HOME_A, 1) && Ready(st, "b", HOME_B, 2)
    requires GoodCandidate(st.kit, st.bodies["b"], p) && p.certs == []
    requires |p.sets| == 1 && Marks(p.sets[0], HOME_B, MEET, 5.0)
    ensures NaiveAnswer(st.Ask("b", []), p.sets, Zeros(1), false, Unbounded)
  {
    var y := st.Ask("b", []);
    hide SampleClear, Swept, MakeSample, SweepOf;
    assert WellFormedSweeps(y, p.sets, Zeros(1));
    MarkAt(HOME_A, 0.0);
    MarkAt(HOME_B, 0.0);
    MarkAt(MEET, 5.0);
    forall o, v: nat, i: nat | o in y.bodies && o != y.self && Asked(p.sets, Zeros(1), v, i)
      ensures SampleClear(y.shape, p.sets[v].pts[i], y.bodies[o].shape, y.bodies[o].At(), y.ParkedMargin())
    {
      FarApart(p.sets[v].pts[i], y.bodies[o].At());
    }
    WayIsFree(y, p.sets, Zeros(1));
  }

  lemma WayOfA(st: Station)
    requires StationInv(st) && Both(st, 4) && Ready(st, "a", HOME_A, 1)
    requires Rider(st, 2)
    ensures MoveRight(st, TryMove("a", Way(MEET)), SHARED_WAY)
  {
    PlanIsMarked(st, "a", HOME_A, MEET, 1, Unreserved, Certified(1));
    var move := TryMove("a", Way(MEET));
    CandidateIsGood(st, move);
    var p := Candidate(st, move);
    ForA(st, p);
    PrefixOfA(p);
    hide PlanFor, Viable, NaiveAnswer, GoodCandidate, StationInv, Marks, Rider, Ready, PrefixesEnd;
  }

  lemma PrefixOfA(p: Plan)
    requires |p.sets| == 1 && Marks(p.sets[0], HOME_A, MEET, 1.0)
    ensures PrefixesEnd(p, Limit(CFG, At(1.0)), [1])
  {
    MarkAt(HOME_A, 0.0);
    MarkAt(MEET, 1.0);
    hide MakeSample;
  }

  /** "b" holds its way, from the start. */
  ghost predicate Rider(st: Station, brake: nat) {
    && "b" in st.bodies && st.bodies["b"].reservation.Reserved?
    && var p := st.bodies["b"].reservation.plan;
    && Stands(st.bodies["b"], HOME_B, 1, Reserved(p, AwaitGoReceipt), Certified(brake))
    && p.cursor == [0] && Rides(p, HOME_B, MEET, UNLIMITED, 3, 3)
  }

  lemma ForA(st: Station, p: Plan)
    requires StationInv(st) && Both(st, 4) && Ready(st, "a", HOME_A, 1) && Rider(st, 2)
    requires GoodCandidate(st.kit, st.bodies["a"], p) && p.certs == []
    requires |p.sets| == 1 && Marks(p.sets[0], HOME_A, MEET, 1.0)
    ensures NaiveAnswer(st.Ask("a", []), p.sets, Zeros(1), false, At(1.0))
  {
    var y := st.Ask("a", []);
    hide SampleClear, Swept, MakeSample, SweepOf, NaiveAnswer;
    assert WellFormedSweeps(y, p.sets, Zeros(1));
    assert Zeros(1) == [0];
    WayIsShared(y, p.sets, "b");
  }

  // ---------------------------------------------------------------- the run

  ghost predicate Reached(st: Station) { Reaches(REPORTS, Start(), st) && Sound(Start(), st) }

  lemma StartIsReached()
    ensures Reached(Start()) && Scene(Start(), 1) && Shaped(Start())
  {
    KitIsGood();
    ReachesItself(REPORTS, Start());
    assert Start().bodies == map[];
  }

  lemma ReachedIsShaped(st: Station)
    requires Reached(st)
    ensures Shaped(st) && StationInv(st)
  {
    hide PairwiseDisjoint, Speaks, Reaches, WellFormedBody, GoodWorld, KitShaped, GoodKit;
  }

  lemma Hears(st: Station, k: nat)
    requires Reached(st) && k < |REPORTS|
    ensures Shaped(st) && Reached(SyncVehicle(st, REPORTS[k]))
  {
    ReachedIsShaped(st);
    hide PairwiseDisjoint, Speaks, WellFormedBody, GoodWorld, KitShaped, SyncVehicle, ActStep, Reaches, Shaped;
    SyncIsSound(Start(), st, REPORTS[k]);
    ReachesOneMore(REPORTS, Start(), st, SyncVehicle(st, REPORTS[k]));
  }

  lemma Tried(st: Station, move: Move, turn: Turn)
    requires Reached(st) && StationInv(st) && MoveRight(st, move, turn)
    ensures Reached(AdmitOne(st, move, turn))
  {
    hide Sound, AdmitOne, MoveRight, Reaches, StationInv, ActStep;
    AdmitOneSound(Start(), st, move, turn);
    ReachesOneMore(REPORTS, Start(), st, AdmitOne(st, move, turn));
  }

  lemma BothReport() returns (st: Station)
    ensures Reached(st) && Both(st, 3) && Ready(st, "a", HOME_A, 1) && Ready(st, "b", HOME_B, 2)
  {
    hide SyncVehicle, Reached, Shaped;
    var s0 := Start();
    StartIsReached();
    Hears(s0, 0);
    HearsFirst(s0, REPORTS[0]);
    var s1 := SyncVehicle(s0, REPORTS[0]);
    Hears(s1, 1);
    HearsStop(s1, REPORTS[1], 1, Unreserved);
    var s2 := SyncVehicle(s1, REPORTS[1]);
    Hears(s2, 2);
    HearsFirst(s2, REPORTS[2]);
    var s3 := SyncVehicle(s2, REPORTS[2]);
    Hears(s3, 3);
    HearsStop(s3, REPORTS[3], 1, Unreserved);
    st := SyncVehicle(s3, REPORTS[3]);
    assert !LexLess("b", "a");
  }

  lemma BothAreGranted() returns (st: Station)
    ensures Reached(st) && Both(st, 5) && Rider(st, 2) && Riding(st, AwaitGoReceipt)
    ensures st.bodies["a"].reservation.plan.cursor == [0]
  {
    hide AdmitOne, MoveRight, Reached, Marks;
    var s0 := BothReport();
    ReachedIsShaped(s0);
    WayOfB(s0);
    Tried(s0, TryMove("b", Way(MEET)), OPEN_WAY);
    AdmitGives(s0, "b", HOME_B, MEET, 2, OPEN_WAY, 3);
    var s1 := AdmitOne(s0, TryMove("b", Way(MEET)), OPEN_WAY);
    ReachedIsShaped(s1);
    WayOfA(s1);
    Tried(s1, TryMove("a", Way(MEET)), SHARED_WAY);
    AdmitGives(s1, "a", HOME_A, MEET, 1, SHARED_WAY, 1);
    st := AdmitOne(s1, TryMove("a", Way(MEET)), SHARED_WAY);
  }

  /** "a" holds the beginning of its way. */
  ghost predicate Riding(st: Station, phase: ReservedPhase) {
    && "a" in st.bodies && st.bodies["a"].reservation.Reserved?
    && var p := st.bodies["a"].reservation.plan;
    && Stands(st.bodies["a"], HOME_A, 1, Reserved(p, phase), Certified(1))
    && Rides(p, HOME_A, MEET, 0.55, 1, 4) && st.bodies["a"].progress == HOME_A
  }

  /** Before the last turn: "a" waits at the end of what it was granted, "b" has given its way up. */
  ghost predicate Waits(st: Station) {
    && Both(st, 6) && Riding(st, GoReceived) && st.bodies["a"].phase == Phase.Waiting
    && Stands(st.bodies["b"], HOME_B, 2, Unreserved, Certified(5))
  }

  lemma OneGivesUp() returns (st: Station)
    ensures Reached(st) && Waits(st)
  {
    hide SyncVehicle, Reached, Shaped, Marks;
    var s0 := BothAreGranted();
    var p, q := s0.bodies["a"].reservation.plan, s0.bodies["b"].reservation.plan;
    Hears(s0, 4);
    HearsReceipt(s0, REPORTS[4], p, Certified(1));
    var s1 := SyncVehicle(s0, REPORTS[4]);
    Hears(s1, 5);
    HearsNewRequest(s1, REPORTS[5], q, AwaitGoReceipt, Certified(2));
    var s2 := SyncVehicle(s1, REPORTS[5]);
    Hears(s2, 6);
    HearsStop(s2, REPORTS[6], 2, Reserved(q, Retiring));
    st := SyncVehicle(s2, REPORTS[6]);
  }

  // ---------------------------------------------------------------- the last turn

  const NOW := Clock(100.0, 0.0, 0.0, 0.0)
  const NOTHING := Turn(Violation(false, false, Unbounded, None), [])

  /** The cursors do not move anybody. */
  lemma CursorsOnly(base: Station)
    requires Waits(base) && StationInv(base)
    ensures var st := AdvanceAll(base, base.order);
            Waits(st) && st.out == base.out && !AnyProgress(base, base.order)
  {
    hide CursorFor, Marks, StationInv, Along;
    var o := base.order;
    assert o[..1] == ["a"] && o[..1][..0] == [] && o[..0] == [];
    assert AdvanceAll(base, []) == base && !AnyProgress(base, []);
    var s1 := AdvanceOne(base, "a");
    assert AdvanceAll(base, ["a"]) == s1;
    NobodyMoved(base.bodies["a"], Cursors(base.kit, base.bodies["a"], base.bodies["a"].reservation.plan));
    assert AdvanceAll(base, o) == AdvanceOne(s1, "b");
    assert !AnyProgress(base, ["a"]);
  }

  lemma NobodyMoved(b: Body, cursor: seq<nat>)
    requires b.reservation.Reserved? && b.pose == HOME_A && b.progress == HOME_A
    ensures !Progressed(b)
    ensures !Progressed(b.(reservation := b.reservation.(plan := b.reservation.plan.(cursor := cursor))))
  {
    assert ((0.0 + K_PI) / (2.0 * K_PI)).Floor == 0;
  }

  lemma RestIsFree(st: Station)
    requires StationInv(st) && Waits(st)
    ensures Enabled(st, Extend("a", OPEN_WAY.answer, OPEN_WAY.hi))
  {
    var p := st.bodies["a"].reservation.plan;
    var y := st.Ask("a", []);
    hide SampleClear, Swept, MakeSample, SweepOf;
    assert WellFormedBody(st.bodies["a"]);
    assert WellFormedSweeps(y, p.sets, p.cursor);
    MarkAt(HOME_A, 0.0);
    MarkAt(HOME_B, 0.0);
    MarkAt(MEET, 1.0);
    forall o, v: nat, i: nat | o in y.bodies && o != y.self && Asked(p.sets, p.cursor, v, i)
      ensures SampleClear(y.shape, p.sets[v].pts[i], y.bodies[o].shape, y.bodies[o].At(), y.ParkedMargin())
    {
      FarApart(p.sets[v].pts[i], y.bodies[o].At());
    }
    WayIsFree(y, p.sets, p.cursor);
    hide NaiveAnswer, WellFormedBody, WellFormedSweeps;
    assert PrefixEnds(p.sets[0], UNLIMITED, 3);
  }

  /** The extension turn for both: "a" is told to go on, "b" is not asked about. */
  lemma ExtendsOne(base: Station, st: Station) returns (r: Station)
    requires Sound(base, st) && Waits(st)
    ensures TurnsRight(st, st.order, [OPEN_WAY, NOTHING]) && r == ExtendAll(st, st.order, [OPEN_WAY, NOTHING])
    ensures Scene(r, 7) && r.order == st.order && r.bodies.Keys == {"a", "b"} && !r.bodies["b"].HasPlan()
    ensures Stalls(r.bodies["a"])
    ensures exists d :: r.out == st.out + [d] && d.state.Go? && d.id == "a" && d.grantId == 6
  {
    SoundIsInv(base, st);
    RestIsFree(st);
    ExtendTurnSound(base, st, "a", OPEN_WAY);
    r := ExtendTurn(st, "a", OPEN_WAY);
    var d := GoesOn(st);
    assert !r.bodies["b"].HasPlan();
    hide Sound, Enabled, ExtendTurn, Marks, Waits, StationInv, Stalls;
    SoundIsInv(base, r);
    NotAsked(r);
    TwoTurns(st, r);
  }

  lemma TwoTurns(st: Station, r: Station)
    requires StationInv(st) && Enabled(st, Extend("a", OPEN_WAY.answer, OPEN_WAY.hi))
    requires r == ExtendTurn(st, "a", OPEN_WAY)
    requires StationInv(r) && Enabled(r, Extend("b", NOTHING.answer, NOTHING.hi)) && ExtendTurn(r, "b", NOTHING) == r
    ensures TurnsRight(st, ["a", "b"], [OPEN_WAY, NOTHING]) && r == ExtendAll(st, ["a", "b"], [OPEN_WAY, NOTHING])
  {
    hide Enabled, ExtendTurn, StationInv;
    var o, turns := ["a", "b"], [OPEN_WAY, NOTHING];
    assert o[..1] == ["a"] && o[..1][..0] == [] && turns[..1] == [OPEN_WAY] && turns[..1][..0] == [];
    assert ExtendAll(st, [], []) == st && ExtendAll(st, ["a"], [OPEN_WAY]) == r;
    assert TurnsRight(st, [], []);
    assert TurnsRight(st, ["a"], [OPEN_WAY]);
  }

  lemma SoundIsInv(base: Station, st: Station)
    requires Sound(base, st)
    ensures StationInv(st) && Shaped(st)
  {
  }

  lemma GoesOn(st: Station) returns (d: Decision)
    requires Waits(st) && StationInv(st)
    ensures var r := ExtendTurn(st, "a", OPEN_WAY);
            && Scene(r, 7) && OnlyChanges(st, r, "a") && r.order == st.order && Stalls(r.bodies["a"])
            && r.out == st.out + [d] && d.state.Go? && d.id == "a" && d.grantId == 6
  {
    hide StationInv, Marks;
    var r := ExtendTurn(st, "a", OPEN_WAY);
    d := r.out[|st.out|];
  }

  lemma NotAsked(st: Station)
    requires StationInv(st) && "b" in st.bodies && !st.bodies["b"].HasPlan()
    ensures Enabled(st, Extend("b", NOTHING.answer, NOTHING.hi)) && ExtendTurn(st, "b", NOTHING) == st
  {
    hide StationInv;
    assert st.Put(st.At("b")) == st;
  }

  /** The stall check refuses "a"; "b" holds nothing. */
  lemma Refuses(st: Station)
    requires Scene(st, 7) && st.order == ["a", "b"] && st.bodies.Keys == {"a", "b"}
    requires Stalls(st.bodies["a"]) && !st.bodies["b"].HasPlan()
    ensures var r := StallAll(st, st.order); !r.halted && st.out <= r.out
    ensures FleetStalled(st, 100.0, 0.0)
  {
    var o := st.order;
    assert o[..1] == ["a"] && o[..1][..0] == [];
    assert StallAll(st, []) == st;
    assert StallAll(st, ["a"]) == StallOne(st, "a");
    assert StallAll(st, o) == StallOne(StallOne(st, "a"), "b");
    assert st.bodies["a"].HasPlan();
  }

  lemma SomebodyHolds(st: Station)
    requires Waits(st)
    ensures AnyPlan(st) && Stalls(st.bodies["a"]) && st.cfg == CFG && st.order == ["a", "b"]
  {
    hide Rides;
  }

  /** In the last turn the fleet has stood still for too long, and "a" waits. */
  lemma TimeIsUp(base: Station)
    requires Waits(base) && StationInv(base)
    ensures Struck(base, NOW, "a") && ProgressAt(base, NOW) == 0.0 && ExtensionDue(base.cfg, NOW)
  {
    CursorsOnly(base);
    SomebodyHolds(base);
    hide Waits, StationInv, AnyProgress, AnyPlan, Stalls;
  }

  lemma LastMovers(base: Station) returns (r: Station, d: Decision)
    requires Sound(base, base) && base.out == [] && Waits(base)
    ensures var st := AdvanceAll(base, base.order);
            && |[OPEN_WAY, NOTHING]| == |st.order| && TurnsRight(st, st.order, [OPEN_WAY, NOTHING])
            && r == MoversTurn(base, NOW, [OPEN_WAY, NOTHING]) && !r.halted && r.dirty
            && d in r.out && d.state.Go? && d.id == "a" && d.grantId == 6
    ensures Struck(base, NOW, "a")
  {
    SoundIsInv(base, base);
    TimeIsUp(base);
    CursorsOnly(base);
    AdvanceAllReaches([], base, base, base.order);
    var st := AdvanceAll(base, base.order);
    SomebodyHolds(st);
    hide AdvanceAll, TurnsRight, Sound, StationInv, Waits, ProgressAt, Struck, ExtensionTurn, AnyPlan, Stalls;
    r, d := LastExtensions(base, st);
  }

  lemma LastExtensions(base: Station, st: Station) returns (r: Station, d: Decision)
    requires Sound(base, st) && Waits(st) && |st.order| == 2
    ensures TurnsRight(st, st.order, [OPEN_WAY, NOTHING])
    ensures r == ExtensionTurn(st, 100.0, 0.0, [OPEN_WAY, NOTHING]) && !r.halted && r.dirty
    ensures d in r.out && d.state.Go? && d.id == "a" && d.grantId == 6
  {
    SomebodyHolds(st);
    hide ExtendAll, StallAll, TurnsRight, Sound, Waits, AnyPlan, Stalls;
    var st2 := ExtendsOne(base, st);
    d :| st2.out == st.out + [d] && d.state.Go? && d.id == "a" && d.grantId == 6;
    var st3 := st2.(worldChanged := false);
    Refuses(st3);
    r := StallAll(st3, st3.order).(dirty := true);
    assert d in st3.out;
  }

  lemma LastTurn(base: Station) returns (after: Station, d: Decision)
    requires Sound(base, base) && base.out == [] && Waits(base)
    ensures Updates(base, [], NOW, true, [], Answers([OPEN_WAY, NOTHING], []), after) && !after.halted
    ensures d in after.out && d.state.Go? && d.id == "a" && d.grantId == 6
    ensures Struck(base, NOW, "a")
  {
    var r;
    r, d := LastMovers(base);
    after := r.(dirty := false);
    SoundIsInv(base, base);
    hide AdvanceAll, MoversTurn, TurnsRight, Sound, StationInv, Rides, Stands, ProgressAt, Struck, AnyWaiting, Shaped;
    assert SyncAll(base, []) == base;
    assert AdmitAll(after, [], []) == after;
    assert MovesRight(after, [], []);
  }

  lemma TwoNames(st: Station)
    requires Waits(st)
    ensures DistinctNames(st.order)
  {
    hide Riding, Stands;
  }

  lemma NobodyStands(base: Station, after: Station)
    requires Sound(base, base) && base.out == [] && DistinctNames(base.order) && "a" in base.bodies
    requires Updates(base, [], NOW, true, [], Answers([OPEN_WAY, NOTHING], []), after) && !after.halted
    requires Struck(base, NOW, "a")
    ensures "a" in after.bodies && after.bodies["a"].LiveGrant() == None
  {
    SoundIsInv(base, base);
    hide Sound, StepTurn, DistinctNames, Struck, Shaped, Fits, AnswersRight;
    assert SyncAll(base, []) == base;
    StruckIsRefused(base, [], NOW, true, [], Answers([OPEN_WAY, NOTHING], []), after, "a");
  }

  lemma FlushedWaits(st: Station)
    requires Reached(st) && Waits(st)
    ensures var base := st.(out := []);
            Sound(base, base) && Waits(base) && DistinctNames(base.order) && "a" in base.bodies
  {
    FlushIsSound(Start(), st);
    TwoNames(st);
    hide Sound, Reaches, DistinctNames, Marks;
  }

  /** It happens: a station that is reached from its start by reports and admitted routes takes a turn
      in which "a" is told to go on with decision 6, and at the end of which it holds no permission. */
  lemma StalledExtensionHappens() returns (st: Station, after: Station, d: Decision)
    ensures Reaches(REPORTS, Start(), st) && Sound(Start(), st)
    ensures var base := st.(out := []);
            && Sound(base, base) && DistinctNames(base.order)
            && Updates(base, [], NOW, true, [], Answers([OPEN_WAY, NOTHING], []), after) && !after.halted
            && Struck(base, NOW, "a")
    ensures d in after.out && d.state.Go? && d.id == "a" && d.grantId == 6
    ensures "a" in after.bodies && after.bodies["a"].LiveGrant() == None
  {
    st := OneGivesUp();
    FlushedWaits(st);
    hide Reaches, Sound, Waits, Updates, Struck, DistinctNames;
    var base := st.(out := []);
    after, d := LastTurn(base);
    NobodyStands(base, after);
  }
}
