/** The planner's decisions (reset_planner.cpp: allocate, emit*, sync, installPlan, updateMovers) as
    functions on its state. The class ResetPlanner (Planner.dfy) is proved equal to them.

    What the model takes as given is in the Kit: the body frame footprint and sampling error of a
    declared spec (they use square roots and the sines of the 16-gon), the distance by which the
    cursor is moved, and the gauge of the sampled routes. Which route is tried is a Choice: its search
    is a heuristic, what matters is the sweep that is made of it and the verifier that it has to pass.
    An exhausted decision allocator, which throws in the source, ends the station: nothing changes and
    nothing is decided any more. */
module PlannerModel {
  import opened ResetProtocol
  import opened Geometry
  import opened Bodies
  import opened Escape
  import opened Sweep
  import opened RouteModel

  datatype Kit = Kit(shapeOf: VehicleSpec -> Shape, deltaOf: VehicleSpec -> real,
                     cost: (Pose, Model, Sample) -> real, gauge: Gauge)

  /** Footprints are polygons; only that of an omnidirectional vehicle is not turned. */
  ghost predicate GoodKit(kit: Kit) {
    GoodGauge(kit.gauge)
    && forall spec :: WellFormed(kit.shapeOf(spec)) && (kit.shapeOf(spec).rect <==> spec.model == Unicycle)
  }

  /** A route that is tried: its way, its goal, the estimate of the rotation centre with its spread,
      and the parked bodies it starts too close to. */
  datatype Choice = Choice(via: seq<Point>, goal: Pose, finalMove: bool, ell: real, spread: real,
                           contacts: seq<Contact>)

  /** Variant w of a plan is the sweep of its own route for the rotation centre it is made with. */
  ghost predicate SweptAt(kit: Kit, shape: Shape, model: Model, p: Plan, w: nat) {
    GoodGauge(kit.gauge) && WellFormed(shape)
    && (w < |p.sets| ==> p.sets[w] == MadeSweep(kit.gauge, shape, model, p.route, p.sets[w].ell))
  }

  /** The sweeps of a plan are those of its own route: for a unicycle with the estimate of the route
      in the middle, for an omnidirectional vehicle a single one. */
  ghost predicate Swept(kit: Kit, shape: Shape, model: Model, p: Plan) {
    && (if model == Unicycle then |p.sets| == 3 && p.sets[1].ell == p.route.ell
        else |p.sets| == 1 && p.sets[0].ell == p.route.ell == 0.0)
    && forall w: nat {:trigger SweptAt(kit, shape, model, p, w)} :: SweptAt(kit, shape, model, p, w)
  }

  ghost predicate GoodCandidate(kit: Kit, b: Body, p: Plan) {
    && p.route.start == b.pose && Swept(kit, b.shape, b.spec.model, p)
    && (forall w :: 0 <= w < |p.sets| ==> SweepOf(b.shape, p.sets[w]))
    && (forall c :: 0 <= c < |p.certs| ==> |p.certs[c].escapedAt| == |p.sets|)
  }

  /** The footprint a body is checked with is that of its declared spec, and what is reserved for it
      is the sweep of the route it was given. */
  ghost predicate KitShaped(kit: Kit, b: Body) {
    b.shape == kit.shapeOf(b.spec) && b.delta == kit.deltaOf(b.spec)
    && (b.HasPlan() ==> Swept(kit, b.shape, b.spec.model, b.reservation.plan))
  }

  predicate SameFootprint(b: Body, c: Body) {
    c.spec == b.spec && c.shape == b.shape && c.delta == b.delta
  }

  /** One vehicle as the coordinator reports it. `hx, hy` is the heading of the pose. */
  datatype Vehicle = Vehicle(
    id: Id, session: nat, generation: nat, ack: nat, certified: bool, available: bool,
    spec: VehicleSpec, pose: Pose, hx: real, hy: real, target: Pose, phase: Phase,
    uncontrolledMoving: bool)

  datatype Decision = Decision(
    id: Id, session: nat, generation: nat, state: GrantState, grantId: nat, route: RouteDecl,
    sLimit: real, reason: Reason, detail: string, blockers: seq<Id>)

  /** One body with what every decision about it shares: the allocator and the outbox. */
  datatype Desk = Desk(id: Id, body: Body, next: nat, out: seq<Decision>, halted: bool)
  {
    predicate Spent() { halted || next >= UINT32_MAX }

    /** Nothing in the outbox but decisions about this body. */
    ghost predicate Own() { forall d :: d in out ==> d.id == id }
  }

  const NEW_TOLD := Told(false, Hold, NoReason, [])

  function NewBody(kit: Kit, v: Vehicle): Body {
    Body(v.spec, kit.shapeOf(v.spec), kit.deltaOf(v.spec), v.pose, v.hx, v.hy, v.target, Idle, 0, 0,
         Unreserved, Uncertified, true, false, false, NEW_TOLD, [], 0, 0, v.pose, None)
  }

  // ---------------------------------------------------------------- decisions

  function Decided(t: Desk, body: Body, d: Decision): Desk {
    t.(body := body, next := t.next + 1, out := t.out + [d])
  }

  function Plain(t: Desk, state: GrantState, reason: Reason, detail: string, blockers: seq<Id>):
    Decision
  {
    Decision(t.id, t.body.session, t.body.generation, state, t.next, NO_ROUTE, 0.0, reason, detail,
             blockers)
  }

  function Retired(b: Body): Body {
    if b.reservation.Reserved? then b.(reservation := b.reservation.(phase := Retiring)) else b
  }

  function EmitBrake(t: Desk, reason: Reason, detail: string, blockers: seq<Id>): (r: Desk)
    ensures r.id == t.id && t.next <= r.next && (t.Own() ==> r.Own())
  {
    if t.Spent() then t.(halted := true)
    else Decided(t, Retired(t.body).(certificate := AwaitingStop(t.next),
                                     told := Told(true, Brake, reason, blockers)),
                 Plain(t, Brake, reason, detail, blockers))
  }

  function EmitReject(t: Desk, reason: Reason, detail: string, blockers: seq<Id>): (r: Desk)
    ensures r.id == t.id && t.next <= r.next && (t.Own() ==> r.Own())
  {
    if t.Spent() then t.(halted := true)
    else Decided(t, Retired(t.body).(rejected := true, told := Told(true, Reject, reason, blockers)),
                 Plain(t, Reject, reason, detail, blockers))
  }

  /** A hold is reported once: the same reason and blockers again say nothing. */
  function EmitHold(t: Desk, reason: Reason, detail: string, blockers: seq<Id>): (r: Desk)
    ensures r.id == t.id && t.next <= r.next && (t.Own() ==> r.Own())
  {
    var b := t.body.(blockers := blockers);
    if t.halted then t
    else if b.told == Told(true, Hold, reason, blockers) then t.(body := b)
    else if t.Spent() then t.(halted := true)
    else Decided(t, b.(told := Told(true, Hold, reason, blockers)),
                 Plain(t, Hold, reason, detail, blockers))
  }

  /** emitGo together with the allocation that precedes it in both of its callers. */
  function EmitGo(t: Desk, p: Plan, body: Body): (r: Desk)
    ensures r.id == t.id && t.next <= r.next && (t.Own() ==> r.Own())
  {
    if t.Spent() then t.(halted := true)
    else
      var plan := p.(grantId := t.next);
      Decided(t, body.(reservation := Reserved(plan, AwaitGoReceipt),
                       told := Told(true, Go, NoReason, [])),
              Decision(t.id, body.session, body.generation, Go, t.next, plan.route, plan.sLimit,
                       NoReason, "", []))
  }

  // ---------------------------------------------------------------- routes

  function Zeros(n: nat): seq<nat> { seq(n, _ => 0) }

  /** The start of a reservation: cursors at the first sample, the prefix up to the limit. */
  function Started(b: Body, p: Plan, hi: seq<nat>): Plan {
    p.(session := b.session, generation := b.generation, cursor := Zeros(|p.sets|), hi := hi)
  }

  /** installPlan and emitGo: at most three routes in one session. */
  function InstallPlan(t: Desk, p: Plan, hi: seq<nat>): (r: Desk)
    ensures r.id == t.id && t.next <= r.next && (t.Own() ==> r.Own())
  {
    if t.body.grants >= 3 then EmitReject(t, Reason.NoRoute, "Reset replan budget exhausted", [])
    else EmitGo(t, Started(t.body, p, hi),
                t.body.(blockers := [], progress := t.body.pose, grants := t.body.grants + 1))
  }

  function ExtendPlan(t: Desk, limit: real, hi: seq<nat>): (r: Desk)
    requires t.body.HasPlan()
    ensures r.id == t.id && t.next <= r.next && (t.Own() ==> r.Own())
  {
    EmitGo(t, t.body.reservation.plan.(sLimit := limit, hi := hi), t.body)
  }

  function Limit(cfg: PlannerConfig, s: Reach): real {
    match s case Unbounded => UNLIMITED case At(x) => x - cfg.holdMargin
  }

  predicate PrefixOpen(p: Plan) { p.sLimit < p.total - 0.000000001 }

  /** Whether the extension turn asks the verifier about this body at all. */
  predicate Asks(b: Body, worldChanged: bool) {
    b.HasPlan() && !b.IsRetiring() && (PrefixOpen(b.reservation.plan) || worldChanged)
  }

  /** A blocked rest is revoked where the vehicle is held, or when the world has changed. */
  predicate Revokes(b: Body, worldChanged: bool, answer: Violation) {
    Asks(b, worldChanged) && answer.hard && (b.phase == Phase.Waiting || worldChanged)
  }

  function Blockers(answer: Violation): seq<Id> {
    match answer.who case None => [] case Some(o) => [o]
  }

  function NewLimit(cfg: PlannerConfig, p: Plan, answer: Violation): real {
    match answer.s case Unbounded => UNLIMITED case At(x) => Max(p.sLimit, x - cfg.holdMargin)
  }

  predicate Extends(cfg: PlannerConfig, b: Body, worldChanged: bool, answer: Violation) {
    && Asks(b, worldChanged) && !answer.hard && PrefixOpen(b.reservation.plan) && b.ReceivedGo()
    && NewLimit(cfg, b.reservation.plan, answer) > b.reservation.plan.sLimit + 0.000000001
  }

  predicate Waits(cfg: PlannerConfig, b: Body, worldChanged: bool, answer: Violation) {
    && Asks(b, worldChanged) && !answer.hard && PrefixOpen(b.reservation.plan) && b.ReceivedGo()
    && !Extends(cfg, b, worldChanged, answer)
  }

  /** The extension turn for one body, given the verifier's answer and the new prefix ends. */
  function ExtendOne(cfg: PlannerConfig, t: Desk, worldChanged: bool, answer: Violation,
                     hi: seq<nat>): (r: Desk)
    ensures r.id == t.id && t.next <= r.next && (t.Own() ==> r.Own())
  {
    if Revokes(t.body, worldChanged, answer) then
      if answer.world
      then EmitBrake(t, SceneChanged, "the scene changed under the route", Blockers(answer))
      else EmitBrake(t, Replan, "the rest of the route is blocked", Blockers(answer))
    else if Extends(cfg, t.body, worldChanged, answer)
    then ExtendPlan(t, NewLimit(cfg, t.body.reservation.plan, answer), hi)
    else if Waits(cfg, t.body, worldChanged, answer) && !t.halted
    then t.(body := t.body.(blockers := Blockers(answer)))
    else t
  }

  /** The rear of a reservation follows the vehicle only after the exact latest Go was received. */
  function Advanced(t: Desk, cursor: seq<nat>): (r: Desk)
    ensures r.id == t.id && t.next <= r.next && (t.Own() ==> r.Own())
  {
    if t.halted || !t.body.ReceivedGo() then t
    else
      var b := t.body.(reservation :=
                         t.body.reservation.(plan := t.body.reservation.plan.(cursor := cursor)));
      t.(body := if Progressed(b) then b.(progress := b.pose) else b)
  }

  predicate Progressed(b: Body) {
    Dist2(b.pose.x, b.pose.y, b.progress.x, b.progress.y) > 0.02 * 0.02
    || Abs(WrapAngle(b.pose.yaw - b.progress.yaw)) > 0.02
  }

  predicate Stalls(b: Body) { b.HasPlan() && !b.IsRetiring() && b.phase == Phase.Waiting }

  // ---------------------------------------------------------------- synchronisation

  predicate Outdated(v: Vehicle, b: Body) {
    v.generation < b.generation || (v.generation == b.generation && v.session != b.session)
  }

  /** The report replaces pose, phase and availability; the footprint only while nothing is
      reserved, since the sweeps were made with it. */
  function Reported(kit: Kit, b: Body, v: Vehicle, isNew: bool): Body {
    var b1 := if v.available || isNew then b.(pose := v.pose, hx := v.hx, hy := v.hy) else b;
    var b2 := b1.(phase := v.phase, available := v.available);
    var b3 := if !b.HasPlan() && (v.available || isNew) then Reshaped(kit, b2, v.spec) else b2;
    b3.(uncontrolled := v.uncontrolledMoving
                        || (b3.Participates() && !b3.HasPlan() && v.phase == Moving))
  }

  function Reshaped(kit: Kit, b: Body, spec: VehicleSpec): Body {
    b.(spec := spec, shape := kit.shapeOf(spec), delta := kit.deltaOf(spec))
  }

  /** A quiescent body whose report left the pose its last check discharged. */
  predicate StaleQuiescent(b: Body, v: Vehicle, isNew: bool) {
    (v.available || isNew) && !(b.HasPlan() && !b.IsRetiring())
    && (b.proof.None? || !SamePlace(v.pose, b.proof.value))
  }

  predicate NewRequest(b: Body, v: Vehicle) { v.generation > b.generation }

  function Requested(t: Desk, v: Vehicle, newRequest: bool, isNew: bool): (r: Desk)
    ensures r.id == t.id && t.next <= r.next && (t.Own() ==> r.Own())
  {
    if newRequest && t.Spent() then t.(halted := true)
    else if newRequest then
      var b := t.body.(session := v.session, generation := v.generation, target := v.target,
                       rejected := false, told := t.body.told.(emitted := false));
      EmitBrake(t.(body := b), Replan, "awaiting exact post-zero stopping certificate", [])
    else if isNew then t.(body := t.body.(session := v.session, target := v.target))
    else t
  }

  /** A vehicle that left or cannot be heard is braked; its reservation is retained. */
  function Withdrawn(t: Desk, v: Vehicle): (r: Desk)
    ensures r.id == t.id && t.next <= r.next && (t.Own() ==> r.Own())
  {
    if t.body.HasPlan() && (!v.available || !t.body.Participates()) && !t.body.IsRetiring()
    then EmitBrake(t, Replan, "permission retained until stopping is acknowledged", [])
    else t
  }

  /** The exact certificate: this request's outstanding Brake, acknowledged by a certified stop. */
  predicate ExactCertificate(b: Body, v: Vehicle, newRequest: bool) {
    && !newRequest && v.available && b.certificate.AwaitingStop? && v.certified
    && v.ack == b.certificate.brakeId && b.certificate.brakeId != 0
  }

  function Released(kit: Kit, t: Desk, v: Vehicle, newRequest: bool): (r: Desk)
    ensures r.id == t.id && t.next <= r.next && (t.Own() ==> r.Own())
  {
    if t.halted || !ExactCertificate(t.body, v, newRequest) then t
    else
      var b := ReleasedBody(kit, t.body, v);
      if !b.Participates() then EmitHold(t.(body := b), NoReason, "Reset permission retired", [])
      else t.(body := b)
  }

  function ReleasedBody(kit: Kit, b: Body, v: Vehicle): Body
    requires b.certificate.AwaitingStop?
  {
    Reshaped(kit, b, v.spec).(
      reservation := Unreserved, certificate := Certified(b.certificate.brakeId),
      target := v.target, told := b.told.(emitted := false), budgetSession := v.session,
      grants := if b.budgetSession != v.session then 0 else b.grants)
  }

  /** The exact receipt of the latest Go of this plan. */
  predicate ExactReceipt(b: Body, v: Vehicle) {
    && b.HasPlan() && !b.IsRetiring() && !v.certified && v.ack == b.reservation.plan.grantId
    && b.reservation.plan.session == v.session && b.reservation.plan.generation == v.generation
  }

  function Received(t: Desk, v: Vehicle): (r: Desk)
    ensures r.id == t.id && t.next <= r.next && (t.Own() ==> r.Own())
  {
    if t.halted || !ExactReceipt(t.body, v) then t
    else t.(body := t.body.(reservation := t.body.reservation.(phase := GoReceived)))
  }

  /** The report with the anchor of the staleness check. */
  function Anchored(kit: Kit, b: Body, v: Vehicle, isNew: bool): Body {
    var c := Reported(kit, b, v, isNew);
    if StaleQuiescent(b, v, isNew) then c.(proof := Some(v.pose)) else c
  }

  /** One report of one vehicle. */
  function SyncBody(kit: Kit, t: Desk, v: Vehicle, isNew: bool): (r: Desk)
    ensures r.id == t.id && t.next <= r.next && (t.Own() ==> r.Own())
  {
    if t.halted || (!isNew && Outdated(v, t.body)) then t
    else
      var newRequest := NewRequest(t.body, v);
      SyncRest(kit, Requested(t.(body := Anchored(kit, t.body, v, isNew)), v, newRequest, isNew), v,
               newRequest)
  }

  /** Without a generation a report is a discovery only and carries no authority. */
  function SyncRest(kit: Kit, t: Desk, v: Vehicle, newRequest: bool): (r: Desk)
    ensures r.id == t.id && t.next <= r.next && (t.Own() ==> r.Own())
  {
    if t.body.generation == 0 then t
    else Received(Released(kit, Withdrawn(t, v), v, newRequest), v)
  }

  // ---------------------------------------------------------------- the station

  datatype Station = Station(
    cfg: PlannerConfig, kit: Kit, world: World, bodies: map<Id, Body>, order: seq<Id>, next: nat,
    out: seq<Decision>, halted: bool, worldChanged: bool, dirty: bool)
  {
    function At(id: Id): Desk
      requires id in bodies
    {
      Desk(id, bodies[id], next, out, halted)
    }

    function Put(t: Desk): Station {
      this.(bodies := bodies[t.id := t.body], next := t.next, out := t.out, halted := t.halted)
    }

    function Ask(id: Id, certs: seq<EscapeCert>): Query
      requires id in bodies
    {
      Query(cfg, world, bodies, order, id, bodies[id].shape, bodies[id].delta, certs)
    }
  }

  function EmptyStation(cfg: PlannerConfig, kit: Kit, world: World): Station {
    Station(cfg, kit, world, map[], [], 1, [], false, false, true)
  }

  /** Lexicographic order of names, in which std::map lists the bodies. */
  predicate LexLess(a: Id, b: Id) {
    if b == "" then false
    else if a == "" then true
    else a[0] < b[0] || (a[0] == b[0] && LexLess(a[1..], b[1..]))
  }

  function InsertId(order: seq<Id>, id: Id): (r: seq<Id>)
    ensures forall o :: o in r <==> o in order || o == id
    ensures |r| == |order| + 1
  {
    if order == [] || LexLess(id, order[0]) then [id] + order
    else [order[0]] + InsertId(order[1..], id)
  }

  /** A body standing in the still uncrossed, granted corridor of a mover. */
  predicate InGrantedCorridor(st: Station, peer: Body)
    requires WellFormed(peer.shape)
  {
    exists o :: o in st.bodies && CorridorReaches(st.cfg, st.bodies[o], peer.At().box)
  }

  predicate CorridorReaches(cfg: PlannerConfig, mover: Body, box: Aabb) {
    && mover.HasPlan() && !mover.IsRetiring()
    && exists w: nat :: w < |mover.reservation.plan.sets| && VariantReaches(cfg, mover, w, box)
  }

  predicate VariantReaches(cfg: PlannerConfig, mover: Body, w: nat, box: Aabb)
    requires mover.HasPlan() && w < |mover.reservation.plan.sets|
  {
    var p := mover.reservation.plan;
    && w < |p.cursor| && w < |p.hi|
    && exists c: nat :: c < |p.sets[w].chunks|
         && p.cursor[w] / K_CHUNK <= c && c * K_CHUNK < p.hi[w]
         && c * K_CHUNK < |p.sets[w].pts|
         && !Separated(p.sets[w].chunks[c], box, cfg.pairMargin + mover.delta)
  }

  function WithVehicle(st: Station, v: Vehicle): Station {
    if v.id in st.bodies then st
    else st.(bodies := st.bodies[v.id := NewBody(st.kit, v)], order := InsertId(st.order, v.id))
  }

  ghost predicate Shaped(st: Station) {
    GoodKit(st.kit) && forall o :: o in st.bodies ==> KitShaped(st.kit, st.bodies[o])
  }

  // ---------------------------------------------------------------- planRoute

  /** Neither too long for a Grant nor begun in contact; what it is close to is parked. */
  predicate Viable(st: Station, id: Id, c: Choice) {
    && |c.via| <= K_MAX_VIA
    && forall k :: 0 <= k < |c.contacts| ==> ViableContact(st, id, c.contacts[k])
  }

  predicate ViableContact(st: Station, id: Id, c: Contact) {
    c.peer in st.bodies && c.peer != id && !st.bodies[c.peer].HasPlan() && c.gap > 0.0
  }

  function RouteFor(b: Body, c: Choice): RouteDecl {
    RouteDecl(b.pose, c.via, c.goal, if b.spec.model == Unicycle then c.ell else 0.0, c.finalMove)
  }

  function Ells(model: Model, c: Choice): seq<real> {
    if model == Unicycle then [c.ell - c.spread, c.ell, c.ell + c.spread] else [0.0]
  }

  function SetsFor(kit: Kit, b: Body, c: Choice): (sets: seq<SampleSet>)
    requires GoodGauge(kit.gauge) && WellFormed(b.shape)
    ensures |sets| == |Ells(b.spec.model, c)|
  {
    var ells := Ells(b.spec.model, c);
    seq(|ells|, w requires 0 <= w < |ells| =>
          MadeSweep(kit.gauge, b.shape, b.spec.model, RouteFor(b, c), ells[w]))
  }

  /** The longest arc length of the first n variants. */
  function TotalOf(sets: seq<SampleSet>, n: nat): real
    requires n <= |sets|
  {
    if n == 0 then 0.0
    else
      var pts := sets[n - 1].pts;
      Max(TotalOf(sets, n - 1), if pts == [] then 0.0 else pts[|pts| - 1].s)
  }

  /** The certificate against one parked body, with the index at which each variant has escaped. */
  function CertFor(b: Body, peer: Body, margin: real, sets: seq<SampleSet>, c: Contact): (r: EscapeCert)
    requires WellFormed(b.shape) && WellFormed(peer.shape)
    ensures |r.escapedAt| == |sets|
  {
    CertOf(c, b.shape, b.hx, b.hy, peer.pose, Placed(peer.shape, peer.At())).(
      escapedAt := seq(|sets|, w requires 0 <= w < |sets| =>
                         FirstClear(b.shape, sets[w], peer.shape, peer.At(), margin, 0)))
  }

  function CertsFor(st: Station, id: Id, sets: seq<SampleSet>, contacts: seq<Contact>):
    (r: seq<EscapeCert>)
    requires Shaped(st) && id in st.bodies
    requires forall k :: 0 <= k < |contacts| ==> ViableContact(st, id, contacts[k])
    ensures forall k :: 0 <= k < |r| ==> |r[k].escapedAt| == |sets|
  {
    if contacts == [] then []
    else
      var n := |contacts| - 1;
      assert ViableContact(st, id, contacts[n]);
      var b, peer := st.bodies[id], st.bodies[contacts[n].peer];
      assert KitShaped(st.kit, b) && KitShaped(st.kit, peer);
      CertsFor(st, id, sets, contacts[..n])
      + [CertFor(b, peer, st.cfg.pairMargin + b.delta, sets, contacts[n])]
  }

  /** planRoute, for one choice: the sweeps of its route and the certificates it starts with. */
  function PlanFor(st: Station, id: Id, c: Choice): Plan
    requires Shaped(st) && id in st.bodies && Viable(st, id, c)
  {
    var b := st.bodies[id];
    assert KitShaped(st.kit, b);
    var sets := SetsFor(st.kit, b, c);
    Plan(0, 0, RouteFor(b, c), sets, [], [], 0.0, TotalOf(sets, |sets|), 0,
         CertsFor(st, id, sets, c.contacts))
  }

  /** A drifted quiescent body reaches into a granted corridor: the routes are checked again. */
  predicate Touches(st: Station, b: Body, v: Vehicle, isNew: bool)
    requires Shaped(st) && WellFormed(b.shape) && v.id in st.bodies
  {
    StaleQuiescent(b, v, isNew)
    && var seen := Reported(st.kit, b, v, isNew);
       InGrantedCorridor(st.Put(st.At(v.id).(body := seen)), seen)
  }

  /** The report of a vehicle the station already lists. */
  function SyncKnown(st: Station, v: Vehicle, isNew: bool): Station
    requires Shaped(st) && v.id in st.bodies
  {
    var b := st.bodies[v.id];
    var t := SyncBody(st.kit, st.At(v.id), v, isNew);
    var touched := Touches(st, b, v, isNew);
    st.Put(t).(worldChanged := st.worldChanged || touched,
               dirty := st.dirty || touched || |t.out| != |st.out|
                        || b.certificate != t.body.certificate)
  }

  function SyncVehicle(st: Station, v: Vehicle): Station
    requires Shaped(st)
  {
    var isNew := v.id !in st.bodies;
    if st.halted then st
    else if !isNew && Outdated(v, st.bodies[v.id]) then st
    else SyncKnown(WithVehicle(st, v), v, isNew)
  }
}
