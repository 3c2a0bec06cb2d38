/** The escape, end to end: a route that was admitted although it starts too close to a parked body
    keeps the gap it started with, at everything the vehicle passes, until it is clear of the body by
    the full margin. */
module RouteEscapes {
  import opened ResetProtocol
  import opened Geometry
  import opened Bodies
  import opened Sweep
  import opened RouteModel
  import opened Route
  import opened PlannerModel
  import Escape
  import EscapeMotion
  import opened Reservations
  import opened PlannerTurn

  /** The sweep samples are the route samples, in order. */
  ghost predicate Sampled(t: Trig, shape: Shape, raw: seq<RouteSample>, pts: seq<Sample>)
    requires WellFormed(shape)
  {
    |pts| == |raw| && forall i :: 0 <= i < |raw| ==> pts[i] == SampleOf(t, shape, raw[i])
  }

  // ---------------------------------------------------------------- steps are primitives

  lemma SameHeading(t: Trig, a: real, b: real)
    requires IsTrig(t) && WrapAngle(b - a) == 0.0
    ensures t.cos(a) == t.cos(b) && t.sin(a) == t.sin(b)
  {
    WrapRange(b - a);
    var m: int :| WrapAngle(b - a) == Turned(b - a, m);
    assert Turned(b, m) == a;
    WrapPeriodic(b, m);
    SamePeriod(t, a, b);
  }

  lemma SamePeriod(t: Trig, a: real, b: real)
    requires IsTrig(t) && WrapAngle(a) == WrapAngle(b)
    ensures t.cos(a) == t.cos(b) && t.sin(a) == t.sin(b)
  {
    hide WrapAngle;
    assert t.cos(WrapAngle(a)) == t.cos(a) && t.cos(WrapAngle(b)) == t.cos(b);
    assert t.sin(WrapAngle(a)) == t.sin(a) && t.sin(WrapAngle(b)) == t.sin(b);
  }

  lemma ProperTurn(t: Trig, a: real, b: real)
    requires IsTrig(t) && 0.0 < Abs(WrapAngle(b - a)) < K_PI
    ensures Escape.Cross(t.cos(a), t.sin(a), t.cos(b), t.sin(b)) != 0.0
  {
    hide WrapAngle, Escape.Cross;
    var d := b - a;
    assert t.cos(WrapAngle(d)) == t.cos(d) && t.sin(WrapAngle(d)) == t.sin(d);
    assert Escape.Cross(t.cos(a), t.sin(a), t.cos(b), t.sin(b)) == t.sin(d);
  }

  lemma UnitHeading(t: Trig, a: real)
    requires IsTrig(t)
    ensures EscapeMotion.Unit(t.cos(a), t.sin(a))
  {
    hide WrapAngle;
  }

  /** Every step of a unicycle route without gaps is one primitive of the escape test: a move that
      keeps the heading, or a turn about the pivot through a proper angle. */
  lemma StepIsPrimitive(t: Trig, shape: Shape, step: real, stepYaw: real, raw: seq<RouteSample>,
                        sweep: SampleSet, i: nat)
    requires IsTrig(t) && WellFormed(shape) && Sampled(t, shape, raw, sweep.pts) && stepYaw < K_PI
    requires Steps(t, sweep.ell, step, stepYaw, raw) && 0 < i < |raw|
    ensures EscapeMotion.Primitive(sweep, i)
  {
    hide WrapAngle, IsTrig, BoxOf, Place, Dist2;
    var a, b := raw[i - 1], raw[i];
    var prev, q := sweep.pts[i - 1], sweep.pts[i];
    assert prev == SampleOf(t, shape, a) && q == SampleOf(t, shape, b);
    assert StepOk(t, sweep.ell, step, stepYaw, a, b);
    UnitHeading(t, a.pose.yaw);
    UnitHeading(t, b.pose.yaw);
    if IsTurn(t, sweep.ell, stepYaw, a, b) {
      if WrapAngle(b.pose.yaw - a.pose.yaw) == 0.0 { SameHeading(t, a.pose.yaw, b.pose.yaw); }
      else { ProperTurn(t, a.pose.yaw, b.pose.yaw); }
    }
  }

  /** A variant of a route, as the polyline it is sampled from. */
  function Variant(g: Gauge, route: RouteDecl, ell: real): Polyline {
    BuiltRoute(g.trig, route.start, route.via, route.goal, ell)
  }

  /** The steps of the sweep of a unicycle route without gaps are primitives of the escape test. */
  lemma MadeStepIsPrimitive(g: Gauge, shape: Shape, route: RouteDecl, ell: real, i: nat)
    requires GoodGauge(g) && IsTrig(g.trig) && g.stepYaw < K_PI && WellFormed(shape)
    requires Continuous(g.trig, Variant(g, route, ell).vertices)
    requires 0 < i < |MadeSweep(g, shape, Unicycle, route, ell).pts|
    ensures EscapeMotion.Primitive(MadeSweep(g, shape, Unicycle, route, ell), i)
  {
    hide IsTrig, Continuous, Steps, BoxOf, Place, SamplesOf, GoodRoute, GoodLegs, ChunksOf, MakeSample;
    var r := Variant(g, route, ell);
    BuiltIsGood(g.trig, route.start, route.via, route.goal, ell);
    SamplesContinue(g, r, true);
    StepIsPrimitive(g.trig, shape, g.step, g.stepYaw, SamplesOf(g, r, true),
                    MadeSweep(g, shape, Unicycle, route, ell), i);
  }

  /** The index of the last sample that must pass the escape test. */
  function LastTested(cert: EscapeCert, sweep: SampleSet, v: nat): nat
    requires v < |cert.escapedAt| && |sweep.pts| > 0
  {
    if cert.escapedAt[v].Some? && cert.escapedAt[v].value < |sweep.pts| then cert.escapedAt[v].value
    else |sweep.pts| - 1
  }

  /** A candidate without a hard violation passes the test up to the escape index. */
  lemma AdmittedStepsClear(y: Query, sets: seq<SampleSet>, from: seq<nat>, s: Reach, v: nat, o: Id,
                           cert: EscapeCert)
    requires WellFormedSweeps(y, sets, from) && NaiveAnswer(y, sets, from, false, s)
    requires v < |sets| && from[v] == 0 && |sets[v].pts| > 0 && Parked(y, o)
    requires MatchCert(o, y.bodies[o].pose, y.certs) == Some(cert) && v < |cert.escapedAt|
    ensures EscapeMotion.StepsClear(y.shape, sets[v], LastTested(cert, sets[v], v), cert)
  {
    hide NaiveAnswer, Escape.EscapeStepClear, SweepOf, WellFormedQuery, SampleClear;
    forall i: nat | i <= LastTested(cert, sets[v], v)
      ensures Escape.EscapeStepClear(y.shape, sets[v], i, cert)
    {
      assert Asked(sets, from, v, i);
      EscapeMotion.AdmittedRouteEscapes(y, sets, from, s, v, i, o, cert);
    }
  }

  /** What the vehicle can be relied on to pass: a unicycle drives the variant without a gap; an
      omnidirectional vehicle is held to a halfspace of the world. */
  ghost predicate Driveable(g: Gauge, model: Model, route: RouteDecl, ell: real, cert: EscapeCert) {
    if model == Unicycle then Continuous(g.trig, Variant(g, route, ell).vertices)
    else !cert.bodyFixed && ell == 0.0
  }

  /** The certificate against the n-th body the choice starts too close to. */
  function CertIn(st: Station, id: Id, c: Choice, n: nat): EscapeCert
    requires Shaped(st) && id in st.bodies && Viable(st, id, c) && n < |c.contacts|
  {
    assert ViableContact(st, id, c.contacts[n]);
    var b, peer := st.bodies[id], st.bodies[c.contacts[n].peer];
    assert KitShaped(st.kit, b) && KitShaped(st.kit, peer);
    CertFor(b, peer, st.cfg.pairMargin + b.delta, SetsFor(st.kit, b, c), c.contacts[n])
  }

  /** The closest pairs are taken once for each body. */
  predicate DistinctPeers(contacts: seq<Escape.Contact>) {
    forall i, j :: 0 <= i < j < |contacts| ==> contacts[i].peer != contacts[j].peer
  }

  lemma NoAngle()
    ensures WrapAngle(0.0) == 0.0
  {
    var x := K_PI / (2.0 * K_PI);
    assert x == 0.5;
    assert x.Floor == 0;
  }

  lemma SameIsSamePlace(p: Pose)
    ensures SamePlace(p, p)
  {
    NoAngle();
    assert p.yaw - p.yaw == 0.0;
  }

  lemma {:induction false} CertsAre(st: Station, id: Id, c: Choice, m: nat, n: nat)
    requires Shaped(st) && id in st.bodies && Viable(st, id, c) && n < m <= |c.contacts|
    requires forall k :: 0 <= k < |c.contacts[..m]| ==> ViableContact(st, id, c.contacts[..m][k])
    ensures var certs := CertsFor(st, id, SetsFor(st.kit, st.bodies[id], c), c.contacts[..m]);
            |certs| == m && certs[n] == CertIn(st, id, c, n)
  {
    hide SetsFor, CertFor, ViableContact, Shaped;
    assert c.contacts[..m][..m - 1] == c.contacts[..m - 1];
    if n < m - 1 { CertsAre(st, id, c, m - 1, n); }
    else if m > 1 { CertsAre(st, id, c, m - 1, 0); }
  }

  lemma {:induction false} MatchesAt(o: Id, at: Pose, certs: seq<EscapeCert>, n: nat)
    requires n < |certs| && certs[n].peerId == o && SamePlace(certs[n].peerPose, at)
    requires forall i :: 0 <= i < n ==> certs[i].peerId != o
    ensures MatchCert(o, at, certs) == Some(certs[n])
  {
    if n > 0 { MatchesAt(o, at, certs[1..], n - 1); }
  }

  /** The verifier finds the certificate of each body by its name and place. */
  lemma CertIsMatched(st: Station, id: Id, c: Choice, n: nat)
    requires Shaped(st) && id in st.bodies && Viable(st, id, c) && n < |c.contacts| && DistinctPeers(c.contacts)
    ensures c.contacts[n].peer in st.bodies
    ensures MatchCert(c.contacts[n].peer, st.bodies[c.contacts[n].peer].pose, PlanFor(st, id, c).certs)
         == Some(CertIn(st, id, c, n))
  {
    assert ViableContact(st, id, c.contacts[n]);
    var certs := PlanFor(st, id, c).certs;
    PlanCerts(st, id, c);
    hide SetsFor, PlanFor, Shaped, CertIn, Viable, SamePlace;
    SameIsSamePlace(st.bodies[c.contacts[n].peer].pose);
    CertNames(st, id, c, n);
    forall m | 0 <= m < n ensures certs[m].peerId != c.contacts[n].peer { CertNames(st, id, c, m); }
    MatchesAt(c.contacts[n].peer, st.bodies[c.contacts[n].peer].pose, certs, n);
  }

  lemma PlanCerts(st: Station, id: Id, c: Choice)
    requires Shaped(st) && id in st.bodies && Viable(st, id, c)
    ensures var certs := PlanFor(st, id, c).certs;
            |certs| == |c.contacts| && forall m :: 0 <= m < |certs| ==> certs[m] == CertIn(st, id, c, m)
  {
    assert c.contacts[..|c.contacts|] == c.contacts;
    var certs := PlanFor(st, id, c).certs;
    if c.contacts != [] { CertsAre(st, id, c, |c.contacts|, 0); }
    forall m | 0 <= m < |certs| ensures certs[m] == CertIn(st, id, c, m) {
      CertsAre(st, id, c, |c.contacts|, m);
    }
    hide SetsFor, CertIn, Shaped;
  }

  lemma CertNames(st: Station, id: Id, c: Choice, n: nat)
    requires Shaped(st) && id in st.bodies && Viable(st, id, c) && n < |c.contacts|
    ensures c.contacts[n].peer in st.bodies && CertIn(st, id, c, n).peerId == c.contacts[n].peer
    ensures CertIn(st, id, c, n).peerPose == st.bodies[c.contacts[n].peer].pose
  {
    assert ViableContact(st, id, c.contacts[n]);
    hide SetsFor;
  }

  /** A unicycle's footprint is turned with it; another's is not, and its rotation centre is its own
      origin. */
  lemma Holds(g: Gauge, shape: Shape, model: Model, route: RouteDecl, ell: real, cert: EscapeCert, e: nat,
              i: nat, p: EscapeMotion.Placement)
    requires GoodGauge(g) && IsTrig(g.trig) && g.stepYaw < K_PI && WellFormed(shape)
    requires shape.rect <==> model == Unicycle
    requires Driveable(g, model, route, ell, cert)
    requires var sweep := MadeSweep(g, shape, model, route, ell);
             && i <= e < |sweep.pts| && EscapeMotion.StepsClear(shape, sweep, e, cert)
             && EscapeMotion.Passed(sweep, i, p)
    ensures EscapeMotion.Keeps(shape, cert, p, cert.rhs - Escape.TOL - EscapeMotion.SLACK)
  {
    hide IsTrig, Continuous, EscapeMotion.Primitive, EscapeMotion.Passed, EscapeMotion.Keeps;
    hide EscapeMotion.StepsClear, Variant;
    var sweep := MadeSweep(g, shape, model, route, ell);
    EllOf(g, shape, model, route, ell);
    if model == Unicycle && i > 0 { MadeStepIsPrimitive(g, shape, route, ell, i); }
    hide MadeSweep;
    EscapeMotion.EscapeHoldsBetweenSamples(shape, sweep, e, cert, i, p);
  }

  /** From the verifier's answer to the gap. Whatever the planner admits from a choice that starts too
      close to a parked body, in every variant, at every translation and heading the vehicle passes up
      to the first sample that is clear of the body by the full margin, keeps the gap the choice started
      with between all corners of both. */
  lemma AdmittedRouteKeepsGap(st: Station, id: Id, c: Choice, turn: Turn, n: nat, v: nat, i: nat,
                              p: EscapeMotion.Placement, k: nat, j: nat)
    requires StationInv(st) && Tries(st, TryMove(id, c)) && MoveRight(st, TryMove(id, c), turn)
    requires !turn.answer.hard && n < |c.contacts| && DistinctPeers(c.contacts)
    requires IsTrig(st.kit.gauge.trig) && st.kit.gauge.stepYaw < K_PI
    requires var b, cert := st.bodies[id], CertIn(st, id, c, n);
             var sets := SetsFor(st.kit, b, c);
             && v < |sets| && |sets[v].pts| > 0 && i <= LastTested(cert, sets[v], v)
             && Driveable(st.kit.gauge, b.spec.model, RouteFor(b, c), sets[v].ell, cert)
             && EscapeMotion.Passed(sets[v], i, p) && k < |b.shape.corners| && j < |cert.peerVerts|
    ensures EscapeMotion.Gap(st.bodies[id].shape, CertIn(st, id, c, n), p, k, j)
            >= c.contacts[n].gap - Escape.TOL - EscapeMotion.SLACK
  {
    var b, plan, cert := st.bodies[id], PlanFor(st, id, c), CertIn(st, id, c, n);
    var sets := SetsFor(st.kit, b, c);
    CandidateIsGood(st, TryMove(id, c));
    CertIsMatched(st, id, c, n);
    assert ViableContact(st, id, c.contacts[n]);
    AdmittedSteps(st, id, c, turn, n, v);
    KitRect(st, id);
    MadeAt(st.kit, b, c, v);
    hide PlanFor, SetsFor, StationInv, MoveRight, Tries, IsTrig, LastTested, Driveable, EscapeMotion.Passed;
    hide EscapeMotion.StepsClear, MadeSweep, EscapeMotion.Keeps;
    Holds(st.kit.gauge, b.shape, b.spec.model, RouteFor(b, c), sets[v].ell, cert,
          LastTested(cert, sets[v], v), i, p);
    CertGap(st, id, c, n, p, k, j);
  }

  lemma KitRect(st: Station, id: Id)
    requires Shaped(st) && id in st.bodies
    ensures var b := st.bodies[id];
            GoodGauge(st.kit.gauge) && WellFormed(b.shape) && (b.shape.rect <==> b.spec.model == Unicycle)
  {
    assert KitShaped(st.kit, st.bodies[id]);
  }

  lemma AdmittedSteps(st: Station, id: Id, c: Choice, turn: Turn, n: nat, v: nat)
    requires StationInv(st) && Tries(st, TryMove(id, c)) && MoveRight(st, TryMove(id, c), turn)
    requires !turn.answer.hard && n < |c.contacts| && DistinctPeers(c.contacts)
    requires v < |SetsFor(st.kit, st.bodies[id], c)| && |SetsFor(st.kit, st.bodies[id], c)[v].pts| > 0
    ensures var cert, sweep := CertIn(st, id, c, n), SetsFor(st.kit, st.bodies[id], c)[v];
            EscapeMotion.StepsClear(st.bodies[id].shape, sweep, LastTested(cert, sweep, v), cert)
  {
    CandidateIsGood(st, TryMove(id, c));
    CertIsMatched(st, id, c, n);
    assert ViableContact(st, id, c.contacts[n]);
    var plan, cert := PlanFor(st, id, c), CertIn(st, id, c, n);
    CandidateAsks(st, id, plan);
    hide SetsFor, NaiveAnswer, CertsFor, PrefixesEnd, SweepOf, Swept, EscapeMotion.StepsClear, LastTested;
    AdmittedStepsClear(st.Ask(id, plan.certs), plan.sets, Zeros(|plan.sets|), turn.answer.s, v,
                       c.contacts[n].peer, cert);
  }

  lemma CandidateAsks(st: Station, id: Id, p: Plan)
    requires StationInv(st) && id in st.bodies && GoodCandidate(st.kit, st.bodies[id], p)
    ensures WellFormedSweeps(st.Ask(id, p.certs), p.sets, Zeros(|p.sets|))
  {
    hide SweepOf, PrefixEnds, Swept;
    assert WellFormedBody(st.bodies[id]);
  }

  lemma CertGap(st: Station, id: Id, c: Choice, n: nat, p: EscapeMotion.Placement, k: nat, j: nat)
    requires Shaped(st) && id in st.bodies && Viable(st, id, c) && n < |c.contacts|
    requires k < |st.bodies[id].shape.corners| && j < |CertIn(st, id, c, n).peerVerts|
    requires var cert := CertIn(st, id, c, n);
             EscapeMotion.Keeps(st.bodies[id].shape, cert, p, cert.rhs - Escape.TOL - EscapeMotion.SLACK)
    ensures EscapeMotion.Gap(st.bodies[id].shape, CertIn(st, id, c, n), p, k, j)
            >= c.contacts[n].gap - Escape.TOL - EscapeMotion.SLACK
  {
    assert ViableContact(st, id, c.contacts[n]);
    var b, peer, cert := st.bodies[id], st.bodies[c.contacts[n].peer], CertIn(st, id, c, n);
    assert KitShaped(st.kit, b) && KitShaped(st.kit, peer);
    hide SetsFor, EscapeMotion.Keeps, EscapeMotion.Gap, BoxOf;
    EscapeMotion.GapIsKept(c.contacts[n], b.shape, b.hx, b.hy, peer.pose, Placed(peer.shape, peer.At()),
                           cert, p, k, j);
  }
}
