/** The life of one reservation: how it may change, what ends it, and how often one is given. */
module ReservationLife {
  import opened ResetProtocol
  import opened Bodies
  import opened PlannerModel
  import opened Reservations
  import Sweep

  /** The route and its sweeps are frozen; the rear moves only after the receipt of the latest Go,
      the limit only grows; a retiring reservation does not change at all. */
  ghost predicate Evolves(b: Body, c: Body) {
    b.HasPlan() && c.HasPlan() ==>
      var p, q := b.reservation.plan, c.reservation.plan;
      && q.session == p.session && q.generation == p.generation && q.route == p.route
      && q.sets == p.sets && q.certs == p.certs && q.total == p.total
      && |q.cursor| == |p.cursor| && |q.hi| == |p.hi|
      && (forall w :: 0 <= w < |p.cursor| ==> p.cursor[w] <= q.cursor[w])
      && p.sLimit <= q.sLimit
      && (b.IsRetiring() ==> c.reservation == b.reservation)
      && (q.cursor != p.cursor || q.sLimit != p.sLimit ==> b.ReceivedGo())
      && (q.sLimit == p.sLimit ==> q.hi == p.hi && q.grantId == p.grantId)
  }

  /** Whoever had no reservation gets one only by admission. */
  ghost predicate NotReserved(b: Body, c: Body) { !b.HasPlan() ==> !c.HasPlan() }

  lemma DecisionsEvolve(t: Desk, reason: Reason, detail: string, blockers: seq<Id>)
    ensures Evolves(t.body, EmitBrake(t, reason, detail, blockers).body)
    ensures Evolves(t.body, EmitReject(t, reason, detail, blockers).body)
    ensures Evolves(t.body, EmitHold(t, reason, detail, blockers).body)
    ensures NotReserved(t.body, EmitBrake(t, reason, detail, blockers).body)
    ensures NotReserved(t.body, EmitReject(t, reason, detail, blockers).body)
    ensures NotReserved(t.body, EmitHold(t, reason, detail, blockers).body)
  {
  }

  /** What a report can do to a reservation: keep the plan as it is, or take it away whole. */
  ghost predicate SamePlan(b: Body, c: Body) {
    c.HasPlan() ==> b.HasPlan() && c.reservation.plan == b.reservation.plan
                    && (b.IsRetiring() ==> c.IsRetiring())
  }

  lemma SyncSamePlan(kit: Kit, t: Desk, v: Vehicle, isNew: bool)
    ensures SamePlan(t.body, SyncBody(kit, t, v, isNew).body)
  {
    hide Outdated, Anchored, Requested, SyncRest;
    if !t.halted && (isNew || !Outdated(v, t.body)) {
      var t1 := t.(body := Anchored(kit, t.body, v, isNew));
      AnchoredSamePlan(kit, t.body, v, isNew);
      RequestedSamePlan(t1, v, NewRequest(t.body, v), isNew);
      RestSamePlan(kit, Requested(t1, v, NewRequest(t.body, v), isNew), v, NewRequest(t.body, v));
    }
  }

  lemma AnchoredSamePlan(kit: Kit, b: Body, v: Vehicle, isNew: bool)
    ensures var c := Anchored(kit, b, v, isNew);
            c.reservation == b.reservation && c.generation == b.generation
            && c.certificate == b.certificate
  {
    hide StaleQuiescent;
  }

  lemma RequestedSamePlan(t: Desk, v: Vehicle, newRequest: bool, isNew: bool)
    ensures var c := Requested(t, v, newRequest, isNew).body;
            SamePlan(t.body, c) && (t.body.HasPlan() ==> c.HasPlan())
  {
  }

  lemma WithdrawnSamePlan(t: Desk, v: Vehicle)
    ensures var c := Withdrawn(t, v).body; SamePlan(t.body, c) && (t.body.HasPlan() ==> c.HasPlan())
    ensures Withdrawn(t, v).body.generation == t.body.generation
  {
  }

  lemma ReleasedSamePlan(kit: Kit, t: Desk, v: Vehicle, newRequest: bool)
    ensures var c := Released(kit, t, v, newRequest).body;
            SamePlan(t.body, c)
            && (t.body.HasPlan() && !c.HasPlan() ==> !t.halted && ExactCertificate(t.body, v, newRequest))
            && c.generation == t.body.generation
  {
    hide ExactCertificate;
  }

  lemma ReceivedSamePlan(t: Desk, v: Vehicle)
    ensures var c := Received(t, v).body; SamePlan(t.body, c) && (t.body.HasPlan() ==> c.HasPlan())
    ensures Received(t, v).body.generation == t.body.generation
  {
  }

  lemma RestSamePlan(kit: Kit, t: Desk, v: Vehicle, newRequest: bool)
    ensures SamePlan(t.body, SyncRest(kit, t, v, newRequest).body)
    ensures SyncRest(kit, t, v, newRequest).body.generation == t.body.generation
  {
    hide Withdrawn, Released, Received;
    WithdrawnSamePlan(t, v);
    ReleasedSamePlan(kit, Withdrawn(t, v), v, newRequest);
    ReceivedSamePlan(Released(kit, Withdrawn(t, v), v, newRequest), v);
  }

  lemma SamePlanEvolves(b: Body, c: Body)
    requires SamePlan(b, c)
    ensures Evolves(b, c) && NotReserved(b, c)
  {
  }

  lemma ExtendOneEvolves(cfg: PlannerConfig, t: Desk, worldChanged: bool, answer: Sweep.Violation,
                         hi: seq<nat>)
    requires Extends(cfg, t.body, worldChanged, answer) ==> |hi| == |t.body.reservation.plan.hi|
    ensures var c := ExtendOne(cfg, t, worldChanged, answer, hi).body;
            Evolves(t.body, c) && NotReserved(t.body, c)
  {
    hide EmitBrake;
    DecisionsEvolve(t, SceneChanged, "the scene changed under the route", Blockers(answer));
    DecisionsEvolve(t, Replan, "the rest of the route is blocked", Blockers(answer));
  }

  lemma AdvancedEvolves(t: Desk, cursor: seq<nat>)
    requires WellFormedBody(t.body) && t.body.ReceivedGo() && Ahead(t.body.reservation.plan, cursor)
    ensures var c := Advanced(t, cursor).body; Evolves(t.body, c) && NotReserved(t.body, c)
  {
    hide Progressed, SweepOf, PrefixEnds;
  }

  lemma InstallEvolves(t: Desk, p: Plan, hi: seq<nat>)
    requires !t.body.HasPlan()
    ensures Evolves(t.body, InstallPlan(t, p, hi).body)
  {
  }

  lemma NothingEvolves(b: Body)
    ensures Evolves(b, b) && NotReserved(b, b)
  {
  }

  /** From admission to release a reservation only evolves, under every act of the planner. */
  lemma ReservationsEvolve(st: Station, act: Act, id: Id)
    requires StationInv(st) && Enabled(st, act) && id in st.bodies
    ensures id in Do(st, act).bodies
    ensures Evolves(st.bodies[id], Do(st, act).bodies[id])
    ensures !act.Install? || act.id != id ==> NotReserved(st.bodies[id], Do(st, act).bodies[id])
  {
    hide SyncVehicle, EmitBrake, EmitReject, EmitHold, Advanced, InstallPlan, ExtendOne, Evolves;
    hide Sweep.NaiveAnswer, PrefixEnds, WellFormedPlan, Asks, Extends, NotReserved, GoodWorld;
    var b := st.bodies[id];
    NothingEvolves(b);
    match act
    case Sync(v) => SyncEvolves(st, v, id);
    case Advance(o, cursor) => AdvancedEvolves(st.At(o), cursor);
    case Brakes(o, reason, detail, blockers) => DecisionsEvolve(st.At(o), reason, detail, blockers);
    case Rejects(o, reason, detail, blockers) => DecisionsEvolve(st.At(o), reason, detail, blockers);
    case Holds(o, reason, detail, blockers) => DecisionsEvolve(st.At(o), reason, detail, blockers);
    case Install(o, p, s, hi) => InstallEvolves(st.At(o), p, hi);
    case Extend(o, answer, hi) =>
      ExtensionLength(st, o, answer, hi);
      ExtendOneEvolves(st.cfg, st.At(o), st.worldChanged, answer, hi);
    case _ =>
  }

  lemma ExtensionLength(st: Station, id: Id, answer: Sweep.Violation, hi: seq<nat>)
    requires StationInv(st) && Enabled(st, Extend(id, answer, hi))
    ensures Extends(st.cfg, st.bodies[id], st.worldChanged, answer)
            ==> |hi| == |st.bodies[id].reservation.plan.hi|
  {
    hide Sweep.NaiveAnswer, PrefixEnds, SweepOf;
    assert WellFormedBody(st.bodies[id]);
  }

  lemma SyncEvolves(st: Station, v: Vehicle, id: Id)
    requires StationInv(st) && id in st.bodies
    ensures id in SyncVehicle(st, v).bodies
    ensures Evolves(st.bodies[id], SyncVehicle(st, v).bodies[id])
    ensures NotReserved(st.bodies[id], SyncVehicle(st, v).bodies[id])
  {
    hide SyncVehicle, SyncBody, Outdated, Evolves, NotReserved, WellFormedBody, GoodWorld;
    NothingEvolves(st.bodies[id]);
    SyncIsPut(st, v);
    if st.halted {
      HaltedStays(st, v);
    } else if v.id in st.bodies && Outdated(v, st.bodies[v.id]) {
    } else {
      var st1 := WithVehicle(st, v);
      if v.id == id {
        SyncSamePlan(st.kit, st1.At(id), v, false);
        SamePlanEvolves(st.bodies[id], SyncBody(st.kit, st1.At(id), v, false).body);
      }
    }
  }

  // ---------------------------------------------------------------- what ends it

  /** The same request, and a reservation if there was one. */
  ghost predicate KeepsPlan(b: Body, c: Body) {
    c.generation == b.generation && (b.HasPlan() ==> c.HasPlan())
  }

  lemma DecisionsKeepPlan(t: Desk, reason: Reason, detail: string, blockers: seq<Id>)
    ensures KeepsPlan(t.body, EmitBrake(t, reason, detail, blockers).body)
    ensures KeepsPlan(t.body, EmitReject(t, reason, detail, blockers).body)
    ensures KeepsPlan(t.body, EmitHold(t, reason, detail, blockers).body)
  {
  }

  lemma RoutesKeepPlan(cfg: PlannerConfig, t: Desk, worldChanged: bool, answer: Sweep.Violation,
                       p: Plan, hi: seq<nat>, cursor: seq<nat>)
    ensures KeepsPlan(t.body, ExtendOne(cfg, t, worldChanged, answer, hi).body)
    ensures KeepsPlan(t.body, Advanced(t, cursor).body)
    ensures !t.body.HasPlan() ==> KeepsPlan(t.body, InstallPlan(t, p, hi).body)
  {
    hide EmitBrake, EmitReject, Progressed;
    DecisionsKeepPlan(t, SceneChanged, "the scene changed under the route", Blockers(answer));
    DecisionsKeepPlan(t, Replan, "the rest of the route is blocked", Blockers(answer));
    DecisionsKeepPlan(t, Reason.NoRoute, "Reset replan budget exhausted", []);
  }

  /** No act but a report ends a reservation or changes a request. */
  lemma OnlyReportsRelease(st: Station, act: Act, id: Id)
    requires StationInv(st) && Enabled(st, act) && id in st.bodies && !act.Sync?
    ensures id in Do(st, act).bodies && KeepsPlan(st.bodies[id], Do(st, act).bodies[id])
  {
    hide EmitBrake, EmitReject, EmitHold, Advanced, InstallPlan, ExtendOne, GoodWorld;
    hide Sweep.NaiveAnswer, PrefixEnds, WellFormedPlan, Asks, Extends;
    match act
    case Advance(o, cursor) => RoutesKeepPlan(st.cfg, st.At(o), false, NO_ANSWER, NO_PLAN, [], cursor);
    case Brakes(o, reason, detail, blockers) => DecisionsKeepPlan(st.At(o), reason, detail, blockers);
    case Rejects(o, reason, detail, blockers) => DecisionsKeepPlan(st.At(o), reason, detail, blockers);
    case Holds(o, reason, detail, blockers) => DecisionsKeepPlan(st.At(o), reason, detail, blockers);
    case Install(o, p, s, hi) =>
      RoutesKeepPlan(st.cfg, st.At(o), false, NO_ANSWER, p, hi, []);
    case Extend(o, answer, hi) =>
      RoutesKeepPlan(st.cfg, st.At(o), st.worldChanged, answer, NO_PLAN, hi, []);
    case _ =>
  }

  const NO_ANSWER := Sweep.Violation(false, false, Sweep.Unbounded, None)
  const NO_PLAN := Plan(0, 0, NO_ROUTE, [], [], [], 0.0, 0.0, 0, [])

  /** A report ends a reservation only as the exact certificate of the outstanding Brake of the
      current request; an acknowledgement of an id not yet handed out does not count. */
  lemma SyncReleasesExactly(kit: Kit, t: Desk, v: Vehicle)
    requires t.body.HasPlan() && !SyncBody(kit, t, v, false).body.HasPlan() && v.ack < t.next
    ensures ExactCertificate(t.body, v, false) && v.generation == t.body.generation
    ensures v.session == t.body.session
  {
    hide Anchored, Requested, SyncRest, ExactCertificate;
    if !t.halted && !Outdated(v, t.body) {
      var newRequest := NewRequest(t.body, v);
      var t1 := t.(body := Anchored(kit, t.body, v, false));
      AnchoredSamePlan(kit, t.body, v, false);
      RequestedSamePlan(t1, v, newRequest, false);
      RequestedStays(t1, v, newRequest);
      RestReleasesExactly(kit, Requested(t1, v, newRequest, false), v, newRequest);
      CertificateSame(t.body, t1.body, v);
    }
  }

  lemma CertificateSame(b: Body, c: Body, v: Vehicle)
    requires b.certificate == c.certificate
    ensures ExactCertificate(b, v, false) == ExactCertificate(c, v, false)
    ensures !ExactCertificate(b, v, true)
  {
  }

  lemma RequestedStays(t: Desk, v: Vehicle, newRequest: bool)
    ensures !newRequest ==> Requested(t, v, newRequest, false) == t
    ensures t.next <= Requested(t, v, newRequest, false).next
  {
  }

  lemma RestReleasesExactly(kit: Kit, t: Desk, v: Vehicle, newRequest: bool)
    requires t.body.HasPlan() && !SyncRest(kit, t, v, newRequest).body.HasPlan() && v.ack < t.next
    ensures !newRequest && ExactCertificate(t.body, v, false)
  {
    hide Released, Received;
    WithdrawnSamePlan(t, v);
    ReleasedSamePlan(kit, Withdrawn(t, v), v, newRequest);
    ReceivedSamePlan(Released(kit, Withdrawn(t, v), v, newRequest), v);
  }

  // ---------------------------------------------------------------- how often one is given

  /** How one act moves the route budget of a body. */
  ghost predicate Counts(b: Body, c: Body) {
    && (b.grants <= 3 ==> c.grants <= 3)
    && (c.budgetSession == b.budgetSession && (b.HasPlan() || !c.HasPlan()) ==> c.grants == b.grants)
    && (c.budgetSession == b.budgetSession && !b.HasPlan() && c.HasPlan() ==> c.grants == b.grants + 1)
    && (c.budgetSession != b.budgetSession ==> c.grants == 0)
  }

  lemma DecisionsCount(t: Desk, reason: Reason, detail: string, blockers: seq<Id>)
    ensures Counts(t.body, EmitBrake(t, reason, detail, blockers).body)
    ensures Counts(t.body, EmitReject(t, reason, detail, blockers).body)
    ensures Counts(t.body, EmitHold(t, reason, detail, blockers).body)
  {
  }

  lemma RoutesCount(cfg: PlannerConfig, t: Desk, worldChanged: bool, answer: Sweep.Violation,
                    p: Plan, hi: seq<nat>, cursor: seq<nat>)
    ensures Counts(t.body, ExtendOne(cfg, t, worldChanged, answer, hi).body)
    ensures Counts(t.body, Advanced(t, cursor).body)
    ensures !t.body.HasPlan() ==> Counts(t.body, InstallPlan(t, p, hi).body)
  {
    hide EmitBrake, EmitReject, Progressed;
    DecisionsCount(t, SceneChanged, "the scene changed under the route", Blockers(answer));
    DecisionsCount(t, Replan, "the rest of the route is blocked", Blockers(answer));
    DecisionsCount(t, Reason.NoRoute, "Reset replan budget exhausted", []);
  }

  lemma SyncCounts(kit: Kit, t: Desk, v: Vehicle)
    ensures Counts(t.body, SyncBody(kit, t, v, false).body)
  {
    hide Anchored, Requested, SyncRest;
    if !t.halted && !Outdated(v, t.body) {
      var t1 := t.(body := Anchored(kit, t.body, v, false));
      AnchoredCounts(kit, t.body, v);
      RequestedCounts(t1, v, NewRequest(t.body, v));
      RestCounts(kit, Requested(t1, v, NewRequest(t.body, v), false), v, NewRequest(t.body, v));
    }
  }

  /** Nothing but a release touches the budget. */
  ghost predicate SameBudget(b: Body, c: Body) {
    c.grants == b.grants && c.budgetSession == b.budgetSession && c.HasPlan() == b.HasPlan()
  }

  lemma AnchoredCounts(kit: Kit, b: Body, v: Vehicle)
    ensures SameBudget(b, Anchored(kit, b, v, false))
  {
    hide StaleQuiescent;
  }

  lemma RequestedCounts(t: Desk, v: Vehicle, newRequest: bool)
    ensures SameBudget(t.body, Requested(t, v, newRequest, false).body)
  {
  }

  lemma WithdrawnCounts(t: Desk, v: Vehicle)
    ensures SameBudget(t.body, Withdrawn(t, v).body)
  {
  }

  lemma ReceivedCounts(t: Desk, v: Vehicle)
    ensures SameBudget(t.body, Received(t, v).body)
  {
  }

  lemma ReleasedCounts(kit: Kit, t: Desk, v: Vehicle, newRequest: bool)
    ensures var c := Released(kit, t, v, newRequest).body;
            Counts(t.body, c) && (t.body.HasPlan() || !c.HasPlan())
  {
    hide ExactCertificate;
  }

  lemma RestCounts(kit: Kit, t: Desk, v: Vehicle, newRequest: bool)
    ensures var c := SyncRest(kit, t, v, newRequest).body;
            Counts(t.body, c) && (t.body.HasPlan() || !c.HasPlan())
  {
    hide Withdrawn, Released, Received;
    var t2 := Withdrawn(t, v);
    var t3 := Released(kit, t2, v, newRequest);
    WithdrawnCounts(t, v);
    ReleasedCounts(kit, t2, v, newRequest);
    ReceivedCounts(t3, v);
  }

  lemma ActCounts(st: Station, act: Act, id: Id)
    requires StationInv(st) && Enabled(st, act) && id in st.bodies
    ensures id in Do(st, act).bodies && Counts(st.bodies[id], Do(st, act).bodies[id])
  {
    hide SyncVehicle, EmitBrake, EmitReject, EmitHold, Advanced, InstallPlan, ExtendOne, GoodWorld;
    hide Sweep.NaiveAnswer, PrefixEnds, WellFormedPlan, Asks, Extends;
    match act
    case Sync(v) => SyncActCounts(st, v, id);
    case Advance(o, cursor) => RoutesCount(st.cfg, st.At(o), false, NO_ANSWER, NO_PLAN, [], cursor);
    case Brakes(o, reason, detail, blockers) => DecisionsCount(st.At(o), reason, detail, blockers);
    case Rejects(o, reason, detail, blockers) => DecisionsCount(st.At(o), reason, detail, blockers);
    case Holds(o, reason, detail, blockers) => DecisionsCount(st.At(o), reason, detail, blockers);
    case Install(o, p, s, hi) => RoutesCount(st.cfg, st.At(o), false, NO_ANSWER, p, hi, []);
    case Extend(o, answer, hi) =>
      RoutesCount(st.cfg, st.At(o), st.worldChanged, answer, NO_PLAN, hi, []);
    case _ =>
  }

  lemma SyncActCounts(st: Station, v: Vehicle, id: Id)
    requires StationInv(st) && id in st.bodies
    ensures id in SyncVehicle(st, v).bodies
    ensures Counts(st.bodies[id], SyncVehicle(st, v).bodies[id])
  {
    hide SyncVehicle, SyncBody, Outdated, WellFormedBody, GoodWorld;
    SyncIsPut(st, v);
    if st.halted { HaltedStays(st, v); }
    else if v.id == id { SyncCounts(st.kit, st.At(id), v); }
  }

  // ---------------------------------------------------------------- over runs of the planner

  /** A run: each station follows from the one before by an enabled act. */
  ghost predicate IsRun(trace: seq<Station>, acts: seq<Act>) {
    && |trace| == |acts| + 1 && StationInv(trace[0]) && PairwiseDisjoint(trace[0])
    && trace[0].cfg.holdMargin > 0.000000001
    && forall k :: 0 <= k < |acts| ==>
         StationInv(trace[k]) && Enabled(trace[k], acts[k]) && trace[k + 1] == Do(trace[k], acts[k])
  }

  /** Over any run reservations stay pairwise disjoint. */
  lemma {:induction false} RunStaysDisjoint(trace: seq<Station>, acts: seq<Act>, k: nat)
    requires IsRun(trace, acts) && k <= |acts|
    ensures StationInv(trace[k]) && PairwiseDisjoint(trace[k]) && trace[k].cfg == trace[0].cfg
  {
    hide StationInv, PairwiseDisjoint, Enabled, Do;
    if k > 0 {
      RunStaysDisjoint(trace, acts, k - 1);
      ActKeepsDisjoint(trace[k - 1], acts[k - 1]);
      ActKeepsConfig(trace[k - 1], acts[k - 1]);
    }
  }
}
