/** How many routes a session of a vehicle can be given in the whole system. The station counts them
    by the session it last certified; that it never counts a session anew rests on the vehicles, which
    number their sessions on, and on the order in which their requests are heard. */
module FleetBudget {
  import opened ResetProtocol
  import opened Bodies
  import opened PlannerModel
  import opened Reservations
  import opened ReservationLife
  import opened Fleet
  import Sweep
  import Ex = ExecutorModel
  import Runs = ExecutorRuns
  import L = Link
  import LV = LinkVehicle

  /** The routes installed for one session of one vehicle. */
  function Routes(installs: seq<Granted>, id: Id, session: nat): nat {
    if installs == [] then 0
    else
      var g := installs[|installs| - 1];
      Routes(installs[..|installs| - 1], id, session) + if g.id == id && g.session == session then 1 else 0
  }

  lemma RoutesMore(installs: seq<Granted>, g: Granted, id: Id, session: nat)
    ensures Routes(installs + [g], id, session)
         == Routes(installs, id, session) + if g.id == id && g.session == session then 1 else 0
  {
    assert (installs + [g])[..|installs|] == installs;
  }

  // ---------------------------------------------------------------- sessions rise with requests

  ghost predicate InOrder(f: State, id: Id, s: Session, t: Session) {
    (id, s) in f.sessions && (id, t) in f.sessions && s.generation <= t.generation ==> s.session <= t.session
  }

  ghost predicate Before(f: State, id: Id, s: Session) {
    (id, s) in f.sessions ==>
      id in f.execs && s.generation <= f.execs[id].generation && s.session <= f.execs[id].header.session
  }

  ghost predicate SessionsRise(f: State) {
    (forall id, s, t :: InOrder(f, id, s, t)) && (forall id, s :: Before(f, id, s))
  }

  lemma HeaderRises(e: Ex.Exec, op: Runs.Op)
    requires Runs.LocalInv(e) && Runs.Allowed(e, op) && Runs.NumbersOn(e, op)
    ensures e.header.session <= Runs.Apply(e, op).header.session
    ensures e.generation <= Runs.Apply(e, op).generation
  {
    hide Runs.Apply;
    Runs.OpForward(e, op);
    Runs.HeaderAfter(e, op);
  }

  /** One generation carries one session. */
  lemma SameGeneration(f: State, id: Id, s: Session, m: Ex.Measurement)
    requires FleetInv(f) && id in f.execs && (id, s) in f.sessions && Ex.SessionDue(f.execs[id], m)
    ensures s.generation == f.execs[id].generation ==> s.session == f.execs[id].header.session
  {
    assert Linked(f, id);
    assert NoteOf((id, s).1) in Notes(f, id);
    LV.SessionIsNote(f.execs[id], m);
    NoteSession(LV.CoreOf(f.execs[id]), SeatIn(f, id), Words(f, id), Notes(f, id), f.st.next, NoteOf(s));
    hide L.LinkInv, StationInv, PairwiseDisjoint, LV.CoreOf;
  }

  lemma NoteSession(c: L.Core, seat: Option<L.Seat>, words: set<L.Word>, notes: set<L.Note>, next: nat,
                    n: L.Note)
    requires L.LinkInv(c, seat, words, notes, next) && n in notes
    ensures n.gen == c.gen ==> n.session == c.session
  {
    assert L.NoteInv(c, words, next, n);
  }

  lemma VehicleKeepsOrder(f: State, id: Id, op: Runs.Op)
    requires FleetInv(f) && SessionsRise(f) && Possible(f, VehicleDoes(id, op))
    ensures SessionsRise(Next(f, VehicleDoes(id, op)))
  {
    hide L.LinkInv, StationInv, PairwiseDisjoint, Runs.Apply, Ex.SessionDue, Ex.MakeSession;
    var g := Next(f, VehicleDoes(id, op));
    assert Linked(f, id);
    HeaderRises(f.execs[id], op);
    forall o, s ensures Before(g, o, s) {
      assert Before(f, o, s);
      if op.PublishOp? { PublishedHeader(f.execs[id], op.m); }
    }
    forall o, s, t ensures InOrder(g, o, s, t) {
      assert InOrder(f, o, s, t) && Before(f, o, s) && Before(f, o, t);
      if op.PublishOp? && o == id {
        PublishedHeader(f.execs[id], op.m);
        if (id, t) in f.sessions { SameGeneration(f, id, t, op.m); }
      }
    }
  }

  lemma PublishedHeader(e: Ex.Exec, m: Ex.Measurement)
    ensures var s := Ex.MakeSession(e, m); s.generation == e.generation && s.session == e.header.session
    ensures Runs.Apply(e, Runs.PublishOp(m)).generation == e.generation
    ensures Runs.Apply(e, Runs.PublishOp(m)).header == e.header
  {
  }

  // ---------------------------------------------------------------- the book of one body

  /** The request a body is in was published, or it is in none. */
  ghost predicate RequestHeard(f: State, id: Id, b: Body) {
    (b.generation == 0 && b.session == 0)
    || exists s :: (id, s) in f.sessions && s.generation == b.generation && s.session == b.session
  }

  /** The budget is that of the session that was certified last, and none later was given a route. */
  ghost predicate BookOf(installs: seq<Granted>, id: Id, b: Body) {
    && b.grants <= 3 && Routes(installs, id, b.budgetSession) <= b.grants
    && b.budgetSession <= b.session && (b.certificate.Certified? ==> b.budgetSession == b.session)
    && (forall s: nat :: s > b.budgetSession ==> Routes(installs, id, s) == 0)
  }

  ghost predicate BookInv(f: State) {
    && SessionsRise(f)
    && (forall id :: id in f.st.bodies ==>
          BookOf(f.installs, id, f.st.bodies[id]) && RequestHeard(f, id, f.st.bodies[id]))
    && (forall id, s: nat :: id !in f.st.bodies ==> Routes(f.installs, id, s) == 0)
    && (forall id, s: nat :: Routes(f.installs, id, s) <= 3)
  }

  /** How an act moves the request, the certificate and the budgeted session of a body; `v` is the
      report, if it was one. */
  ghost predicate Moves(b: Body, c: Body, v: Option<Vehicle>) {
    && (|| (c.generation == b.generation && c.session == b.session)
        || (v.Some? && v.value.generation > b.generation && c.generation == v.value.generation
            && c.session == v.value.session && c.budgetSession == b.budgetSession && !c.certificate.Certified?))
    && (c.budgetSession == b.budgetSession || (c.budgetSession == c.session && c.session == b.session))
    && (c.certificate.Certified? ==>
          c.budgetSession == c.session || (b.certificate.Certified? && c.session == b.session
                                           && c.budgetSession == b.budgetSession))
  }

  lemma DecisionsMove(t: Desk, reason: Reason, detail: string, blockers: seq<Id>)
    ensures Moves(t.body, EmitBrake(t, reason, detail, blockers).body, None)
    ensures Moves(t.body, EmitReject(t, reason, detail, blockers).body, None)
    ensures Moves(t.body, EmitHold(t, reason, detail, blockers).body, None)
  {
  }

  lemma RoutesMove(cfg: PlannerConfig, t: Desk, worldChanged: bool, answer: Sweep.Violation, p: Plan,
                   hi: seq<nat>, cursor: seq<nat>)
    ensures Moves(t.body, ExtendOne(cfg, t, worldChanged, answer, hi).body, None)
    ensures Moves(t.body, Advanced(t, cursor).body, None)
    ensures Moves(t.body, InstallPlan(t, p, hi).body, None)
  {
    hide EmitBrake, EmitReject, Progressed, ExtendOne, Revokes, Extends, Waits, NewLimit, Blockers;
    ExtendMoves(cfg, t, worldChanged, answer, hi);
    DecisionsMove(t, Reason.NoRoute, "Reset replan budget exhausted", []);
  }

  lemma ExtendMoves(cfg: PlannerConfig, t: Desk, worldChanged: bool, answer: Sweep.Violation, hi: seq<nat>)
    ensures Moves(t.body, ExtendOne(cfg, t, worldChanged, answer, hi).body, None)
  {
    hide EmitBrake, EmitReject, ExtendPlan, Revokes, Extends, Waits, NewLimit, Blockers, Moves;
    NothingMoves(t.body);
    DecisionsMove(t, SceneChanged, "the scene changed under the route", Blockers(answer));
    DecisionsMove(t, Replan, "the rest of the route is blocked", Blockers(answer));
    if Extends(cfg, t.body, worldChanged, answer) {
      ExtendsHeld(cfg, t.body, worldChanged, answer);
      LongerMoves(t, NewLimit(cfg, t.body.reservation.plan, answer), hi);
    }
    WaitingMoves(t, Blockers(answer));
  }

  lemma ExtendsHeld(cfg: PlannerConfig, b: Body, worldChanged: bool, answer: Sweep.Violation)
    requires Extends(cfg, b, worldChanged, answer)
    ensures b.HasPlan()
  {
  }

  lemma WaitingMoves(t: Desk, blockers: seq<Id>)
    ensures Moves(t.body, t.body.(blockers := blockers), None)
  {
  }

  lemma LongerMoves(t: Desk, limit: real, hi: seq<nat>)
    requires t.body.HasPlan()
    ensures Moves(t.body, ExtendPlan(t, limit, hi).body, None)
  {
  }

  /** The request, the certificate and the budgeted session are untouched. */
  ghost predicate SameBook(b: Body, c: Body) {
    c.generation == b.generation && c.session == b.session && c.budgetSession == b.budgetSession
    && c.certificate == b.certificate
  }

  lemma SyncParts(kit: Kit, t: Desk, v: Vehicle, newRequest: bool, isNew: bool)
    ensures SameBook(t.body, Anchored(kit, t.body, v, isNew))
    ensures SameBook(t.body, Received(t, v).body)
    ensures Moves(t.body, Withdrawn(t, v).body, None)
    ensures Withdrawn(t, v).body.certificate == t.body.certificate
            || !Withdrawn(t, v).body.certificate.Certified?
    ensures !newRequest ==> Requested(t, v, newRequest, false) == t
  {
    hide StaleQuiescent, Moves, SameBook, Anchored, Received, EmitBrake;
    AnchoredBook(kit, t.body, v, isNew);
    ReceivedBook(t, v);
    NothingMoves(t.body);
    DecisionsMove(t, Replan, "permission retained until stopping is acknowledged", []);
    BrakeUncertifies(t);
  }

  lemma AnchoredBook(kit: Kit, b: Body, v: Vehicle, isNew: bool)
    ensures SameBook(b, Anchored(kit, b, v, isNew))
  {
    hide StaleQuiescent;
  }

  lemma ReceivedBook(t: Desk, v: Vehicle)
    ensures SameBook(t.body, Received(t, v).body)
  {
  }

  lemma BrakeUncertifies(t: Desk)
    ensures var c := EmitBrake(t, Replan, "permission retained until stopping is acknowledged", []).body;
            c.certificate == t.body.certificate || !c.certificate.Certified?
  {
  }

  lemma ReleasedMoves(kit: Kit, t: Desk, v: Vehicle, newRequest: bool)
    requires !newRequest ==> v.session == t.body.session
    ensures Moves(t.body, Released(kit, t, v, newRequest).body, Some(v))
    ensures newRequest ==> Released(kit, t, v, newRequest) == t
  {
    hide EmitHold;
    if !t.halted && ExactCertificate(t.body, v, newRequest) {
      DecisionsMove(t.(body := ReleasedBody(kit, t.body, v)), NoReason, "Reset permission retired", []);
    }
  }

  lemma RestMoves(kit: Kit, t: Desk, v: Vehicle, newRequest: bool)
    requires !newRequest ==> v.session == t.body.session
    ensures var c := SyncRest(kit, t, v, newRequest).body;
            Moves(t.body, c, None)
            && (newRequest && !t.body.certificate.Certified? ==>
                  c.budgetSession == t.body.budgetSession && !c.certificate.Certified?
                  && c.session == t.body.session && c.generation == t.body.generation)
  {
    hide Withdrawn, Released, Received;
    var t2 := Withdrawn(t, v);
    var t3 := Released(kit, t2, v, newRequest);
    SyncParts(kit, t, v, newRequest, false);
    WithdrawnStaysIn(t, v);
    ReleasedMoves(kit, t2, v, newRequest);
    ReleasedStaysIn(kit, t2, v, newRequest);
    SyncParts(kit, t3, v, newRequest, false);
  }

  lemma WithdrawnStaysIn(t: Desk, v: Vehicle)
    ensures var c := Withdrawn(t, v).body;
            c.generation == t.body.generation && c.session == t.body.session
            && c.budgetSession == t.body.budgetSession
  {
  }

  lemma ReleasedStaysIn(kit: Kit, t: Desk, v: Vehicle, newRequest: bool)
    ensures var c := Released(kit, t, v, newRequest).body;
            c.generation == t.body.generation && c.session == t.body.session
  {
    hide ExactCertificate;
  }

  lemma SyncMoves(kit: Kit, t: Desk, v: Vehicle)
    ensures Moves(t.body, SyncBody(kit, t, v, false).body, Some(v))
  {
    hide Anchored, SyncRest, Outdated;
    if !t.halted && !Outdated(v, t.body) {
      var newRequest := NewRequest(t.body, v);
      var t1 := t.(body := Anchored(kit, t.body, v, false));
      var t2 := Requested(t1, v, newRequest, false);
      SyncParts(kit, t, v, newRequest, false);
      NotOutdated(t.body, v);
      RequestMoves(t1, v, newRequest);
      SyncParts(kit, t1, v, newRequest, false);
      RestMoves(kit, t2, v, newRequest);
      hide Requested;
    }
  }

  lemma NotOutdated(b: Body, v: Vehicle)
    requires !Outdated(v, b)
    ensures !NewRequest(b, v) ==> v.session == b.session && v.generation == b.generation
  {
  }

  /** A new request ends the certificate of the one before; at the last decision id nothing happens. */
  lemma RequestMoves(t: Desk, v: Vehicle, newRequest: bool)
    ensures var r := Requested(t, v, newRequest, false);
            newRequest ==>
              && r.body.budgetSession == t.body.budgetSession
              && (|| r == t.(halted := true)
                  || (r.body.generation == v.generation && r.body.session == v.session
                      && !r.body.certificate.Certified?))
  {
  }

  /** The first report of a vehicle. */
  lemma NewcomerMoves(kit: Kit, t: Desk, v: Vehicle)
    requires t.body == NewBody(kit, v) && !t.halted
    ensures var c := SyncBody(kit, t, v, true).body;
            && c.grants == 0 && c.budgetSession == 0 && !c.certificate.Certified?
            && ((c.generation == 0 && c.session == 0)
                || (c.generation == v.generation && c.session == v.session))
  {
    hide Anchored, SyncRest;
    var t1 := t.(body := Anchored(kit, t.body, v, true));
    SyncParts(kit, t, v, NewRequest(t.body, v), true);
    AnchoredCountsNew(kit, t.body, v);
    if v.generation == 0 || t1.Spent() {
      NothingRequested(t1, v);
      var t2 := Requested(t1, v, NewRequest(t.body, v), true);
      DiscoveredRest(kit, t2, v, NewRequest(t.body, v));
    } else {
      NewcomerRequested(kit, t1, v);
    }
  }

  lemma AnchoredCountsNew(kit: Kit, b: Body, v: Vehicle)
    ensures var c := Anchored(kit, b, v, true); c.grants == b.grants && c.HasPlan() == b.HasPlan()
  {
    hide StaleQuiescent;
  }

  lemma NothingRequested(t: Desk, v: Vehicle)
    requires t.body.generation == 0 && (v.generation == 0 || t.Spent())
    ensures var r := Requested(t, v, v.generation > 0, true);
            r.body.generation == 0 && r.body.certificate == t.body.certificate
            && r.body.grants == t.body.grants && r.body.budgetSession == t.body.budgetSession
            && r.body.session == if v.generation > 0 then t.body.session else v.session
  {
  }

  lemma DiscoveredRest(kit: Kit, t: Desk, v: Vehicle, newRequest: bool)
    requires t.body.generation == 0
    ensures SyncRest(kit, t, v, newRequest) == t
  {
  }

  lemma NewcomerRequested(kit: Kit, t: Desk, v: Vehicle)
    requires v.generation > 0 && !t.Spent() && t.body.generation == 0 && !t.body.HasPlan()
    requires t.body.grants == 0 && t.body.budgetSession == 0
    ensures var c := SyncRest(kit, Requested(t, v, true, true), v, true).body;
            && c.grants == 0 && c.budgetSession == 0 && !c.certificate.Certified?
            && c.generation == v.generation && c.session == v.session
  {
    var t1 := Requested(t, v, true, true);
    assert !t1.body.HasPlan() && t1.body.generation == v.generation;
    ReleasedMoves(kit, Withdrawn(t1, v), v, true);
    assert Withdrawn(t1, v) == t1;
  }

  // ---------------------------------------------------------------- acts

  lemma ActMoves(st: Station, act: Act, id: Id)
    requires StationInv(st) && Enabled(st, act) && id in st.bodies
    ensures id in Do(st, act).bodies
    ensures Moves(st.bodies[id], Do(st, act).bodies[id],
                  if act.Sync? && act.v.id == id then Some(act.v) else None)
  {
    hide SyncVehicle, EmitBrake, EmitReject, EmitHold, Advanced, InstallPlan, ExtendOne, GoodWorld, Moves;
    hide Sweep.NaiveAnswer, PrefixEnds, WellFormedPlan, Asks, PlannerModel.Extends, KitShaped, Verified, GoodCandidate;
    NothingMoves(st.bodies[id]);
    match act
    case Sync(v) => SyncActMoves(st, v, id);
    case Advance(o, cursor) => RoutesMove(st.cfg, st.At(o), false, NO_ANSWER, NO_PLAN, [], cursor);
    case Brakes(o, reason, detail, blockers) => DecisionsMove(st.At(o), reason, detail, blockers);
    case Rejects(o, reason, detail, blockers) => DecisionsMove(st.At(o), reason, detail, blockers);
    case Holds(o, reason, detail, blockers) => DecisionsMove(st.At(o), reason, detail, blockers);
    case Install(o, p, s, hi) => RoutesMove(st.cfg, st.At(o), false, NO_ANSWER, p, hi, []);
    case Extend(o, answer, hi) => RoutesMove(st.cfg, st.At(o), st.worldChanged, answer, NO_PLAN, hi, []);
    case _ =>
  }

  lemma NothingMoves(b: Body)
    ensures Moves(b, b, None)
  {
  }

  lemma SyncActMoves(st: Station, v: Vehicle, id: Id)
    requires StationInv(st) && id in st.bodies
    ensures id in SyncVehicle(st, v).bodies
    ensures Moves(st.bodies[id], SyncVehicle(st, v).bodies[id], if v.id == id then Some(v) else None)
  {
    hide SyncVehicle, SyncBody, Outdated, WellFormedBody, GoodWorld, KitShaped, Moves;
    NothingMoves(st.bodies[id]);
    NothingMovesAnyway(st.bodies[id], v);
    SyncIsPut(st, v);
    if st.halted { HaltedStays(st, v); }
    else if v.id == id { SyncMoves(st.kit, st.At(id), v); }
  }

  lemma NothingMovesAnyway(b: Body, v: Vehicle)
    ensures Moves(b, b, Some(v))
  {
  }

  lemma NewcomerActs(st: Station, v: Vehicle)
    requires StationInv(st) && v.id !in st.bodies && v.id in SyncVehicle(st, v).bodies
    ensures var c := SyncVehicle(st, v).bodies[v.id];
            && c.grants == 0 && c.budgetSession == 0 && !c.certificate.Certified?
            && ((c.generation == 0 && c.session == 0)
                || (c.generation == v.generation && c.session == v.session))
  {
    hide SyncVehicle, SyncBody, Outdated, WellFormedBody, GoodWorld, KitShaped;
    SyncIsPut(st, v);
    if st.halted { HaltedStays(st, v); }
    else {
      NewIsNotOutdated(st, v);
      NewcomerMoves(st.kit, WithVehicle(st, v).At(v.id), v);
    }
  }

  lemma NewIsNotOutdated(st: Station, v: Vehicle)
    requires v.id !in st.bodies
    ensures WithVehicle(st, v).bodies[v.id] == NewBody(st.kit, v)
  {
  }

  lemma OthersStay(st: Station, act: Act, id: Id)
    requires StationInv(st) && Enabled(st, act) && id !in st.bodies && id in Do(st, act).bodies
    ensures act.Sync? && act.v.id == id
  {
    hide SyncBody, EmitBrake, EmitReject, EmitHold, Advanced, InstallPlan, ExtendOne, GoodWorld, Touches;
    hide Sweep.NaiveAnswer, PrefixEnds, WellFormedPlan, Asks, PlannerModel.Extends, KitShaped, Verified;
    hide GoodCandidate, Outdated, GoodKit;
  }

  // ---------------------------------------------------------------- the whole system

  /** A report of a published request never names an earlier session. */
  lemma ReportRises(f: State, v: Vehicle, b: Body)
    requires SessionsRise(f) && Heard(f, v) && RequestHeard(f, v.id, b) && v.generation > b.generation
    ensures b.session <= v.session
  {
    var s :| (v.id, s) in f.sessions && Conveys(v, s);
    if !(b.generation == 0 && b.session == 0) {
      var t :| (v.id, t) in f.sessions && t.generation == b.generation && t.session == b.session;
      assert InOrder(f, v.id, t, s);
    }
  }

  lemma HeardRequest(f: State, v: Vehicle)
    requires Heard(f, v)
    ensures exists s :: (v.id, s) in f.sessions && s.generation == v.generation && s.session == v.session
  {
    var s :| (v.id, s) in f.sessions && Conveys(v, s);
  }

  /** The book of one body after one act, before a new route is written into it. */
  lemma MovedBook(installs: seq<Granted>, id: Id, b: Body, c: Body, v: Option<Vehicle>)
    requires BookOf(installs, id, b) && Moves(b, c, v) && Counts(b, c)
    requires v.Some? && v.value.generation > b.generation ==> b.session <= v.value.session
    ensures c.grants <= 3 && c.budgetSession <= c.session
    ensures c.certificate.Certified? ==> c.budgetSession == c.session
    ensures forall s: nat :: s > c.budgetSession ==> Routes(installs, id, s) == 0
    ensures b.HasPlan() || !c.HasPlan() ==> Routes(installs, id, c.budgetSession) <= c.grants
    ensures c.budgetSession == b.budgetSession && !b.HasPlan() && c.HasPlan() ==>
              Routes(installs, id, c.budgetSession) + 1 <= c.grants
  {
  }

  lemma ActKeepsBook(f: State, act: Act, id: Id)
    requires FleetInv(f) && BookInv(f) && Possible(f, StationDoes(act))
    requires id in Next(f, StationDoes(act)).st.bodies
    ensures var g := Next(f, StationDoes(act));
            BookOf(g.installs, id, g.st.bodies[id]) && RequestHeard(g, id, g.st.bodies[id])
  {
    hide FleetInv, StationInv, Enabled, Do, Moves, Counts, SessionsRise, Heard, RequestHeard, Routes;
    InvParts(f);
    ActsOnHeld(f.st, act);
    var st := Do(f.st, act);
    if id !in f.st.bodies {
      OthersStay(f.st, act, id);
      DoSync(f, act.v);
      NewcomerActs(f.st, act.v);
      HeardRequest(f, act.v);
      RequestOf(f, id, st.bodies[id], act.v);
      NotInstalled(f, act);
    } else {
      var b, c := f.st.bodies[id], st.bodies[id];
      var v := if act.Sync? && act.v.id == id then Some(act.v) else None;
      ActMoves(f.st, act, id);
      ActCounts(f.st, act, id);
      if v.Some? && act.v.generation > b.generation { ReportRises(f, act.v, b); }
      MovedBook(f.installs, id, b, c, v);
      RequestStays(f, id, b, c, v);
      if Installed(f.st, st, act) && act.id == id {
        InstalledIn(f, act);
        forall s: nat ensures Routes(f.installs + [GrantedTo(id, c)], id, s)
                           == Routes(f.installs, id, s) + if s == c.budgetSession then 1 else 0 {
          RoutesMore(f.installs, GrantedTo(id, c), id, s);
        }
      } else {
        OnlyInstalls(f, act, id);
      }
    }
  }

  lemma InvParts(f: State)
    requires FleetInv(f)
    ensures StationInv(f.st)
  {
  }

  /** An act that installs nothing for this body writes nothing about it. */
  lemma OnlyInstalls(f: State, act: Act, id: Id)
    requires StationInv(f.st) && Possible(f, StationDoes(act)) && id in f.st.bodies && id in Do(f.st, act).bodies
    requires !(Installed(f.st, Do(f.st, act), act) && act.id == id)
    ensures forall s: nat :: Routes(Next(f, StationDoes(act)).installs, id, s) == Routes(f.installs, id, s)
    ensures f.st.bodies[id].HasPlan() || !Do(f.st, act).bodies[id].HasPlan()
  {
    ActsOnHeld(f.st, act);
    hide Do, Enabled, StationInv, Heard;
    var st := Do(f.st, act);
    if Installed(f.st, st, act) {
      forall s: nat
        ensures Routes(f.installs + [GrantedTo(act.id, st.bodies[act.id])], id, s) == Routes(f.installs, id, s)
      {
        RoutesMore(f.installs, GrantedTo(act.id, st.bodies[act.id]), id, s);
      }
    }
    ReservationsEvolve(f.st, act, id);
  }

  /** An admission is of the session the budget stands for. */
  lemma InstalledIn(f: State, act: Act)
    requires FleetInv(f) && Possible(f, StationDoes(act)) && Installed(f.st, Do(f.st, act), act)
    requires BookOf(f.installs, act.id, f.st.bodies[act.id])
    ensures var b, c := f.st.bodies[act.id], Do(f.st, act).bodies[act.id];
            c.budgetSession == b.budgetSession && GrantedTo(act.id, c).session == c.budgetSession
  {
    hide L.LinkInv, PairwiseDisjoint, WellFormedBody, GoodWorld, Linked, Sweep.NaiveAnswer, PrefixEnds;
    hide GoodCandidate, Verified, KitShaped, Routes;
  }

  lemma NotInstalled(f: State, act: Act)
    requires StationInv(f.st) && Possible(f, StationDoes(act)) && act.Sync?
    ensures Next(f, StationDoes(act)).installs == f.installs
  {
    hide Do, Enabled, StationInv, Heard;
  }

  lemma RequestOf(f: State, id: Id, c: Body, v: Vehicle)
    requires v.id == id
    requires exists s :: (id, s) in f.sessions && s.generation == v.generation && s.session == v.session
    requires (c.generation == 0 && c.session == 0) || (c.generation == v.generation && c.session == v.session)
    ensures RequestHeard(f, id, c)
    ensures forall g: State :: g.sessions == f.sessions ==> RequestHeard(g, id, c)
  {
  }

  lemma RequestStays(f: State, id: Id, b: Body, c: Body, v: Option<Vehicle>)
    requires RequestHeard(f, id, b) && Moves(b, c, v)
    requires v.Some? ==> v.value.id == id && Heard(f, v.value)
    ensures forall g: State :: g.sessions == f.sessions ==> RequestHeard(g, id, c)
  {
    if c.generation == b.generation && c.session == b.session {
    } else {
      HeardRequest(f, v.value);
      RequestOf(f, id, c, v.value);
    }
  }

  lemma EventKeepsBook(f: State, ev: Event)
    requires FleetInv(f) && BookInv(f) && Possible(f, ev)
    ensures BookInv(Next(f, ev))
  {
    hide FleetInv, StationInv, Enabled, Do, SessionsRise, Heard, BookOf;
    InvParts(f);
    match ev
    case VehicleDoes(id, op) =>
      VehicleKeepsOrder(f, id, op);
      SessionsOnlyGrow(f, id, op);
    case CoordinatorSays(d) => SameOrder(f, Next(f, ev));
    case StationDoes(act) =>
      SameOrder(f, Next(f, ev));
      var g := Next(f, ev);
      forall id | id in g.st.bodies
        ensures BookOf(g.installs, id, g.st.bodies[id]) && RequestHeard(g, id, g.st.bodies[id])
      {
        ActKeepsBook(f, act, id);
      }
      hide RequestHeard;
      forall id, s: nat ensures Routes(g.installs, id, s) <= 3
                             && (id !in g.st.bodies ==> Routes(g.installs, id, s) == 0) {
        WrittenRoutes(f, act, id, s);
      }
  }

  lemma SameOrder(f: State, g: State)
    requires SessionsRise(f) && g.sessions == f.sessions && g.execs == f.execs
    ensures SessionsRise(g)
  {
    forall id, s, t ensures InOrder(g, id, s, t) { assert InOrder(f, id, s, t); }
    forall id, s ensures Before(g, id, s) { assert Before(f, id, s); }
  }

  lemma SessionsOnlyGrow(f: State, id: Id, op: Runs.Op)
    requires FleetInv(f) && Possible(f, VehicleDoes(id, op))
    ensures var g := Next(f, VehicleDoes(id, op));
            g.st == f.st && g.installs == f.installs
            && forall o, b :: RequestHeard(f, o, b) ==> RequestHeard(g, o, b)
  {
    InvParts(f);
    hide FleetInv, Runs.Apply, Ex.MakeSession;
    var g := Next(f, VehicleDoes(id, op));
    forall o, b | RequestHeard(f, o, b) ensures RequestHeard(g, o, b) {
      if !(b.generation == 0 && b.session == 0) {
        var s :| (o, s) in f.sessions && s.generation == b.generation && s.session == b.session;
        assert (o, s) in g.sessions;
      }
    }
  }

  lemma WrittenRoutes(f: State, act: Act, id: Id, s: nat)
    requires FleetInv(f) && BookInv(f) && Possible(f, StationDoes(act))
    requires var g := Next(f, StationDoes(act)); id in g.st.bodies ==> BookOf(g.installs, id, g.st.bodies[id])
    ensures var g := Next(f, StationDoes(act));
            Routes(g.installs, id, s) <= 3 && (id !in g.st.bodies ==> Routes(g.installs, id, s) == 0)
  {
    hide FleetInv, StationInv, Enabled, Do, SessionsRise, Heard, RequestHeard;
    InvParts(f);
    ActsOnHeld(f.st, act);
    var st := Do(f.st, act);
    if id in f.st.bodies { ActCounts(f.st, act, id); }
    if Installed(f.st, st, act) {
      RoutesMore(f.installs, GrantedTo(act.id, st.bodies[act.id]), id, s);
      if act.id == id { InstalledIn(f, act); }
    }
  }

  /** At most three routes are ever installed for one session of one vehicle. */
  lemma {:induction false} AtMostThreePerSession(f0: State, evs: seq<Event>, f: State)
    requires Reachable(f0, evs, f)
    ensures FleetInv(f) && BookInv(f) && forall id, session: nat :: Routes(f.installs, id, session) <= 3
    decreases |evs|
  {
    hide FleetInv, Possible, Next, BookOf;
    ReachableIsGood(f0, evs, f);
    if evs == [] {
      assert SessionsRise(f) by { InitialRises(f); }
      assert f.st.bodies == map[];
    } else {
      var g :| Reachable(f0, evs[..|evs| - 1], g) && StationInv(g.st)
               && Possible(g, evs[|evs| - 1]) && f == Next(g, evs[|evs| - 1]);
      AtMostThreePerSession(f0, evs[..|evs| - 1], g);
      EventKeepsBook(g, evs[|evs| - 1]);
      hide SessionsRise, RequestHeard;
    }
  }

  lemma InitialRises(f: State)
    requires Initial(f)
    ensures SessionsRise(f)
  {
    forall id, s, t ensures InOrder(f, id, s, t) {}
    forall id, s ensures Before(f, id, s) {}
  }
}
