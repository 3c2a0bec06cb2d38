/** What is already in the outbox never decides anything: every act does the same, and says the same,
    whatever was said before it in the update. */
module StationOutbox {
  import opened ResetProtocol
  import opened Geometry
  import opened Bodies
  import opened PlannerModel
  import opened Reservations
  import Sweep

  /** The same desk, or station, after something else was said first. */
  function Late(pre: seq<Decision>, t: Desk): Desk { t.(out := pre + t.out) }
  function Later(pre: seq<Decision>, st: Station): Station { st.(out := pre + st.out) }

  lemma Reassociate(pre: seq<Decision>, out: seq<Decision>, d: Decision)
    ensures (pre + out) + [d] == pre + (out + [d])
  {
  }

  lemma DecidesLate(pre: seq<Decision>, t: Desk, reason: Reason, detail: string, blockers: seq<Id>)
    ensures EmitBrake(Late(pre, t), reason, detail, blockers) == Late(pre, EmitBrake(t, reason, detail, blockers))
    ensures EmitReject(Late(pre, t), reason, detail, blockers) == Late(pre, EmitReject(t, reason, detail, blockers))
    ensures EmitHold(Late(pre, t), reason, detail, blockers) == Late(pre, EmitHold(t, reason, detail, blockers))
  {
    Reassociate(pre, t.out, Plain(t, Brake, reason, detail, blockers));
    Reassociate(pre, t.out, Plain(t, Reject, reason, detail, blockers));
    Reassociate(pre, t.out, Plain(t, GrantState.Hold, reason, detail, blockers));
  }

  lemma GoesLate(pre: seq<Decision>, t: Desk, p: Plan, body: Body)
    ensures EmitGo(Late(pre, t), p, body) == Late(pre, EmitGo(t, p, body))
  {
    Reassociate(pre, t.out, Decision(t.id, body.session, body.generation, Go, t.next, p.route, p.sLimit,
                                     NoReason, "", []));
  }

  lemma InstallsLate(pre: seq<Decision>, t: Desk, p: Plan, hi: seq<nat>)
    ensures InstallPlan(Late(pre, t), p, hi) == Late(pre, InstallPlan(t, p, hi))
  {
    hide EmitReject, EmitGo;
    DecidesLate(pre, t, Reason.NoRoute, "Reset replan budget exhausted", []);
    GoesLate(pre, t, Started(t.body, p, hi),
             t.body.(blockers := [], progress := t.body.pose, grants := t.body.grants + 1));
  }

  lemma ExtendsLate(pre: seq<Decision>, cfg: PlannerConfig, t: Desk, worldChanged: bool,
                    answer: Sweep.Violation, hi: seq<nat>)
    ensures ExtendOne(cfg, Late(pre, t), worldChanged, answer, hi)
         == Late(pre, ExtendOne(cfg, t, worldChanged, answer, hi))
  {
    hide EmitBrake, EmitGo, Revokes, NewLimit, Waits;
    DecidesLate(pre, t, SceneChanged, "the scene changed under the route", Blockers(answer));
    DecidesLate(pre, t, Replan, "the rest of the route is blocked", Blockers(answer));
    if Extends(cfg, t.body, worldChanged, answer) {
      var p := t.body.reservation.plan;
      GoesLate(pre, t, p.(sLimit := NewLimit(cfg, p, answer), hi := hi), t.body);
    }
  }

  lemma AdvancesLate(pre: seq<Decision>, t: Desk, cursor: seq<nat>)
    ensures Advanced(Late(pre, t), cursor) == Late(pre, Advanced(t, cursor))
  {
    hide Progressed;
  }

  // ---------------------------------------------------------------- reports

  lemma RequestsLate(pre: seq<Decision>, t: Desk, v: Vehicle, newRequest: bool, isNew: bool)
    ensures Requested(Late(pre, t), v, newRequest, isNew) == Late(pre, Requested(t, v, newRequest, isNew))
  {
    hide EmitBrake;
    var b := t.body.(session := v.session, generation := v.generation, target := v.target,
                     rejected := false, told := t.body.told.(emitted := false));
    DecidesLate(pre, t.(body := b), Replan, "awaiting exact post-zero stopping certificate", []);
  }

  lemma WithdrawsLate(pre: seq<Decision>, t: Desk, v: Vehicle)
    ensures Withdrawn(Late(pre, t), v) == Late(pre, Withdrawn(t, v))
  {
    hide EmitBrake;
    DecidesLate(pre, t, Replan, "permission retained until stopping is acknowledged", []);
  }

  lemma ReleasesLate(pre: seq<Decision>, kit: Kit, t: Desk, v: Vehicle, newRequest: bool)
    ensures Released(kit, Late(pre, t), v, newRequest) == Late(pre, Released(kit, t, v, newRequest))
  {
    hide EmitHold;
    if ExactCertificate(t.body, v, newRequest) {
      DecidesLate(pre, t.(body := ReleasedBody(kit, t.body, v)), NoReason, "Reset permission retired", []);
    }
  }

  lemma ReceivesLate(pre: seq<Decision>, t: Desk, v: Vehicle)
    ensures Received(Late(pre, t), v) == Late(pre, Received(t, v))
  {
  }

  lemma SyncsLate(pre: seq<Decision>, kit: Kit, t: Desk, v: Vehicle, isNew: bool)
    ensures SyncBody(kit, Late(pre, t), v, isNew) == Late(pre, SyncBody(kit, t, v, isNew))
  {
    hide Anchored, Requested, Withdrawn, Released, Received, Outdated;
    var t1 := t.(body := Anchored(kit, t.body, v, isNew));
    var newRequest := NewRequest(t.body, v);
    RequestsLate(pre, t1, v, newRequest, isNew);
    var t2 := Requested(t1, v, newRequest, isNew);
    WithdrawsLate(pre, t2, v);
    ReleasesLate(pre, kit, Withdrawn(t2, v), v, newRequest);
    ReceivesLate(pre, Released(kit, Withdrawn(t2, v), v, newRequest), v);
  }

  lemma TouchesLate(pre: seq<Decision>, st: Station, b: Body, v: Vehicle, isNew: bool)
    requires Shaped(st) && WellFormed(b.shape) && v.id in st.bodies
    ensures Touches(Later(pre, st), b, v, isNew) == Touches(st, b, v, isNew)
  {
    hide CorridorReaches, StaleQuiescent, GoodKit;
    var seen := Reported(st.kit, b, v, isNew);
    var x, y := st.Put(st.At(v.id).(body := seen)), Later(pre, st).Put(Later(pre, st).At(v.id).(body := seen));
    assert x.bodies == y.bodies && x.cfg == y.cfg;
  }

  lemma KnownReportsLate(pre: seq<Decision>, st: Station, v: Vehicle, isNew: bool)
    requires Shaped(st) && v.id in st.bodies
    ensures SyncKnown(Later(pre, st), v, isNew) == Later(pre, SyncKnown(st, v, isNew))
  {
    assert KitShaped(st.kit, st.bodies[v.id]);
    hide SyncBody, Touches, GoodKit, KitShaped;
    TouchesLate(pre, st, st.bodies[v.id], v, isNew);
    SyncsLate(pre, st.kit, st.At(v.id), v, isNew);
  }

  lemma ReportsLate(pre: seq<Decision>, st: Station, v: Vehicle)
    requires Shaped(st)
    ensures SyncVehicle(Later(pre, st), v) == Later(pre, SyncVehicle(st, v))
  {
    var st1 := WithVehicle(st, v);
    assert Shaped(st1);
    KnownReportsLate(pre, st1, v, v.id !in st.bodies);
    hide SyncKnown, Outdated, Shaped;
    assert WithVehicle(Later(pre, st), v) == Later(pre, st1);
  }

  // ---------------------------------------------------------------- all acts

  lemma LaterIsGood(pre: seq<Decision>, st: Station)
    requires StationInv(st)
    ensures StationInv(Later(pre, st)) && StationInv(st.(out := []))
  {
    hide WellFormedBody, GoodWorld, KitShaped, GoodKit;
  }

  lemma EnabledLater(pre: seq<Decision>, st: Station, act: Act)
    requires StationInv(st) && StationInv(Later(pre, st))
    ensures Enabled(st, act) == Enabled(Later(pre, st), act)
  {
    hide Sweep.NaiveAnswer, PrefixesEnd, WellFormedBody, GoodWorld, KitShaped, GoodKit, GoodCandidate;
  }

  lemma ActsLate(pre: seq<Decision>, st: Station, act: Act)
    requires StationInv(st) && Enabled(st, act) && !act.Flush?
    ensures StationInv(Later(pre, st)) && Enabled(Later(pre, st), act)
    ensures Do(Later(pre, st), act) == Later(pre, Do(st, act))
  {
    LaterIsGood(pre, st);
    EnabledLater(pre, st, act);
    hide SyncVehicle, EmitBrake, EmitReject, EmitHold, Advanced, InstallPlan, ExtendOne, GoodWorld;
    hide Sweep.NaiveAnswer, PrefixesEnd, WellFormedPlan, Asks, PlannerModel.Extends, GoodCandidate, Verified, Answered;
    match act
    case Sync(v) => ReportsLate(pre, st, v);
    case Advance(id, cursor) => AdvancesLate(pre, st.At(id), cursor);
    case Brakes(id, reason, detail, blockers) => DecidesLate(pre, st.At(id), reason, detail, blockers);
    case Rejects(id, reason, detail, blockers) => DecidesLate(pre, st.At(id), reason, detail, blockers);
    case Holds(id, reason, detail, blockers) => DecidesLate(pre, st.At(id), reason, detail, blockers);
    case Install(id, p, s, hi) => InstallsLate(pre, st.At(id), p, hi);
    case Extend(id, answer, hi) => ExtendsLate(pre, st.cfg, st.At(id), st.worldChanged, answer, hi);
    case _ =>
  }
}
