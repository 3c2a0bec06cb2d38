/** Decisions belong to the request their vehicle is in: what one update says about a vehicle is
    about the request the planner has just taken from its report. */
module PlannerCurrent {
  import opened ResetProtocol
  import opened Bodies
  import opened PlannerModel
  import opened Reservations
  import opened PlannerTurn
  import Sweep

  predicate SameRequest(b: Body, c: Body) { c.generation == b.generation && c.session == b.session }

  predicate About(d: Decision, b: Body) { d.generation == b.generation && d.session == b.session }

  /** An act inside a request: at most one decision, about that request. */
  ghost predicate Inside(t: Desk, r: Desk) {
    && r.id == t.id && SameRequest(t.body, r.body) && (t.halted ==> r.halted)
    && (r.out == t.out
        || exists d :: r.out == t.out + [d] && d.id == t.id && About(d, t.body))
  }

  lemma DecisionsInside(t: Desk, reason: Reason, detail: string, blockers: seq<Id>)
    ensures Inside(t, EmitBrake(t, reason, detail, blockers))
    ensures Inside(t, EmitReject(t, reason, detail, blockers))
    ensures Inside(t, EmitHold(t, reason, detail, blockers))
  {
    var d := Plain(t, Brake, reason, detail, blockers);
    assert d.id == t.id && About(d, t.body);
    var r := Plain(t, Reject, reason, detail, blockers);
    assert r.id == t.id && About(r, t.body);
    var h := Plain(t, GrantState.Hold, reason, detail, blockers);
    assert h.id == t.id && About(h, t.body);
  }

  lemma ExtendInside(cfg: PlannerConfig, t: Desk, worldChanged: bool, answer: Sweep.Violation,
                     hi: seq<nat>)
    ensures Inside(t, ExtendOne(cfg, t, worldChanged, answer, hi))
  {
    hide EmitBrake, EmitGo;
    DecisionsInside(t, SceneChanged, "the scene changed under the route", Blockers(answer));
    DecisionsInside(t, Replan, "the rest of the route is blocked", Blockers(answer));
    if t.body.HasPlan() {
      var p := t.body.reservation.plan;
      GoInside(t, p.(sLimit := NewLimit(cfg, p, answer), hi := hi), t.body);
    }
  }

  lemma AdvanceInside(t: Desk, cursor: seq<nat>)
    ensures Inside(t, Advanced(t, cursor))
  {
    hide Progressed;
  }

  lemma InstallInside(t: Desk, p: Plan, hi: seq<nat>)
    ensures Inside(t, InstallPlan(t, p, hi))
  {
    hide EmitReject, EmitGo;
    DecisionsInside(t, Reason.NoRoute, "Reset replan budget exhausted", []);
    GoInside(t, Started(t.body, p, hi),
             t.body.(blockers := [], progress := t.body.pose, grants := t.body.grants + 1));
  }

  lemma GoInside(t: Desk, p: Plan, body: Body)
    requires SameRequest(t.body, body)
    ensures Inside(t, EmitGo(t, p, body))
  {
    var d := Decision(t.id, body.session, body.generation, Go, t.next, p.route, p.sLimit, NoReason, "", []);
    assert About(d, t.body);
  }

  lemma InsideTransitive(a: Desk, b: Desk, c: Desk)
    requires Inside(a, b) && Inside(b, c) && (a.out == b.out || b.out == c.out)
    ensures Inside(a, c)
  {
  }

  // ---------------------------------------------------------------- reports

  /** What is said in answer to a report is about the request it leaves the body in. */
  ghost predicate Answers(t: Desk, r: Desk) {
    && r.id == t.id && |t.out| <= |r.out| && r.out[..|t.out|] == t.out
    && (forall i :: |t.out| <= i < |r.out| ==> r.out[i].id == t.id && About(r.out[i], r.body))
  }

  lemma InsideAnswers(t: Desk, m: Desk, r: Desk)
    requires Answers(t, m) && Inside(m, r)
    ensures Answers(t, r)
  {
  }

  lemma RequestAnswers(t: Desk, v: Vehicle, newRequest: bool, isNew: bool)
    ensures Answers(t, Requested(t, v, newRequest, isNew))
    ensures var r := Requested(t, v, newRequest, isNew);
            r.halted || (if newRequest then r.body.generation == v.generation && r.body.session == v.session
                         else r.body.generation == t.body.generation
                              && r.body.session == if isNew then v.session else t.body.session)
    ensures t.halted ==> Requested(t, v, newRequest, isNew).halted
  {
  }

  lemma WithdrawInside(t: Desk, v: Vehicle)
    ensures Inside(t, Withdrawn(t, v)) && (t.halted ==> Withdrawn(t, v).halted)
  {
    hide EmitBrake;
    DecisionsInside(t, Replan, "permission retained until stopping is acknowledged", []);
    BrakeHalts(t);
  }

  lemma BrakeHalts(t: Desk)
    ensures t.halted ==>
              EmitBrake(t, Replan, "permission retained until stopping is acknowledged", []).halted
  {
  }

  lemma ReleaseInside(kit: Kit, t: Desk, v: Vehicle, newRequest: bool)
    ensures Inside(t, Released(kit, t, v, newRequest)) && (t.halted ==> Released(kit, t, v, newRequest).halted)
  {
    hide EmitHold, ExactCertificate;
    if t.body.certificate.AwaitingStop? {
      var t1 := t.(body := ReleasedBody(kit, t.body, v));
      DecisionsInside(t1, NoReason, "Reset permission retired", []);
      InsideTransitive(t, t1, EmitHold(t1, NoReason, "Reset permission retired", []));
    } else {
      assert !ExactCertificate(t.body, v, newRequest) by { NoCertificate(t.body, v, newRequest); }
    }
  }

  lemma NoCertificate(b: Body, v: Vehicle, newRequest: bool)
    requires !b.certificate.AwaitingStop?
    ensures !ExactCertificate(b, v, newRequest)
  {
  }

  lemma ReceiptInside(t: Desk, v: Vehicle)
    ensures Inside(t, Received(t, v)) && Received(t, v).halted == t.halted
  {
  }

  lemma RestAnswers(kit: Kit, t0: Desk, t: Desk, v: Vehicle, newRequest: bool)
    requires Answers(t0, t)
    ensures Answers(t0, SyncRest(kit, t, v, newRequest))
    ensures SameRequest(t.body, SyncRest(kit, t, v, newRequest).body)
    ensures t.halted ==> SyncRest(kit, t, v, newRequest).halted
  {
    hide Withdrawn, Released, Received;
    if t.body.generation != 0 {
      var t2 := Withdrawn(t, v);
      var t3 := Released(kit, t2, v, newRequest);
      WithdrawInside(t, v);
      InsideAnswers(t0, t, t2);
      ReleaseInside(kit, t2, v, newRequest);
      InsideAnswers(t0, t2, t3);
      ReceiptInside(t3, v);
      InsideAnswers(t0, t3, Received(t3, v));
    }
  }

  /** After a report that is not outdated the body is in the request of the report. */
  lemma SyncAnswers(kit: Kit, t: Desk, v: Vehicle, isNew: bool)
    requires isNew ==> t.body.generation == 0
    ensures var r := SyncBody(kit, t, v, isNew);
            && Answers(t, r)
            && (r.halted || (!isNew && Outdated(v, t.body))
                || (r.body.generation == v.generation && r.body.session == v.session))
            && (!isNew && Outdated(v, t.body) ==> r == t)
            && (t.halted ==> r == t)
  {
    hide Anchored, Requested, SyncRest;
    if !t.halted && (isNew || !Outdated(v, t.body)) {
      var newRequest := NewRequest(t.body, v);
      var t1 := t.(body := Anchored(kit, t.body, v, isNew));
      AnchoredInside(kit, t.body, v, isNew);
      RequestAnswers(t1, v, newRequest, isNew);
      var t2 := Requested(t1, v, newRequest, isNew);
      RestAnswers(kit, t1, t2, v, newRequest);
    }
  }

  lemma AnchoredInside(kit: Kit, b: Body, v: Vehicle, isNew: bool)
    ensures SameRequest(b, Anchored(kit, b, v, isNew))
  {
    hide StaleQuiescent;
  }

  // ---------------------------------------------------------------- the whole station

  /** Everything in the outbox is about the request its vehicle is in. */
  ghost predicate Current(st: Station) {
    forall i :: 0 <= i < |st.out| ==>
      st.out[i].id in st.bodies && About(st.out[i], st.bodies[st.out[i].id])
  }

  /** The same vehicles in the same requests. */
  ghost predicate SameRequests(st: Station, st': Station) {
    && st'.order == st.order && st'.bodies.Keys == st.bodies.Keys
    && (forall id :: id in st.bodies ==> SameRequest(st.bodies[id], st'.bodies[id]))
  }

  /** A turn inside the requests. */
  ghost predicate Stays(st: Station, st': Station) {
    SameRequests(st, st') && (Current(st) ==> Current(st')) && (st.halted ==> st'.halted)
  }

  lemma StaysTransitive(a: Station, b: Station, c: Station)
    requires Stays(a, b) && Stays(b, c)
    ensures Stays(a, c)
  {
  }

  lemma PutStays(st: Station, r: Desk)
    requires r.id in st.bodies && Inside(st.At(r.id), r)
    ensures Stays(st, st.Put(r))
  {
    if r.out != st.out {
      var d :| r.out == st.out + [d] && d.id == r.id && About(d, st.bodies[r.id]);
    }
  }

  lemma AdvanceOneStays(st: Station, id: Id)
    ensures Stays(st, AdvanceOne(st, id))
  {
    hide Advanced, Cursors;
    if id in st.bodies && st.bodies[id].ReceivedGo()
       && |st.bodies[id].reservation.plan.cursor| == |st.bodies[id].reservation.plan.sets| {
      var cursor := Cursors(st.kit, st.bodies[id], st.bodies[id].reservation.plan);
      AdvanceInside(st.At(id), cursor);
      PutStays(st, Advanced(st.At(id), cursor));
    }
  }

  lemma ExtendTurnStays(st: Station, id: Id, turn: Turn)
    ensures Stays(st, ExtendTurn(st, id, turn))
  {
    hide ExtendOne;
    if id in st.bodies {
      ExtendInside(st.cfg, st.At(id), st.worldChanged, turn.answer, turn.hi);
      PutStays(st, ExtendOne(st.cfg, st.At(id), st.worldChanged, turn.answer, turn.hi));
    }
  }

  lemma StallOneStays(st: Station, id: Id)
    ensures Stays(st, StallOne(st, id))
  {
    hide EmitReject;
    if id in st.bodies {
      DecisionsInside(st.At(id), Stalled, STALLED, st.bodies[id].blockers);
      PutStays(st, EmitReject(st.At(id), Stalled, STALLED, st.bodies[id].blockers));
    }
  }

  lemma BrakeOneStays(st: Station, id: Id)
    ensures Stays(st, BrakeOne(st, id))
  {
    hide EmitBrake;
    if id in st.bodies {
      DecisionsInside(st.At(id), SceneUnavailable, "new admissions unavailable", []);
      PutStays(st, EmitBrake(st.At(id), SceneUnavailable, "new admissions unavailable", []));
    }
  }

  lemma AdmitOneStays(st: Station, move: Move, turn: Turn)
    ensures Stays(st, AdmitOne(st, move, turn))
  {
    hide EmitReject, EmitHold, InstallPlan, Stays;
    NothingStays(st);
    if move.id in st.bodies {
      match move
      case TryMove(id, c) =>
        if Tries(st, move) {
          var p := Candidate(st, move).(sLimit := Limit(st.cfg, turn.answer.s));
          InstallInside(st.At(id), p, turn.hi);
          PutStays(st, InstallPlan(st.At(id), p, turn.hi));
        }
      case HoldMove(id, reason, detail, blockers) =>
        DecisionsInside(st.At(id), reason, detail, blockers);
        PutStays(st, EmitHold(st.At(id), reason, detail, blockers));
      case RejectMove(id, reason, detail, blockers) =>
        DecisionsInside(st.At(id), reason, detail, blockers);
        PutStays(st, EmitReject(st.At(id), reason, detail, blockers));
    }
  }

  lemma NothingStays(st: Station)
    ensures Stays(st, st)
  {
  }

  lemma {:induction false} AdvanceAllStays(st: Station, ids: seq<Id>)
    ensures Stays(st, AdvanceAll(st, ids))
  {
    hide AdvanceOne;
    if ids != [] {
      AdvanceAllStays(st, ids[..|ids| - 1]);
      AdvanceOneStays(AdvanceAll(st, ids[..|ids| - 1]), ids[|ids| - 1]);
    }
  }

  lemma {:induction false} ExtendAllStays(st: Station, ids: seq<Id>, turns: seq<Turn>)
    requires |turns| == |ids|
    ensures Stays(st, ExtendAll(st, ids, turns))
  {
    hide ExtendTurn;
    if ids != [] {
      var n := |ids| - 1;
      ExtendAllStays(st, ids[..n], turns[..n]);
      ExtendTurnStays(ExtendAll(st, ids[..n], turns[..n]), ids[n], turns[n]);
    }
  }

  lemma {:induction false} StallAllStays(st: Station, ids: seq<Id>)
    ensures Stays(st, StallAll(st, ids))
  {
    hide StallOne;
    if ids != [] {
      StallAllStays(st, ids[..|ids| - 1]);
      StallOneStays(StallAll(st, ids[..|ids| - 1]), ids[|ids| - 1]);
    }
  }

  lemma {:induction false} BrakeAllStays(st: Station, ids: seq<Id>)
    ensures Stays(st, BrakeAll(st, ids))
  {
    hide BrakeOne;
    if ids != [] {
      BrakeAllStays(st, ids[..|ids| - 1]);
      BrakeOneStays(BrakeAll(st, ids[..|ids| - 1]), ids[|ids| - 1]);
    }
  }

  lemma {:induction false} AdmitAllStays(st: Station, moves: seq<Move>, turns: seq<Turn>)
    requires |turns| == |moves|
    ensures Stays(st, AdmitAll(st, moves, turns))
  {
    hide AdmitOne;
    if moves != [] {
      var n := |moves| - 1;
      AdmitAllStays(st, moves[..n], turns[..n]);
      AdmitOneStays(AdmitAll(st, moves[..n], turns[..n]), moves[n], turns[n]);
    }
  }

  lemma FlagsStay(st: Station, worldChanged: bool, dirty: bool)
    ensures Stays(st, st.(worldChanged := worldChanged, dirty := dirty))
  {
  }

  lemma ExtensionTurnStays(st: Station, now: real, progress: real, turns: seq<Turn>)
    requires |turns| == |st.order|
    ensures Stays(st, ExtensionTurn(st, now, progress, turns))
  {
    hide ExtendAll, StallAll, Stays, AnyPlan;
    var st1 := ExtendAll(st, st.order, turns);
    ExtendAllStays(st, st.order, turns);
    FlagsStay(st1, false, st1.dirty);
    var st2 := st1.(worldChanged := false);
    StaysTransitive(st, st1, st2);
    var st3 := StallAll(st2, st2.order);
    StallAllStays(st2, st2.order);
    FlagsStay(st3, st3.worldChanged, true);
    StaysTransitive(st, st2, st3);
    StaysTransitive(st, st3, st3.(dirty := true));
  }

  /** Nothing after the reports changes which request a vehicle is in. */
  lemma StepTurnStays(st: Station, c: Clock, admit: bool, moves: seq<Move>, answers: PlannerTurn.Answers)
    requires Fits(st, c, admit, moves, answers)
    ensures Stays(st, StepTurn(st, c, admit, moves, answers))
  {
    hide BrakeAll, AdvanceAll, ExtensionTurn, AdmitAll, Stays, AnyWaiting, ProgressAt;
    var st1 := Braked(st, admit);
    NothingStays(st);
    BrakeAllStays(st, st.order);
    var st2 := AdvanceAll(st1, st1.order);
    AdvanceAllStays(st1, st1.order);
    StaysTransitive(st, st1, st2);
    var st3 := MoversTurn(st1, c, answers.movers);
    if ExtensionDue(st.cfg, c) {
      ExtensionTurnStays(st2, c.now, ProgressAt(st1, c), answers.movers);
      StaysTransitive(st, st2, st3);
    }
    var st4 := st3.(dirty := false);
    FlagsStay(st3, st3.worldChanged, false);
    StaysTransitive(st, st3, st4);
    AdmitAllStays(st4, moves, answers.moves);
    StaysTransitive(st, st4, AdmitAll(st4, moves, answers.moves));
  }

  // ---------------------------------------------------------------- all reports of one update

  ghost predicate DistinctVehicles(vs: seq<Vehicle>) {
    forall i, j :: 0 <= i < j < |vs| ==> vs[i].id != vs[j].id
  }

  ghost predicate Mentions(vs: seq<Vehicle>, id: Id) { exists k :: 0 <= k < |vs| && vs[k].id == id }

  ghost predicate Timely(bodies: map<Id, Body>, v: Vehicle) {
    v.id in bodies ==> !Outdated(v, bodies[v.id])
  }

  /** What the reports have done so far. */
  ghost predicate Reported(base: Station, st: Station, vs: seq<Vehicle>) {
    && Current(st)
    && (forall i :: 0 <= i < |st.out| ==> Mentions(vs, st.out[i].id))
    && (forall id :: id in base.bodies ==> id in st.bodies)
    && (forall id :: id in st.bodies && !Mentions(vs, id) ==>
          id in base.bodies && st.bodies[id] == base.bodies[id])
    && (st.halted
        || forall k :: 0 <= k < |vs| ==>
             vs[k].id in st.bodies && st.bodies[vs[k].id].generation == vs[k].generation
             && st.bodies[vs[k].id].session == vs[k].session)
  }

  lemma MentionsMore(vs: seq<Vehicle>, v: Vehicle, id: Id)
    ensures Mentions(vs + [v], id) == (Mentions(vs, id) || v.id == id)
  {
    var ws := vs + [v];
    assert ws[|vs|] == v;
    if Mentions(vs, id) {
      var k :| 0 <= k < |vs| && vs[k].id == id;
      assert ws[k].id == id;
    }
  }

  lemma SyncOneReports(base: Station, st: Station, vs: seq<Vehicle>, v: Vehicle)
    requires Shaped(st) && Reported(base, st, vs) && !Mentions(vs, v.id) && Timely(base.bodies, v)
    ensures Reported(base, SyncVehicle(st, v), vs + [v])
  {
    hide SyncVehicle, SyncBody, Outdated, NewBody;
    forall id ensures Mentions(vs + [v], id) == (Mentions(vs, id) || v.id == id) {
      MentionsMore(vs, v, id);
    }
    SyncIsPut(st, v);
    var isNew := v.id !in st.bodies;
    if st.halted {
      HaltedStays(st, v);
      assert SyncVehicle(st, v) == st;
    } else {
      var st1 := WithVehicle(st, v);
      var t := st1.At(v.id);
      assert isNew ==> t.body.generation == 0 by { NewBodyHasNoRequest(st.kit, v); }
      SyncAnswers(st.kit, t, v, isNew);
      var r := SyncBody(st.kit, t, v, isNew);
      PutReports(base, st, vs, v, r);
    }
  }

  lemma NewBodyHasNoRequest(kit: Kit, v: Vehicle)
    ensures NewBody(kit, v).generation == 0
  {
  }

  lemma PutReports(base: Station, st: Station, vs: seq<Vehicle>, v: Vehicle, r: Desk)
    requires Reported(base, st, vs) && !Mentions(vs, v.id) && r.id == v.id
    requires forall id :: Mentions(vs + [v], id) == (Mentions(vs, id) || v.id == id)
    requires Answers(WithVehicle(st, v).At(v.id), r)
    requires r.halted || (r.body.generation == v.generation && r.body.session == v.session)
    requires st.halted ==> r.halted
    ensures Reported(base, WithVehicle(st, v).Put(r), vs + [v])
  {
    var st' := WithVehicle(st, v).Put(r);
    assert st'.out == r.out && st'.bodies == WithVehicle(st, v).bodies[v.id := r.body];
    forall i | 0 <= i < |st'.out|
      ensures st'.out[i].id in st'.bodies && About(st'.out[i], st'.bodies[st'.out[i].id])
      ensures Mentions(vs + [v], st'.out[i].id)
    {
      if i < |st.out| {
        assert st'.out[i] == r.out[..|st.out|][i] == st.out[i];
        assert Mentions(vs, st.out[i].id);
      }
    }
    forall k | 0 <= k < |vs| ensures (vs + [v])[k].id != v.id {
      assert vs[k].id != v.id;
    }
  }

  lemma {:induction false} SyncAllReports(base: Station, vs: seq<Vehicle>)
    requires Shaped(base) && base.out == [] && DistinctVehicles(vs)
    requires forall k :: 0 <= k < |vs| ==> Timely(base.bodies, vs[k])
    ensures Reported(base, SyncAll(base, vs), vs)
    decreases |vs|
  {
    hide SyncVehicle, Timely, GoodKit, KitShaped;
    if vs != [] {
      var before := vs[..|vs| - 1];
      SyncAllReports(base, before);
      assert before + [vs[|vs| - 1]] == vs;
      SyncOneReports(base, SyncAll(base, before), before, vs[|vs| - 1]);
    }
  }

  /** After an update, what is in the outbox about a vehicle is about the request it is in, which is
      the one it was reported with. */
  lemma UpdateIsCurrent(base: Station, vs: seq<Vehicle>, c: Clock, admit: bool, moves: seq<Move>,
                        answers: PlannerTurn.Answers)
    requires Shaped(base) && base.out == [] && DistinctVehicles(vs)
    requires forall k :: 0 <= k < |vs| ==> Timely(base.bodies, vs[k])
    requires Fits(SyncAll(base, vs), c, admit, moves, answers)
    ensures var st := StepTurn(SyncAll(base, vs), c, admit, moves, answers);
            && Current(st) && (forall id :: id in base.bodies ==> id in st.bodies)
            && (forall id :: id in st.bodies && !Mentions(vs, id) ==>
                  id in base.bodies && SameRequest(base.bodies[id], st.bodies[id]))
            && (st.halted
                || forall k :: 0 <= k < |vs| ==>
                     vs[k].id in st.bodies && st.bodies[vs[k].id].generation == vs[k].generation
                     && st.bodies[vs[k].id].session == vs[k].session)
  {
    hide StepTurn, SyncAll, Timely, GoodKit, KitShaped, Fits;
    SyncAllReports(base, vs);
    var mid := SyncAll(base, vs);
    var st := StepTurn(mid, c, admit, moves, answers);
    StepTurnStays(mid, c, admit, moves, answers);
    forall id ensures id in st.bodies <==> id in mid.bodies {
      assert id in st.bodies.Keys <==> id in mid.bodies.Keys;
    }
  }
}
