/** What a change of the scene does (reset_planner.cpp: setWorld, updateMovers): as soon as an extension
    turn has answered it, no permission that is still live reaches an obstacle or leaves the fence on
    what remains of its route; whoever was in the way of the change has been told to brake. */
module SceneChanges {
  import opened ResetProtocol
  import opened Geometry
  import opened Bodies
  import opened Sweep
  import opened PlannerModel
  import opened Reservations
  import opened ReservationLife
  import opened PlannerOut
  import opened PlannerTurn
  import opened PlannerRuns
  import Stalled = StalledExtension
  import Current = PlannerCurrent

  /** What remains of the route, in some variant, hits the world. */
  ghost predicate Blocked(st: Station, b: Body) {
    b.HasPlan()
    && exists v: nat, i: nat :: Asked(b.reservation.plan.sets, b.reservation.plan.cursor, v, i)
                                && HitsWorld(st, b, b.reservation.plan.sets[v].pts[i])
  }

  /** The footprint of the body at this sample is outside the fence or too close to an obstacle. */
  ghost predicate HitsWorld(st: Station, b: Body, q: Sample) {
    OutsideFence(Placed(b.shape, q), st.world.fence, st.cfg.fenceMargin + b.delta)
    || exists k :: 0 <= k < |st.world.statics| && TooClose(st, b, q, st.world.statics[k])
  }

  predicate TooClose(st: Station, b: Body, q: Sample, p: StaticPoly) {
    && !Separated(q.box, p.box, st.cfg.staticMargin + b.delta)
    && !ExactClear(Placed(b.shape, q), b.shape.rect, p.verts, false, st.cfg.staticMargin + b.delta)
  }

  lemma HitsWorldIs(st: Station, id: Id, certs: seq<EscapeCert>, q: Sample)
    requires id in st.bodies
    ensures HitsWorld(st, st.bodies[id], q) <==> WorldHit(st.Ask(id, certs), q)
  {
    hide OutsideFence, Separated, ExactClear, Place;
    var y := st.Ask(id, certs);
    assert forall k :: 0 <= k < |st.world.statics| ==>
        TooClose(st, st.bodies[id], q, st.world.statics[k]) == StaticHit(y, q, k);
  }

  /** No live permission reaches the world. */
  ghost predicate Heeds(st: Station, id: Id) {
    id in st.bodies && st.bodies[id].LiveGrant().Some? ==> !Blocked(st, st.bodies[id])
  }

  ghost predicate AllHeed(st: Station) { forall id :: Heeds(st, id) }

  // ---------------------------------------------------------------- what is left grows less

  /** The one has no more of its route left than the other, for the same footprint. */
  ghost predicate Remains(b: Body, c: Body) {
    c.LiveGrant().Some? ==>
      && b.LiveGrant().Some? && c.shape == b.shape && c.delta == b.delta
      && var p, q := b.reservation.plan, c.reservation.plan;
      && q.sets == p.sets && |q.cursor| == |p.cursor|
      && (forall w :: 0 <= w < |p.cursor| ==> p.cursor[w] <= q.cursor[w])
  }

  lemma RemainsHeeds(st: Station, st': Station, id: Id)
    requires Heeds(st, id) && st'.cfg == st.cfg && st'.world == st.world
    requires id in st'.bodies && st'.bodies[id].LiveGrant().Some? ==>
               id in st.bodies && Remains(st.bodies[id], st'.bodies[id])
    ensures Heeds(st', id)
  {
    hide Blocked;
    if id in st'.bodies && st'.bodies[id].LiveGrant().Some? {
      BlockedBefore(st, st.bodies[id], st', st'.bodies[id]);
    }
  }

  lemma BlockedBefore(st: Station, b: Body, st': Station, c: Body)
    requires st'.cfg == st.cfg && st'.world == st.world && c.LiveGrant().Some? && Remains(b, c)
    ensures Blocked(st', c) ==> Blocked(st, b)
  {
    hide OutsideFence, TooClose, Place;
    if Blocked(st', c) {
      var v: nat, i: nat :| Asked(c.reservation.plan.sets, c.reservation.plan.cursor, v, i)
                            && HitsWorld(st', c, c.reservation.plan.sets[v].pts[i]);
      SameHits(st, b, st', c, c.reservation.plan.sets[v].pts[i]);
      assert Asked(b.reservation.plan.sets, b.reservation.plan.cursor, v, i);
    }
  }

  lemma SameHits(st: Station, b: Body, st': Station, c: Body, q: Sample)
    requires st'.cfg == st.cfg && st'.world == st.world && c.shape == b.shape && c.delta == b.delta
    ensures HitsWorld(st', c, q) == HitsWorld(st, b, q)
  {
    hide OutsideFence, Place, Separated, ExactClear;
    assert forall p :: TooClose(st', c, q, p) == TooClose(st, b, q, p);
  }

  /** Reservations keep the footprint they were made with. */
  ghost predicate SameShape(b: Body, c: Body) {
    b.HasPlan() && c.HasPlan() ==> c.shape == b.shape && c.delta == b.delta
  }

  lemma DeskShapes(t: Desk, reason: Reason, detail: string, blockers: seq<Id>, p: Plan, hi: seq<nat>, cursor: seq<nat>)
    ensures SameShape(t.body, EmitBrake(t, reason, detail, blockers).body)
    ensures SameShape(t.body, EmitReject(t, reason, detail, blockers).body)
    ensures SameShape(t.body, EmitHold(t, reason, detail, blockers).body)
    ensures SameShape(t.body, Advanced(t, cursor).body)
    ensures SameShape(t.body, InstallPlan(t, p, hi).body)
  {
    hide Progressed;
  }

  lemma ExtensionShapes(cfg: PlannerConfig, t: Desk, worldChanged: bool, answer: Violation, hi: seq<nat>)
    ensures SameShape(t.body, ExtendOne(cfg, t, worldChanged, answer, hi).body)
  {
    hide EmitBrake, Revokes, Extends, Waits, NewLimit;
    DeskShapes(t, SceneChanged, "the scene changed under the route", Blockers(answer), NO_PLAN, [], []);
    DeskShapes(t, Replan, "the rest of the route is blocked", Blockers(answer), NO_PLAN, [], []);
    if Extends(cfg, t.body, worldChanged, answer) { ExtendsHeld(cfg, t.body, worldChanged, answer); }
  }

  lemma ExtendsHeld(cfg: PlannerConfig, b: Body, worldChanged: bool, answer: Violation)
    requires Extends(cfg, b, worldChanged, answer)
    ensures b.HasPlan()
  {
  }

  lemma SyncShapes(st: Station, v: Vehicle, id: Id)
    requires StationInv(st) && id in st.bodies
    ensures id in SyncVehicle(st, v).bodies && SameShape(st.bodies[id], SyncVehicle(st, v).bodies[id])
  {
    hide SyncVehicle, SyncBody, Outdated, WellFormedBody, GoodWorld, GoodKit, Narrows, KitShaped;
    SyncIsPut(st, v);
    if st.halted { HaltedStays(st, v); }
    else if v.id == id {
      assert KitShaped(st.kit, st.bodies[id]);
      SyncNarrows(st.kit, st.At(id), v, false);
      NarrowsShape(st.bodies[id], SyncBody(st.kit, st.At(id), v, false).body);
    }
  }

  lemma NarrowsShape(b: Body, c: Body)
    requires Narrows(b, c)
    ensures SameShape(b, c)
  {
  }

  lemma ActShapes(st: Station, act: Act, id: Id)
    requires StationInv(st) && Enabled(st, act) && id in st.bodies
    ensures id in Do(st, act).bodies && SameShape(st.bodies[id], Do(st, act).bodies[id])
  {
    hide SyncVehicle, EmitBrake, EmitReject, EmitHold, Advanced, InstallPlan, ExtendOne, SameShape;
    hide NaiveAnswer, PrefixEnds, WellFormedPlan, Asks, PlannerModel.Extends, GoodWorld, GoodCandidate, Verified;
    assert SameShape(st.bodies[id], st.bodies[id]) by { NothingShapes(st.bodies[id]); }
    match act
    case Sync(v) => SyncShapes(st, v, id);
    case Advance(o, cursor) => DeskShapes(st.At(o), NoReason, "", [], NO_PLAN, [], cursor);
    case Brakes(o, reason, detail, blockers) => DeskShapes(st.At(o), reason, detail, blockers, NO_PLAN, [], []);
    case Rejects(o, reason, detail, blockers) => DeskShapes(st.At(o), reason, detail, blockers, NO_PLAN, [], []);
    case Holds(o, reason, detail, blockers) => DeskShapes(st.At(o), reason, detail, blockers, NO_PLAN, [], []);
    case Install(o, p, s, hi) => DeskShapes(st.At(o), NoReason, "", [], p, hi, []);
    case Extend(o, answer, hi) => ExtensionShapes(st.cfg, st.At(o), st.worldChanged, answer, hi);
    case _ =>
  }

  lemma NothingShapes(b: Body)
    ensures SameShape(b, b)
  {
  }

  lemma EvolvesRemains(b: Body, c: Body)
    requires Evolves(b, c) && NotReserved(b, c) && SameShape(b, c)
    ensures Remains(b, c)
  {
  }

  /** Whoever comes new has no reservation. */
  lemma NewHasNone(st: Station, act: Act, id: Id)
    requires StationInv(st) && Enabled(st, act) && id !in st.bodies && id in Do(st, act).bodies
    ensures !Do(st, act).bodies[id].HasPlan()
  {
    hide SyncVehicle, EmitBrake, EmitReject, EmitHold, Advanced, InstallPlan, ExtendOne;
    hide NaiveAnswer, PrefixEnds, WellFormedPlan, Asks, PlannerModel.Extends, GoodWorld, GoodCandidate, Verified;
    if act.Sync? { NewSyncHasNone(st, act.v, id); }
  }

  lemma NewSyncHasNone(st: Station, v: Vehicle, id: Id)
    requires StationInv(st) && id !in st.bodies && id in SyncVehicle(st, v).bodies
    ensures !SyncVehicle(st, v).bodies[id].HasPlan()
  {
    hide SyncVehicle, SyncBody, Outdated, WellFormedBody, GoodWorld, GoodKit, KitShaped;
    SyncIsPut(st, v);
    if st.halted { HaltedStays(st, v); }
    else {
      SyncSamePlan(st.kit, WithVehicle(st, v).At(v.id), v, true);
    }
  }

  lemma ActKeepsWorld(st: Station, act: Act)
    requires StationInv(st) && Enabled(st, act) && !act.SetWorld?
    ensures Do(st, act).world == st.world && Do(st, act).cfg == st.cfg
  {
    hide SyncBody, EmitBrake, EmitReject, EmitHold, Advanced, InstallPlan, ExtendOne, Touches;
    hide WellFormedBody, PairwiseDisjoint, Outdated, GoodWorld, KitShaped;
  }

  /** What was admitted has passed the verifier. */
  lemma InstalledHeeds(st: Station, act: Act)
    requires StationInv(st) && act.Install? && Enabled(st, act)
    ensures Heeds(Do(st, act), act.id)
  {
    var st' := Do(st, act);
    var b, c := st.bodies[act.id], st'.bodies[act.id];
    hide Do, Enabled, StationInv, HitsWorld, WorldHit;
    if c.LiveGrant().Some? {
      InstalledIs(st, act);
      forall v: nat, i: nat | Asked(c.reservation.plan.sets, c.reservation.plan.cursor, v, i)
        ensures !HitsWorld(st', c, c.reservation.plan.sets[v].pts[i])
      {
        InstalledSample(st, act, v, i);
      }
    }
  }

  lemma InstalledSample(st: Station, act: Act, v: nat, i: nat)
    requires StationInv(st) && act.Install? && Enabled(st, act) && Do(st, act).bodies[act.id].LiveGrant().Some?
    requires Asked(act.plan.sets, Zeros(|act.plan.sets|), v, i)
    ensures !HitsWorld(Do(st, act), Do(st, act).bodies[act.id], act.plan.sets[v].pts[i])
  {
    var p := act.plan;
    InstalledIs(st, act);
    NotHard(st, act.id, p, act.s, v, i);
    hide Do, StationInv, HitsWorld, WorldHit, Verified, GoodCandidate;
    SameHits(st, st.bodies[act.id], Do(st, act), Do(st, act).bodies[act.id], p.sets[v].pts[i]);
    HitsWorldIs(st, act.id, p.certs, p.sets[v].pts[i]);
  }

  lemma InstalledIs(st: Station, act: Act)
    requires StationInv(st) && act.Install? && Enabled(st, act) && Do(st, act).bodies[act.id].LiveGrant().Some?
    ensures var st', c := Do(st, act), Do(st, act).bodies[act.id];
            && st'.cfg == st.cfg && st'.world == st.world && c.shape == st.bodies[act.id].shape
            && c.delta == st.bodies[act.id].delta
            && c.reservation.plan.sets == act.plan.sets && c.reservation.plan.cursor == Zeros(|act.plan.sets|)
  {
    hide NaiveAnswer, PrefixEnds, WellFormedPlan, GoodWorld, GoodCandidate, Verified, KitShaped;
  }

  lemma NotHard(st: Station, id: Id, p: Plan, s: Reach, v: nat, i: nat)
    requires StationInv(st) && id in st.bodies && GoodCandidate(st.kit, st.bodies[id], p) && Verified(st, id, p, s)
    requires Asked(p.sets, Zeros(|p.sets|), v, i)
    ensures !WorldHit(st.Ask(id, p.certs), p.sets[v].pts[i])
  {
    hide WorldHit, HitByParked, HitByMover, SweepOf, Swept, WellFormedBody, SoftAt;
    assert !HardAt(st.Ask(id, p.certs), p.sets, v, i);
  }

  /** No act but a change of the world brings a live permission in conflict with it. */
  lemma ActHeeds(st: Station, act: Act, id: Id)
    requires StationInv(st) && Enabled(st, act) && !act.SetWorld? && Heeds(st, id)
    ensures Heeds(Do(st, act), id)
  {
    ActsOnHeld(st, act);
    hide Enabled, Do, Heeds, StationInv, Remains, Evolves, NotReserved, SameShape;
    var st' := Do(st, act);
    ActKeepsWorld(st, act);
    if id !in st'.bodies { NobodyHeeds(st', id); }
    else if act.Install? && act.id == id { InstalledHeeds(st, act); }
    else {
      if id in st.bodies {
        ReservationsEvolve(st, act, id);
        ActShapes(st, act, id);
        EvolvesRemains(st.bodies[id], st'.bodies[id]);
      } else {
        NewHasNone(st, act, id);
      }
      RemainsHeeds(st, st', id);
    }
  }

  lemma NobodyHeeds(st: Station, id: Id)
    requires id !in st.bodies
    ensures Heeds(st, id)
  {
  }

  lemma ReportHeeds(st: Station, v: Vehicle, id: Id)
    requires StationInv(st) && Heeds(st, id)
    ensures Heeds(SyncVehicle(st, v), id)
  {
    ActHeeds(st, Sync(v), id);
    hide SyncVehicle, Heeds, WellFormedBody, GoodWorld, KitShaped, GoodKit;
  }

  /** Nor does a run of the planner. */
  lemma {:induction false} RunHeeds(vs: seq<Vehicle>, n: nat, st: Station, st': Station)
    requires Leads(vs, n, st, st') && AllHeed(st)
    ensures AllHeed(st')
  {
    hide StationInv, Heeds, Enabled, Do, SyncVehicle, Acts, ActStep;
    if n > 0 {
      var mid :| Leads(vs, n - 1, st, mid) && StationInv(mid) && Acts(vs, mid, st');
      RunHeeds(vs, n - 1, st, mid);
      if !ActStep(mid, st') {
        var k := TheReport(vs, mid, st');
        forall id ensures Heeds(st', id) { ReportHeeds(mid, vs[k], id); }
      } else if st' != mid {
        var act := TheAct(mid, st');
        forall id ensures Heeds(st', id) { ActHeeds(mid, act, id); }
      }
    }
  }

  lemma ReachHeeds(vs: seq<Vehicle>, st: Station, st': Station)
    requires Reaches(vs, st, st') && AllHeed(st)
    ensures AllHeed(st')
  {
    hide Leads, AllHeed;
    var n: nat :| Leads(vs, n, st, st');
    RunHeeds(vs, n, st, st');
  }

  // ---------------------------------------------------------------- the extension turn

  /** The verifier has seen what is blocked. */
  lemma BlockedIsHard(st: Station, id: Id, answer: Violation)
    requires StationInv(st) && id in st.bodies && st.bodies[id].HasPlan() && Answered(st, id, answer)
    requires Blocked(st, st.bodies[id])
    ensures answer.hard
  {
    var b := st.bodies[id];
    var p, y := b.reservation.plan, st.Ask(id, b.reservation.plan.certs);
    var v: nat, i: nat :| Asked(p.sets, p.cursor, v, i) && HitsWorld(st, b, p.sets[v].pts[i]);
    HitsWorldIs(st, id, p.certs, p.sets[v].pts[i]);
    HardIsAnswered(st, id, answer, v, i);
  }

  lemma HardIsAnswered(st: Station, id: Id, answer: Violation, v: nat, i: nat)
    requires StationInv(st) && id in st.bodies && st.bodies[id].HasPlan() && Answered(st, id, answer)
    requires var p := st.bodies[id].reservation.plan;
             Asked(p.sets, p.cursor, v, i) && WorldHit(st.Ask(id, p.certs), p.sets[v].pts[i])
    ensures answer.hard
  {
    hide WorldHit, HitByParked, HitByMover, SweepOf, WellFormedBody, SoftAt;
    var p := st.bodies[id].reservation.plan;
    assert HardAt(st.Ask(id, p.certs), p.sets, v, i);
  }

  /** Once the world has changed, the extension turn of a body withdraws what is blocked. */
  lemma ExtensionAnswers(st: Station, id: Id, turn: Turn)
    requires StationInv(st) && Enabled(st, Extend(id, turn.answer, turn.hi)) && st.worldChanged
    requires !ExtendTurn(st, id, turn).halted
    ensures var r := ExtendTurn(st, id, turn); Heeds(r, id) && r.worldChanged
    ensures var r := ExtendTurn(st, id, turn);
            id in st.bodies && st.bodies[id].LiveGrant().Some? && Blocked(st, st.bodies[id]) ==>
              && id in r.bodies && r.bodies[id].IsRetiring()
              && exists d :: r.out == st.out + [d] && d.id == id && d.state.Brake?
  {
    var b := st.bodies[id];
    if b.LiveGrant().Some? && Blocked(st, b) {
      assert Asks(b, st.worldChanged);
      BlockedIsHard(st, id, turn.answer);
      BlockedBrakes(st, id, turn);
    } else {
      ActHeeds(st, Extend(id, turn.answer, turn.hi), id);
    }
    hide StationInv, Enabled, Blocked, ExtendOne;
  }

  lemma BlockedBrakes(st: Station, id: Id, turn: Turn)
    requires id in st.bodies && st.bodies[id].LiveGrant().Some? && st.worldChanged && turn.answer.hard
    requires !ExtendTurn(st, id, turn).halted
    ensures var r := ExtendTurn(st, id, turn);
            && id in r.bodies && r.bodies[id].IsRetiring()
            && exists d :: r.out == st.out + [d] && d.id == id && d.state.Brake?
  {
    var b, a := st.bodies[id], turn.answer;
    var d := Plain(st.At(id), Brake, if a.world then SceneChanged else Replan,
                   if a.world then "the scene changed under the route" else "the rest of the route is blocked",
                   Blockers(a));
    assert ExtendTurn(st, id, turn).out == st.out + [d];
  }

  lemma ExtendTurnIsAct(st: Station, id: Id, turn: Turn)
    requires StationInv(st) && Enabled(st, Extend(id, turn.answer, turn.hi))
    ensures ExtendTurn(st, id, turn) == Do(st, Extend(id, turn.answer, turn.hi)) && id in st.bodies
    ensures st.halted ==> ExtendTurn(st, id, turn).halted
  {
    hide ExtendOne, Answered;
    ExtensionHalts(st.cfg, st.At(id), st.worldChanged, turn.answer, turn.hi);
  }

  lemma ExtensionHalts(cfg: PlannerConfig, t: Desk, worldChanged: bool, answer: Violation, hi: seq<nat>)
    ensures t.halted ==> ExtendOne(cfg, t, worldChanged, answer, hi).halted
  {
    hide Revokes, Waits, NewLimit;
  }

  lemma {:induction false} ExtensionsAnswer(st: Station, ids: seq<Id>, turns: seq<Turn>)
    requires |turns| == |ids| && TurnsRight(st, ids, turns) && st.worldChanged
    requires !ExtendAll(st, ids, turns).halted
    ensures var r := ExtendAll(st, ids, turns);
            r.worldChanged && r.bodies.Keys == st.bodies.Keys && forall id :: id in ids ==> Heeds(r, id)
  {
    hide StationInv, Enabled, ExtendTurn, Heeds, Do;
    if ids != [] {
      var n := |ids| - 1;
      var mid, act := ExtendAll(st, ids[..n], turns[..n]), Extend(ids[n], turns[n].answer, turns[n].hi);
      ExtendTurnIsAct(mid, ids[n], turns[n]);
      ExtensionsAnswer(st, ids[..n], turns[..n]);
      ExtensionAnswers(mid, ids[n], turns[n]);
      SameBodies(mid, ids[n], turns[n]);
      var r := ExtendAll(st, ids, turns);
      forall id | id in ids ensures Heeds(r, id) {
        if id != ids[n] {
          assert id in ids[..n];
          ActHeeds(mid, act, id);
        }
      }
    }
  }

  lemma SameBodies(st: Station, id: Id, turn: Turn)
    requires id in st.bodies
    ensures ExtendTurn(st, id, turn).bodies.Keys == st.bodies.Keys
  {
    hide ExtendOne;
  }

  // ---------------------------------------------------------------- the whole update

  lemma FlagsHeed(st: Station, st': Station)
    requires AllHeed(st) && st'.bodies == st.bodies && st'.cfg == st.cfg && st'.world == st.world
    ensures AllHeed(st')
  {
    hide Blocked;
    forall id ensures Heeds(st', id) {
      assert Heeds(st, id);
      if id in st.bodies && st.bodies[id].LiveGrant().Some? { SelfRemains(st.bodies[id]); RemainsHeeds(st, st', id); }
    }
  }

  lemma SelfRemains(b: Body)
    ensures Remains(b, b)
  {
  }

  lemma AllOfOrder(st: Station, r: Station)
    requires StationInv(st) && r.bodies.Keys == st.bodies.Keys && forall id :: id in st.order ==> Heeds(r, id)
    ensures AllHeed(r)
  {
    hide WellFormedBody, GoodWorld, KitShaped, GoodKit, Blocked;
    forall id ensures Heeds(r, id) { assert id in r.bodies ==> id in st.bodies.Keys; }
  }

  lemma ExtensionTurnHeeds(base: Station, st: Station, now: real, progress: real, turns: seq<Turn>)
    requires Sound(base, st) && |turns| == |st.order| && TurnsRight(st, st.order, turns) && st.worldChanged
    requires !ExtensionTurn(st, now, progress, turns).halted
    ensures AllHeed(ExtensionTurn(st, now, progress, turns))
  {
    hide PairwiseDisjoint, Speaks, StationInv, ExtendAll, StallAll, TurnsRight, Heeds, AllHeed, Reaches, Current.Stays;
    var st1 := ExtendAll(st, st.order, turns);
    var st2 := st1.(worldChanged := false);
    Current.StallAllStays(st2, st2.order);
    StaysHalts(st2, StallAll(st2, st2.order));
    ExtensionsAnswer(st, st.order, turns);
    AllOfOrder(st, st1);
    FlagsHeed(st1, st2);
    ExtendAllReaches([], base, st, st.order, turns);
    FlagsReach([], base, st, st1, false, st1.dirty);
    if FleetStalled(st2, now, progress) {
      StallAllReaches([], base, st2, st2.order);
      ReachHeeds([], st2, StallAll(st2, st2.order));
      FlagsHeed(StallAll(st2, st2.order), StallAll(st2, st2.order).(dirty := true));
    }
  }

  lemma StaysHalts(st: Station, st': Station)
    requires Current.Stays(st, st')
    ensures st.halted ==> st'.halted
  {
  }

  /** Reports may ask for another look, and never take that back. */
  lemma {:induction false} ReportsKeepFlag(st: Station, vs: seq<Vehicle>)
    requires Shaped(st)
    ensures st.worldChanged ==> SyncAll(st, vs).worldChanged
    decreases |vs|
  {
    if vs != [] {
      ReportsKeepFlag(st, vs[..|vs| - 1]);
      hide SyncBody, Outdated, Touches, GoodKit, KitShaped;
    }
  }

  lemma {:induction false} CursorsKeepFlag(st: Station, ids: seq<Id>)
    ensures AdvanceAll(st, ids).worldChanged == st.worldChanged
  {
    hide Advanced, Cursors;
    if ids != [] { CursorsKeepFlag(st, ids[..|ids| - 1]); }
  }

  lemma {:induction false} BrakesKeepFlag(st: Station, ids: seq<Id>)
    ensures BrakeAll(st, ids).worldChanged == st.worldChanged
  {
    hide EmitBrake;
    if ids != [] { BrakesKeepFlag(st, ids[..|ids| - 1]); }
  }

  lemma {:induction false} AdmissionsKeepFlag(st: Station, moves: seq<Move>, turns: seq<Turn>)
    requires |turns| == |moves|
    ensures AdmitAll(st, moves, turns).worldChanged == st.worldChanged
  {
    hide EmitHold, EmitReject, InstallPlan, PlanFor, Viable;
    if moves != [] { AdmissionsKeepFlag(st, moves[..|moves| - 1], turns[..|moves| - 1]); }
  }

  /** Whether the world has been looked at since it changed. */
  ghost predicate HeedsTheWorld(st: Station) { !st.worldChanged ==> AllHeed(st) }

  /** A turn that begins with a changed world: only its extension turn takes the flag back, and then
      no live permission is in conflict with the world. */
  lemma ChangedTurnHeeds(base: Station, st: Station, c: Clock, admit: bool, moves: seq<Move>, answers: Answers)
    requires Sound(base, st) && Fits(st, c, admit, moves, answers) && AnswersRight(st, c, admit, moves, answers)
    requires st.worldChanged && !StepTurn(st, c, admit, moves, answers).halted
    ensures var r := StepTurn(st, c, admit, moves, answers);
            if ExtensionDue(st.cfg, c) then AllHeed(r) else r.worldChanged
  {
    hide PairwiseDisjoint, Speaks, StationInv, BrakeAll, AdvanceAll, ExtensionTurn, AdmissionTurn, TurnsRight;
    hide AllHeed, MovesRight, Admission, MoversClock, Reaches, ProgressAt, Sound, Current.Stays;
    var st1 := Braked(st, admit);
    BrakeAllReaches([], base, st, st.order);
    BrakesKeepFlag(st, st.order);
    var st2 := AdvanceAll(st1, st1.order);
    AdvanceAllReaches([], base, st1, st1.order);
    CursorsKeepFlag(st1, st1.order);
    var st3, c3 := MoversTurn(st1, c, answers.movers), MoversClock(st1, c, answers.movers);
    if st3.halted && admit { Stalled.AdmissionHalts(st3, c3, moves, answers.moves); }
    if ExtensionDue(st.cfg, c) {
      ExtensionTurnHeeds(base, st2, c.now, ProgressAt(st1, c), answers.movers);
      MoversTurnReaches([], base, st1, c, answers.movers);
      if admit {
        AdmissionTurnReaches([], base, st3, c3, moves, answers.moves);
        ReachHeeds([], st3, AdmissionTurn(st3, c3, moves, answers.moves));
      }
    } else if admit {
      AdmissionKeepsFlag(st3, c3, moves, answers.moves);
    }
  }

  lemma AdmissionKeepsFlag(st: Station, c: Clock, moves: seq<Move>, turns: seq<Turn>)
    requires |turns| == |moves|
    ensures AdmissionTurn(st, c, moves, turns).worldChanged == st.worldChanged
  {
    hide AdmitAll, AnyWaiting;
    AdmissionsKeepFlag(st.(dirty := false), moves, turns);
  }

  /** Every update keeps it: unless a change of the world still waits for the extension turn, no live
      permission reaches an obstacle or leaves the fence with what remains of its route. */
  lemma UpdateHeeds(base: Station, vs: seq<Vehicle>, c: Clock, admit: bool, moves: seq<Move>, answers: Answers,
                    after: Station)
    requires Sound(base, base) && Updates(base, vs, c, admit, moves, answers, after) && !after.halted
    requires HeedsTheWorld(base)
    ensures HeedsTheWorld(after) && (ExtensionDue(base.cfg, c) ==> AllHeed(after))
  {
    hide Sound, StepTurn, SyncAll, AllHeed, Reaches, Fits, AnswersRight, Shaped;
    UpdateIsARun(base, vs, c, admit, moves, answers, after);
    var st := SyncAll(base, vs);
    ReportsKeepFlag(base, vs);
    SyncAllReaches(vs, base, base, |vs|);
    assert vs[..|vs|] == vs;
    if st.worldChanged {
      SameConfig(base, vs);
      ChangedTurnHeeds(base, st, c, admit, moves, answers);
    } else {
      ReachHeeds(vs, base, after);
    }
  }

  lemma {:induction false} SameConfig(st: Station, vs: seq<Vehicle>)
    requires Shaped(st)
    ensures SyncAll(st, vs).cfg == st.cfg
    decreases |vs|
  {
    if vs != [] {
      SameConfig(st, vs[..|vs| - 1]);
      SyncKeepsKit(SyncAll(st, vs[..|vs| - 1]), vs[|vs| - 1]);
    }
  }

  // ---------------------------------------------------------------- whoever is in the way brakes

  /** It has been told to brake, and nothing since. */
  ghost predicate ToldToBrake(st: Station, id: Id) {
    && id in st.bodies && st.bodies[id].IsRetiring()
    && LastFor(st.out, id).Some? && LastFor(st.out, id).value.state.Brake?
  }

  lemma OtherTurn(st: Station, o: Id, turn: Turn, id: Id)
    requires o != id && id in st.bodies
    ensures var r := ExtendTurn(st, o, turn);
            && r.bodies.Keys == st.bodies.Keys && r.bodies[id] == st.bodies[id]
            && LastFor(r.out, id) == LastFor(st.out, id)
            && r.cfg == st.cfg && r.world == st.world
  {
    if o in st.bodies {
      Current.ExtendInside(st.cfg, st.At(o), st.worldChanged, turn.answer, turn.hi);
      var r := ExtendOne(st.cfg, st.At(o), st.worldChanged, turn.answer, turn.hi);
      if r.out != st.out {
        var d :| r.out == st.out + [d] && d.id == o;
        LastForAppended(st.out, d, id);
      }
      hide ExtendOne;
    }
  }

  lemma {:induction false} OthersTurns(st: Station, ids: seq<Id>, turns: seq<Turn>, id: Id)
    requires |turns| == |ids| && id !in ids && id in st.bodies
    ensures var r := ExtendAll(st, ids, turns);
            && r.bodies.Keys == st.bodies.Keys && r.bodies[id] == st.bodies[id]
            && LastFor(r.out, id) == LastFor(st.out, id)
            && r.cfg == st.cfg && r.world == st.world
  {
    hide ExtendTurn;
    if ids != [] {
      var n := |ids| - 1;
      OthersTurns(st, ids[..n], turns[..n], id);
      OtherTurn(ExtendAll(st, ids[..n], turns[..n]), ids[n], turns[n], id);
    }
  }

  lemma {:induction false} ExtensionsBrake(st: Station, ids: seq<Id>, turns: seq<Turn>, id: Id)
    requires |turns| == |ids| && TurnsRight(st, ids, turns) && st.worldChanged && DistinctNames(ids)
    requires id in ids && id in st.bodies && st.bodies[id].LiveGrant().Some? && Blocked(st, st.bodies[id])
    requires !ExtendAll(st, ids, turns).halted
    ensures ToldToBrake(ExtendAll(st, ids, turns), id)
  {
    hide StationInv, Enabled, ExtendTurn, Blocked;
    var n := |ids| - 1;
    var mid := ExtendAll(st, ids[..n], turns[..n]);
    ExtendTurnIsAct(mid, ids[n], turns[n]);
    if ids[n] == id {
      OthersTurns(st, ids[..n], turns[..n], id);
      FlagStays(st, ids[..n], turns[..n]);
      SameBlocked(st, mid, st.bodies[id]);
      ExtensionAnswers(mid, id, turns[n]);
      var r := ExtendAll(st, ids, turns);
      var d :| r.out == mid.out + [d] && d.id == id && d.state.Brake?;
      LastForAppended(mid.out, d, id);
    } else {
      ExtensionsBrake(st, ids[..n], turns[..n], id);
      OtherTurn(mid, ids[n], turns[n], id);
    }
  }

  lemma {:induction false} FlagStays(st: Station, ids: seq<Id>, turns: seq<Turn>)
    requires |turns| == |ids|
    ensures ExtendAll(st, ids, turns).worldChanged == st.worldChanged
  {
    hide ExtendOne;
    if ids != [] { FlagStays(st, ids[..|ids| - 1], turns[..|ids| - 1]); }
  }

  lemma SameBlocked(st: Station, st': Station, b: Body)
    requires Blocked(st, b) && st'.cfg == st.cfg && st'.world == st.world
    ensures Blocked(st', b)
  {
    hide HitsWorld;
    var v: nat, i: nat :| Asked(b.reservation.plan.sets, b.reservation.plan.cursor, v, i)
                          && HitsWorld(st, b, b.reservation.plan.sets[v].pts[i]);
    SameHits(st, b, st', b, b.reservation.plan.sets[v].pts[i]);
  }

  /** Who is retiring is not refused, and nothing more is said to it. */
  lemma {:induction false} StallLeaves(st: Station, ids: seq<Id>, id: Id)
    requires ToldToBrake(st, id)
    ensures ToldToBrake(StallAll(st, ids), id)
  {
    if ids != [] {
      StallLeaves(st, ids[..|ids| - 1], id);
      StallOneLeaves(StallAll(st, ids[..|ids| - 1]), ids[|ids| - 1], id);
    }
  }

  lemma StallOneLeaves(st: Station, o: Id, id: Id)
    requires ToldToBrake(st, id)
    ensures ToldToBrake(StallOne(st, o), id)
  {
    var r := StallOne(st, o);
    if r.out != st.out {
      assert r.out == st.out + [Plain(st.At(o), Reject, Stalled, STALLED, st.bodies[o].blockers)];
      LastForAppended(st.out, Plain(st.At(o), Reject, Stalled, STALLED, st.bodies[o].blockers), id);
    }
  }

  lemma AdmitOneLeaves(st: Station, move: Move, turn: Turn, id: Id)
    requires ToldToBrake(st, id)
    ensures ToldToBrake(AdmitOne(st, move, turn), id)
  {
    hide PlanFor, Viable, EmitHold, EmitReject, InstallPlan, Shaped;
    if move.id in st.bodies && !st.bodies[move.id].HasPlan() {
      var t := st.At(move.id);
      match move
      case TryMove(_, c) =>
        if Tries(st, move) {
          var p := Candidate(st, move).(sLimit := Limit(st.cfg, turn.answer.s));
          Current.InstallInside(t, p, turn.hi);
          PutLeaves(st, t, InstallPlan(t, p, turn.hi), id);
        }
      case HoldMove(_, reason, detail, blockers) =>
        Current.DecisionsInside(t, reason, detail, blockers);
        PutLeaves(st, t, EmitHold(t, reason, detail, blockers), id);
      case RejectMove(_, reason, detail, blockers) =>
        Current.DecisionsInside(t, reason, detail, blockers);
        PutLeaves(st, t, EmitReject(t, reason, detail, blockers), id);
    }
  }

  lemma PutLeaves(st: Station, t: Desk, r: Desk, id: Id)
    requires ToldToBrake(st, id) && t.id != id && t.id in st.bodies && t == st.At(t.id) && Current.Inside(t, r)
    ensures ToldToBrake(st.Put(r), id)
  {
    if r.out != t.out {
      var d :| r.out == t.out + [d] && d.id == t.id;
      LastForAppended(t.out, d, id);
    }
  }

  lemma {:induction false} AdmitAllLeaves(st: Station, moves: seq<Move>, turns: seq<Turn>, id: Id)
    requires |turns| == |moves| && ToldToBrake(st, id)
    ensures ToldToBrake(AdmitAll(st, moves, turns), id)
  {
    hide AdmitOne, ToldToBrake;
    if moves != [] {
      var n := |moves| - 1;
      AdmitAllLeaves(st, moves[..n], turns[..n], id);
      AdmitOneLeaves(AdmitAll(st, moves[..n], turns[..n]), moves[n], turns[n], id);
    }
  }

  /** In an update whose extension turn finds the world changed: a vehicle whose remaining route, from
      the cursor on, is blocked in some variant loses its permission, and the last word to it is a
      Brake. */
  lemma BlockedIsBraked(base: Station, vs: seq<Vehicle>, c: Clock, moves: seq<Move>, answers: Answers,
                        after: Station, id: Id)
    requires Sound(base, base) && DistinctNames(base.order) && base.out == []
    requires Updates(base, vs, c, true, moves, answers, after) && !after.halted
    requires ExtensionDue(base.cfg, c)
    requires var st := AdvanceAll(SyncAll(base, vs), SyncAll(base, vs).order);
             st.worldChanged && id in st.bodies && st.bodies[id].LiveGrant().Some? && Blocked(st, st.bodies[id])
    ensures ToldToBrake(after, id)
  {
    hide Sound, AdvanceAll, SyncAll, Shaped, DistinctNames, Blocked, MoversTurn, AdmissionTurn, MoversClock;
    hide TurnsRight, MovesRight, Admission;
    var st := SyncAll(base, vs);
    Stalled.ReportsAreIn(base, vs);
    SameConfig(base, vs);
    AdvanceAllReaches([], base, st, st.order);
    var st2, st3 := AdvanceAll(st, st.order), MoversTurn(st, c, answers.movers);
    if st3.halted { Stalled.AdmissionHalts(st3, MoversClock(st, c, answers.movers), moves, answers.moves); }
    MoversBrake(base, st, c, answers.movers, id);
    AdmissionLeaves(st3, MoversClock(st, c, answers.movers), moves, answers.moves, id);
  }

  lemma AdmissionLeaves(st: Station, c: Clock, moves: seq<Move>, turns: seq<Turn>, id: Id)
    requires |turns| == |moves| && ToldToBrake(st, id)
    ensures ToldToBrake(AdmissionTurn(st, c, moves, turns), id)
  {
    hide AdmitAll, AnyWaiting;
    AdmitAllLeaves(st.(dirty := false), moves, turns, id);
  }

  lemma MoversBrake(base: Station, st: Station, c: Clock, turns: seq<Turn>, id: Id)
    requires Sound(base, st) && DistinctNames(st.order) && ExtensionDue(st.cfg, c)
    requires var st2 := AdvanceAll(st, st.order);
             && |turns| == |st2.order| && TurnsRight(st2, st2.order, turns)
             && st2.worldChanged && id in st2.bodies && st2.bodies[id].LiveGrant().Some? && Blocked(st2, st2.bodies[id])
    requires !MoversTurn(st, c, turns).halted
    ensures ToldToBrake(MoversTurn(st, c, turns), id)
  {
    AdvanceAllReaches([], base, st, st.order);
    hide AdvanceAll, ProgressAt, DistinctNames, Blocked, ExtendAll, StallAll, TurnsRight, PairwiseDisjoint, Speaks;
    var st2 := AdvanceAll(st, st.order);
    ListedInOrder(st2, id);
    hide StationInv, Current.Stays, ToldToBrake;
    var st3 := ExtendAll(st2, st2.order, turns).(worldChanged := false);
    Current.StallAllStays(st3, st3.order);
    StaysHalts(st3, StallAll(st3, st3.order));
    ExtensionsBrake(st2, st2.order, turns, id);
    FlagsTold(ExtendAll(st2, st2.order, turns), st3, id);
    StallLeaves(st3, st3.order, id);
    FlagsTold(StallAll(st3, st3.order), StallAll(st3, st3.order).(dirty := true), id);
  }

  lemma FlagsTold(st: Station, st': Station, id: Id)
    requires ToldToBrake(st, id) && st'.bodies == st.bodies && st'.out == st.out
    ensures ToldToBrake(st', id)
  {
  }

  lemma ListedInOrder(st: Station, id: Id)
    requires StationInv(st) && id in st.bodies
    ensures id in st.order
  {
  }
}
