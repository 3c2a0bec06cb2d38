/** What a report brings about (reset_planner.cpp, sync), over a whole update: the body is where its
    vehicle says it is; a new request, or a vehicle that has left, leaves no permission in force, and
    a vehicle that cannot be heard keeps none it had; and a body that has moved into what is granted
    makes the station look at all routes again. */
module ReportEffects {
  import opened ResetProtocol
  import opened Geometry
  import opened Bodies
  import opened PlannerModel
  import opened Reservations
  import opened PlannerOut
  import opened PlannerTurn
  import opened PlannerRuns
  import Current = PlannerCurrent
  import ReservationLife
  import Sweep

  /** The body shows the report: phase and availability always, place and footprint of a vehicle that
      is heard; the footprint of a reservation stays. */
  predicate Shows(kit: Kit, b: Body, v: Vehicle) {
    && b.phase == v.phase && b.available == v.available
    && (v.available ==> b.pose == v.pose && b.hx == v.hx && b.hy == v.hy)
    && (v.available && !b.HasPlan() ==>
          b.spec == v.spec && b.shape == kit.shapeOf(v.spec) && b.delta == kit.deltaOf(v.spec))
  }

  predicate TakesPart(p: Phase) { p == Requesting || p == Phase.Waiting || p == Moving || p == Settling }

  /** Nothing is permitted, and nothing can be until the vehicle has stopped, or takes part again. */
  predicate Barred(b: Body) {
    b.LiveGrant().None? && (!b.certificate.Certified? || !TakesPart(b.phase))
  }

  /** What a report leaves in force: nothing of an earlier request, nothing for a vehicle that has left,
      and no permission for one that cannot be heard. */
  predicate LeavesInForce(before: Option<Body>, b: Body, v: Vehicle) {
    && (before.Some? && v.generation > before.value.generation ==> Barred(b))
    && (b.generation > 0 && !TakesPart(v.phase) ==> Barred(b))
    && (b.generation > 0 && !v.available ==> b.LiveGrant().None?)
  }

  // ---------------------------------------------------------------- one report

  lemma AnchoredShows(kit: Kit, b: Body, v: Vehicle, isNew: bool)
    ensures Shows(kit, Anchored(kit, b, v, isNew), v)
    ensures var c := Anchored(kit, b, v, isNew);
            c.reservation == b.reservation && c.certificate == b.certificate && c.generation == b.generation
  {
    hide StaleQuiescent, Reported;
    ReportedShows(kit, b, v, isNew);
  }

  lemma ReportedShows(kit: Kit, b: Body, v: Vehicle, isNew: bool)
    ensures Shows(kit, Reported(kit, b, v, isNew), v)
    ensures var c := Reported(kit, b, v, isNew);
            c.reservation == b.reservation && c.certificate == b.certificate && c.generation == b.generation
  {
    if !b.HasPlan() && (v.available || isNew) {
      assert Reported(kit, b, v, isNew).shape == kit.shapeOf(v.spec);
    }
  }

  /** Neither where it is nor what it looks like. */
  predicate SameShow(b: Body, c: Body) {
    && c.phase == b.phase && c.available == b.available && c.pose == b.pose && c.hx == b.hx && c.hy == b.hy
    && c.spec == b.spec && c.shape == b.shape && c.delta == b.delta && c.generation == b.generation
  }

  lemma BrakeShows(t: Desk, reason: Reason, detail: string, blockers: seq<Id>)
    ensures var r := EmitBrake(t, reason, detail, blockers);
            && SameShow(t.body, r.body) && r.body.HasPlan() == t.body.HasPlan() && (t.halted ==> r.halted)
            && (!r.halted ==> r.body.LiveGrant().None? && r.body.certificate.AwaitingStop?)
            && (r.halted ==> r.body == t.body)
  {
  }

  lemma RequestShows(kit: Kit, t: Desk, v: Vehicle, newRequest: bool, isNew: bool)
    requires Shows(kit, t.body, v)
    ensures var r := Requested(t, v, newRequest, isNew);
            && Shows(kit, r.body, v) && (t.halted ==> r.halted) && (LiveCertified(t.body) ==> LiveCertified(r.body))
            && (newRequest && !r.halted ==> r.body.LiveGrant().None? && r.body.certificate.AwaitingStop?)
            && (!r.halted ==> r.body.generation == if newRequest then v.generation else t.body.generation)
            && (!newRequest ==> r.body.reservation == t.body.reservation && r.body.certificate == t.body.certificate)
  {
    hide EmitBrake;
    var b := t.body.(session := v.session, generation := v.generation, target := v.target,
                     rejected := false, told := t.body.told.(emitted := false));
    BrakeShows(t.(body := b), Replan, "awaiting exact post-zero stopping certificate", []);
  }

  lemma WithdrawShows(kit: Kit, t: Desk, v: Vehicle)
    requires Shows(kit, t.body, v) && LiveCertified(t.body)
    ensures var r := Withdrawn(t, v);
            && Shows(kit, r.body, v) && (t.halted ==> r.halted) && r.body.generation == t.body.generation
            && (!r.halted && (!v.available || !TakesPart(v.phase)) ==> r.body.LiveGrant().None?)
            && (t.body.LiveGrant().None? ==> r == t)
  {
    hide EmitBrake;
    BrakeShows(t, Replan, "permission retained until stopping is acknowledged", []);
  }

  lemma ReleaseShows(kit: Kit, t: Desk, v: Vehicle, newRequest: bool)
    requires Shows(kit, t.body, v)
    ensures var r := Released(kit, t, v, newRequest);
            && Shows(kit, r.body, v) && (t.halted ==> r.halted) && r.body.generation == t.body.generation
            && (t.body.LiveGrant().None? ==> r.body.LiveGrant().None?)
            && (newRequest ==> r == t)
  {
    hide ExactCertificate, EmitHold;
    ExactIsAvailable(t.body, v, newRequest);
    if !t.halted && ExactCertificate(t.body, v, newRequest) {
      HoldShows(t.(body := ReleasedBody(kit, t.body, v)));
    }
  }

  lemma ExactIsAvailable(b: Body, v: Vehicle, newRequest: bool)
    ensures ExactCertificate(b, v, newRequest) ==> v.available && !newRequest && b.certificate.AwaitingStop?
  {
  }

  lemma HoldShows(t: Desk)
    ensures var r := EmitHold(t, NoReason, "Reset permission retired", []);
            SameShow(t.body, r.body) && r.body.reservation == t.body.reservation && (t.halted ==> r.halted)
  {
  }

  lemma ReceiptShows(kit: Kit, t: Desk, v: Vehicle)
    requires Shows(kit, t.body, v)
    ensures var r := Received(t, v);
            && Shows(kit, r.body, v) && r.halted == t.halted && r.body.generation == t.body.generation
            && r.body.LiveGrant() == t.body.LiveGrant() && r.body.certificate == t.body.certificate
  {
  }

  lemma DeskShows(kit: Kit, t: Desk, v: Vehicle, isNew: bool)
    requires LiveCertified(t.body) && !t.halted && (if isNew then t.body.generation == 0 else !Outdated(v, t.body))
    ensures var r := SyncBody(kit, t, v, isNew);
            !r.halted ==>
              Shows(kit, r.body, v) && LeavesInForce(Some(t.body), r.body, v) && r.body.generation == v.generation
  {
    hide Anchored, Requested, Withdrawn, Released, Received, Outdated, Shows;
    var newRequest := NewRequest(t.body, v);
    var t1 := t.(body := Anchored(kit, t.body, v, isNew));
    AnchoredShows(kit, t.body, v, isNew);
    var t2 := Requested(t1, v, newRequest, isNew);
    RequestShows(kit, t1, v, newRequest, isNew);
    var t3 := Withdrawn(t2, v);
    WithdrawShows(kit, t2, v);
    var t4 := Released(kit, t3, v, newRequest);
    ReleaseShows(kit, t3, v, newRequest);
    ReceiptShows(kit, t4, v);
    OnTime(t.body, v, isNew);
    PhaseShown(kit, Received(t4, v).body, v);
    PhaseShown(kit, t2.body, v);
  }

  lemma OnTime(b: Body, v: Vehicle, isNew: bool)
    requires if isNew then b.generation == 0 else !Outdated(v, b)
    ensures !NewRequest(b, v) ==> v.generation == b.generation
  {
  }

  lemma PhaseShown(kit: Kit, b: Body, v: Vehicle)
    requires Shows(kit, b, v)
    ensures b.phase == v.phase
  {
  }

  lemma ReportShows(st: Station, v: Vehicle)
    requires StationInv(st) && (v.id in st.bodies ==> LiveCertified(st.bodies[v.id]) && !Outdated(v, st.bodies[v.id]))
    ensures var r := SyncVehicle(st, v);
            !r.halted ==>
              && v.id in r.bodies && Shows(st.kit, r.bodies[v.id], v) && r.bodies[v.id].generation == v.generation
              && LeavesInForce(if v.id in st.bodies then Some(st.bodies[v.id]) else None, r.bodies[v.id], v)
  {
    hide SyncVehicle, SyncBody, Outdated, WellFormedBody, GoodWorld, KitShaped, GoodKit, Shows;
    SyncIsPut(st, v);
    if st.halted { HaltedStays(st, v); }
    else {
      NewIsUnreserved(st.kit, v);
      DeskShows(st.kit, WithVehicle(st, v).At(v.id), v, v.id !in st.bodies);
    }
  }

  lemma NewIsUnreserved(kit: Kit, v: Vehicle)
    ensures LiveCertified(NewBody(kit, v)) && NewBody(kit, v).generation == 0
  {
  }

  // ---------------------------------------------------------------- all reports of an update

  lemma {:induction false} OthersReports(st: Station, vs: seq<Vehicle>, id: Id)
    requires Shaped(st) && !Current.Mentions(vs, id)
    ensures var r := SyncAll(st, vs);
            && (id in r.bodies <==> id in st.bodies) && (id in st.bodies ==> r.bodies[id] == st.bodies[id])
            && (st.halted ==> r.halted)
    decreases |vs|
  {
    hide SyncVehicle, GoodKit, KitShaped;
    if vs != [] {
      var before, v := vs[..|vs| - 1], vs[|vs| - 1];
      assert vs == before + [v];
      Current.MentionsMore(before, v, id);
      OthersReports(st, before, id);
      OtherReport(SyncAll(st, before), v, id);
    }
  }

  lemma OtherReport(st: Station, v: Vehicle, id: Id)
    requires Shaped(st) && v.id != id
    ensures var r := SyncVehicle(st, v);
            && (id in r.bodies <==> id in st.bodies) && (id in st.bodies ==> r.bodies[id] == st.bodies[id])
            && (st.halted ==> r.halted)
  {
    hide SyncVehicle, SyncBody, Outdated, GoodKit, KitShaped;
    SyncIsPut(st, v);
    if st.halted { HaltedStays(st, v); }
  }

  /** After all reports, each body shows its own, and only what may be in force is. */
  lemma {:induction false} ReportsShow(base: Station, vs: seq<Vehicle>, n: nat, k: nat)
    requires Sound(base, base) && base.out == [] && Current.DistinctVehicles(vs) && k < n <= |vs|
    requires Current.Timely(base.bodies, vs[k]) && !SyncAll(base, vs[..n]).halted
    ensures var r, v := SyncAll(base, vs[..n]), vs[k];
            && v.id in r.bodies && Shows(base.kit, r.bodies[v.id], v) && r.bodies[v.id].generation == v.generation
            && LeavesInForce(if v.id in base.bodies then Some(base.bodies[v.id]) else None, r.bodies[v.id], v)
  {
    hide SyncVehicle, PairwiseDisjoint, Speaks, GoodWorld, WellFormedBody, KitShaped, GoodKit, Outdated, Shows;
    var mid, v := SyncAll(base, vs[..n - 1]), vs[k];
    assert vs[..n][..n - 1] == vs[..n - 1];
    SyncAllSound(base, base, vs[..n - 1]);
    if k == n - 1 {
      NotYet(vs, k);
      OthersReports(base, vs[..k], v.id);
      SoundLives(base, mid);
      KitStays(base, vs[..k]);
      ReportShows(mid, v);
    } else {
      if mid.halted { HaltedStays(mid, vs[n - 1]); }
      ReportsShow(base, vs, n - 1, k);
      OtherReport(mid, vs[n - 1], v.id);
    }
  }

  lemma NotYet(vs: seq<Vehicle>, k: nat)
    requires Current.DistinctVehicles(vs) && k < |vs|
    ensures !Current.Mentions(vs[..k], vs[k].id)
  {
  }

  lemma SoundLives(base: Station, st: Station)
    requires Sound(base, st)
    ensures forall id :: id in st.bodies ==> LiveCertified(st.bodies[id])
  {
    SpeaksLive(base, st);
  }

  lemma {:induction false} KitStays(st: Station, vs: seq<Vehicle>)
    requires Shaped(st)
    ensures SyncAll(st, vs).kit == st.kit
    decreases |vs|
  {
    if vs != [] {
      KitStays(st, vs[..|vs| - 1]);
      SyncKeepsKit(SyncAll(st, vs[..|vs| - 1]), vs[|vs| - 1]);
    }
  }

  // ---------------------------------------------------------------- the turn

  /** What the turn after the reports may do to a body: it stays where it is; who is barred stays so;
      and a permission that was not there before comes by admission only. */
  ghost predicate Turns(b: Body, c: Body) {
    && SameShow(b, c) && (Barred(b) ==> Barred(c)) && (b.HasPlan() ==> c.HasPlan())
    && (c.LiveGrant().Some? ==> b.LiveGrant().Some? || (!b.HasPlan() && b.certificate.Certified?))
    && (c.certificate.Certified? ==> b.certificate.Certified?)
  }

  lemma DecisionsTurn(t: Desk, reason: Reason, detail: string, blockers: seq<Id>)
    ensures Turns(t.body, EmitBrake(t, reason, detail, blockers).body)
    ensures Turns(t.body, EmitReject(t, reason, detail, blockers).body)
    ensures Turns(t.body, EmitHold(t, reason, detail, blockers).body)
  {
  }

  lemma RoutesTurn(t: Desk, p: Plan, hi: seq<nat>, cursor: seq<nat>)
    ensures Turns(t.body, Advanced(t, cursor).body)
    ensures t.body.MayBeGranted() ==> Turns(t.body, InstallPlan(t, p, hi).body)
  {
    hide Progressed;
  }

  lemma ExtensionTurns(cfg: PlannerConfig, t: Desk, worldChanged: bool, answer: Sweep.Violation, hi: seq<nat>)
    ensures Turns(t.body, ExtendOne(cfg, t, worldChanged, answer, hi).body)
  {
    hide EmitBrake, Revokes, Waits, NewLimit, Blockers;
    DecisionsTurn(t, SceneChanged, "the scene changed under the route", Blockers(answer));
    DecisionsTurn(t, Replan, "the rest of the route is blocked", Blockers(answer));
  }

  lemma OwnActTurns(st: Station, act: Act, id: Id)
    requires StationInv(st) && Enabled(st, act) && Own(act) && id in st.bodies
    ensures id in Do(st, act).bodies && Turns(st.bodies[id], Do(st, act).bodies[id])
  {
    hide EmitBrake, EmitReject, EmitHold, Advanced, InstallPlan, ExtendOne, Turns;
    hide Sweep.NaiveAnswer, PrefixEnds, WellFormedPlan, Asks, PlannerModel.Extends, GoodWorld, GoodCandidate, Verified;
    NothingTurns(st.bodies[id]);
    match act
    case Advance(o, cursor) => RoutesTurn(st.At(o), ReservationLife.NO_PLAN, [], cursor);
    case Brakes(o, reason, detail, blockers) => DecisionsTurn(st.At(o), reason, detail, blockers);
    case Rejects(o, reason, detail, blockers) => DecisionsTurn(st.At(o), reason, detail, blockers);
    case Holds(o, reason, detail, blockers) => DecisionsTurn(st.At(o), reason, detail, blockers);
    case Install(o, p, s, hi) => RoutesTurn(st.At(o), p, hi, []);
    case Extend(o, answer, hi) => ExtensionTurns(st.cfg, st.At(o), st.worldChanged, answer, hi);
    case _ =>
  }

  lemma NothingTurns(b: Body)
    ensures Turns(b, b)
  {
  }

  lemma TurnsOn(b: Body, c: Body, d: Body)
    requires Turns(b, c) && Turns(c, d)
    ensures Turns(b, d)
  {
  }

  lemma {:induction false} RunTurns(n: nat, st: Station, st': Station, id: Id)
    requires Leads([], n, st, st') && id in st.bodies
    ensures id in st'.bodies && Turns(st.bodies[id], st'.bodies[id])
  {
    hide StationInv, Turns, Enabled, Do, Acts, ActStep;
    NothingTurns(st.bodies[id]);
    if n > 0 {
      var mid :| Leads([], n - 1, st, mid) && StationInv(mid) && Acts([], mid, st');
      RunTurns(n - 1, st, mid, id);
      NothingTurns(mid.bodies[id]);
      if !ActStep(mid, st') {
        var k := TheReport([], mid, st');
      } else if st' != mid {
        var act := TheAct(mid, st');
        OwnActTurns(mid, act, id);
      }
      TurnsOn(st.bodies[id], mid.bodies[id], st'.bodies[id]);
    }
  }

  // ---------------------------------------------------------------- the update

  /** After an update every reported body shows its report. A vehicle with a new request, or one that
      does not take part, has no permission in force; a vehicle that cannot be heard has none it had
      before: if it has one, it was admitted in this update. */
  lemma UpdateShows(base: Station, vs: seq<Vehicle>, c: Clock, admit: bool, moves: seq<Move>,
                    answers: Answers, after: Station, k: nat)
    requires Sound(base, base) && base.out == [] && Current.DistinctVehicles(vs) && k < |vs|
    requires Current.Timely(base.bodies, vs[k])
    requires Updates(base, vs, c, admit, moves, answers, after) && !after.halted
    ensures var v := vs[k];
            && v.id in after.bodies && var b := after.bodies[v.id];
            && b.phase == v.phase && b.available == v.available && b.generation == v.generation
            && (v.available ==> b.pose == v.pose && b.hx == v.hx && b.hy == v.hy)
            && (v.available && !b.HasPlan() ==>
                  b.spec == v.spec && b.shape == base.kit.shapeOf(v.spec) && b.delta == base.kit.deltaOf(v.spec))
            && (v.id in base.bodies && v.generation > base.bodies[v.id].generation ==> b.LiveGrant().None?)
            && (v.generation > 0 && !TakesPart(v.phase) ==> b.LiveGrant().None?)
            && (v.generation > 0 && !v.available && b.LiveGrant().Some? ==>
                  v.id in SyncAll(base, vs).bodies && !SyncAll(base, vs).bodies[v.id].HasPlan())
  {
    hide StepTurn, SyncAll, AnswersRight, Fits, Shaped, Sound, Shows, LeavesInForce, Turns, Current.Stays;
    var st, v := SyncAll(base, vs), vs[k];
    Current.StepTurnStays(st, c, admit, moves, answers);
    StaysHalts(st, after);
    assert vs[..|vs|] == vs;
    ReportsShow(base, vs, |vs|, k);
    SyncAllReaches(vs, base, base, |vs|);
    TurnIsARun([], base, st, c, admit, moves, answers);
    var n: nat :| Leads([], n, st, after);
    RunTurns(n, st, after, v.id);
    Concludes(base, st.bodies[v.id], after.bodies[v.id], v);
  }

  lemma StaysHalts(st: Station, st': Station)
    requires Current.Stays(st, st')
    ensures st.halted ==> st'.halted
  {
  }

  lemma Concludes(base: Station, b: Body, c: Body, v: Vehicle)
    requires Turns(b, c) && Shows(base.kit, b, v)
    requires LeavesInForce(if v.id in base.bodies then Some(base.bodies[v.id]) else None, b, v)
    requires b.generation == v.generation
    ensures c.phase == v.phase && c.available == v.available && c.generation == v.generation
    ensures v.available ==> c.pose == v.pose && c.hx == v.hx && c.hy == v.hy
    ensures v.available && !c.HasPlan() ==>
              c.spec == v.spec && c.shape == base.kit.shapeOf(v.spec) && c.delta == base.kit.deltaOf(v.spec)
    ensures v.id in base.bodies && v.generation > base.bodies[v.id].generation ==> c.LiveGrant().None?
    ensures v.generation > 0 && !TakesPart(v.phase) ==> c.LiveGrant().None?
    ensures v.generation > 0 && !v.available && c.LiveGrant().Some? ==> !b.HasPlan()
  {
  }

  // ---------------------------------------------------------------- drifting bodies

  /** The footprint a body is seen with. */
  function SeenShape(kit: Kit, b: Body, v: Vehicle): Shape {
    if b.HasPlan() then b.shape else kit.shapeOf(v.spec)
  }

  lemma SeenIs(kit: Kit, b: Body, v: Vehicle)
    requires v.available && WellFormed(SeenShape(kit, b, v))
    ensures var c := Reported(kit, b, v, false);
            && c.shape == SeenShape(kit, b, v) && c.HasPlan() == b.HasPlan() && c.IsRetiring() == b.IsRetiring()
            && c.At() == MakeSample(SeenShape(kit, b, v), v.pose.x, v.pose.y, v.hx, v.hy, 0.0)
  {
    hide BoxOf;
  }

  /** A body without a permission that has moved since it was last looked at: unless it makes the
      station look at all routes again, it is clear of every sample of every live reservation, from
      the cursor to the end of what is granted, by the pair margin and the sampling error. */
  lemma DriftIsNoticed(st: Station, v: Vehicle, o: Id, w: nat, i: nat)
    requires StationInv(st) && !st.halted && v.id in st.bodies && o in st.bodies && o != v.id
    requires var b := st.bodies[v.id];
             !Outdated(v, b) && v.available && b.LiveGrant().None?
             && (b.proof.None? || !Sweep.SamePlace(v.pose, b.proof.value))
    requires st.bodies[o].LiveGrant().Some? && Held(st.bodies[o].reservation.plan, w, i)
    requires !SyncVehicle(st, v).worldChanged
    ensures WellFormed(SeenShape(st.kit, st.bodies[v.id], v))
    ensures var b, x := st.bodies[v.id], st.bodies[o];
            SampleClear(x.shape, x.reservation.plan.sets[w].pts[i], SeenShape(st.kit, b, v),
                        MakeSample(SeenShape(st.kit, b, v), v.pose.x, v.pose.y, v.hx, v.hy, 0.0),
                        st.cfg.pairMargin + x.delta)
  {
    var b, x := st.bodies[v.id], st.bodies[o];
    assert KitShaped(st.kit, b) && WellFormedBody(x);
    hide GoodWorld, Swept, Sweep.SamePlace, PrefixEnds, Outdated, SyncBody;
    var seen := Reported(st.kit, b, v, false);
    NotTouched(st, v);
    SeenIs(st.kit, b, v);
    NotReached(st, st.Put(st.At(v.id).(body := seen)), seen, o, w, i);
  }

  lemma NotTouched(st: Station, v: Vehicle)
    requires Shaped(st) && !st.halted && v.id in st.bodies && WellFormed(st.bodies[v.id].shape)
    requires var b := st.bodies[v.id];
             !Outdated(v, b) && v.available && b.LiveGrant().None?
             && (b.proof.None? || !Sweep.SamePlace(v.pose, b.proof.value))
    requires !SyncVehicle(st, v).worldChanged
    ensures WellFormed(SeenShape(st.kit, st.bodies[v.id], v))
    ensures var seen := Reported(st.kit, st.bodies[v.id], v, false);
            WellFormed(seen.shape) && !InGrantedCorridor(st.Put(st.At(v.id).(body := seen)), seen)
  {
    hide SyncBody, Outdated, InGrantedCorridor, Sweep.SamePlace, BoxOf;
    SeenIs(st.kit, st.bodies[v.id], v);
  }

  lemma NotReached(st: Station, st': Station, seen: Body, o: Id, w: nat, i: nat)
    requires o in st.bodies && o in st'.bodies && st'.bodies[o] == st.bodies[o] && st'.cfg == st.cfg
    requires WellFormed(seen.shape) && !InGrantedCorridor(st', seen) && WellFormedBody(st.bodies[o])
    requires st.bodies[o].LiveGrant().Some? && Held(st.bodies[o].reservation.plan, w, i)
    ensures var x := st.bodies[o];
            SampleClear(x.shape, x.reservation.plan.sets[w].pts[i], seen.shape, seen.At(), st.cfg.pairMargin + x.delta)
  {
    var x := st.bodies[o];
    var p := x.reservation.plan;
    var c := i / K_CHUNK;
    hide BoxOf, PrefixEnds, ExactClear, FarByRadius;
    assert SweepOf(x.shape, p.sets[w]);
    assert !CorridorReaches(st'.cfg, x, seen.At().box);
    assert !VariantReaches(st'.cfg, x, w, seen.At().box);
    assert Inside(p.sets[w].pts[i].box, p.sets[w].chunks[c]);
    assert Separated(p.sets[w].chunks[c], seen.At().box, st.cfg.pairMargin + x.delta);
    SeparationShrinks(p.sets[w].pts[i].box, p.sets[w].chunks[c], seen.At().box, seen.At().box,
                      st.cfg.pairMargin + x.delta);
  }
}
