/** The planner object (reset_planner.cpp, ResetPlanner::Impl): its fields are updated in place, and
    every method is proved to do what the functions of PlannerModel and PlannerTurn say. */
module Planner {
  import opened ResetProtocol
  import opened Geometry
  import opened Bodies
  import opened Sweep
  import opened PlannerModel
  import opened Reservations
  import opened PlannerOut
  import opened PlannerTurn
  import opened Escape
  import RouteModel
  import RouteSweeps
  import SweepVerifier

  class ResetPlanner {
    const cfg: PlannerConfig
    const kit: Kit
    var world: World
    var bodies: map<Id, Body>
    var order: seq<Id>
    var next: nat
    var out: seq<Decision>
    var halted: bool
    var worldChanged: bool
    var dirty: bool
    var now: real
    var lastReplan: real
    var lastExtension: real
    var fleetProgress: real
    /** The station when the outbox was last emptied. */
    ghost var base: Station

    function View(): Station reads this {
      Station(cfg, kit, world, bodies, order, next, out, halted, worldChanged, dirty)
    }

    function Time(): Clock reads this { Clock(now, lastReplan, lastExtension, fleetProgress) }

    /** Reservations are pairwise disjoint, and the outbox matches the permissions that are left. */
    ghost predicate Valid() reads this { Sound(base, View()) }

    constructor (config: PlannerConfig, kit0: Kit, world0: World)
      requires GoodKit(kit0) && GoodWorld(world0) && config.holdMargin > 0.000000001
      ensures Valid() && View() == EmptyStation(config, kit0, world0)
      ensures Time() == Clock(0.0, -1000000000.0, -1000000000.0, 0.0)
    {
      cfg, kit, world := config, kit0, world0;
      bodies, order, next, out := map[], [], 1, [];
      halted, worldChanged, dirty := false, false, true;
      now, lastReplan, lastExtension, fleetProgress := 0.0, -1000000000.0, -1000000000.0, 0.0;
      base := EmptyStation(config, kit0, world0);
    }

    /** setWorld: obstacles with less than three corners are dropped, the others get their boxes. */
    method SetWorld(obstacles: seq<(Id, seq<Point>)>, fence: Fence)
      requires Valid()
      modifies `world, `worldChanged, `dirty
      ensures Valid()
      ensures View() == Do(old(View()), Act.SetWorld(World(StaticsOf(obstacles), fence)))
    {
      var statics: seq<StaticPoly> := [];
      for k := 0 to |obstacles|
        invariant statics == StaticsOf(obstacles[..k])
      {
        assert obstacles[..k + 1][..k] == obstacles[..k];
        if |obstacles[k].1| >= 3 {
          statics := statics + [StaticPoly(obstacles[k].0, obstacles[k].1, BoxOf(obstacles[k].1))];
        }
      }
      assert obstacles[..|obstacles|] == obstacles;
      StaticsAreGood(obstacles);
      ActIsSound(base, View(), Act.SetWorld(World(statics, fence)));
      hide Sound;
      world, worldChanged, dirty := World(statics, fence), true, true;
    }

    /** allocateGrantId, for the decisions the coordinator makes itself: it has looked at the counter. */
    method TakeGrantId() returns (id: nat)
      requires Valid() && next < UINT32_MAX
      modifies `next
      ensures Valid() && View() == old(View()).(next := id + 1) && id == old(next)
    {
      AllocateIsSound(base, View());
      hide Sound, Do;
      id := next;
      next := next + 1;
    }

    // ---------------------------------------------------------------- decisions

    method EmitBrakeFor(id: Id, reason: Reason, detail: string, blockers: seq<Id>)
      requires id in bodies
      modifies `bodies, `next, `out, `halted
      ensures View() == old(View()).Put(EmitBrake(old(View()).At(id), reason, detail, blockers))
    {
      if halted || next >= UINT32_MAX {
        halted := true;
      } else {
        var b := bodies[id];
        out := out + [Decision(id, b.session, b.generation, Brake, next, NO_ROUTE, 0.0, reason,
                               detail, blockers)];
        bodies := bodies[id := Retired(b).(certificate := AwaitingStop(next),
                                           told := Told(true, Brake, reason, blockers))];
        next := next + 1;
      }
      assert bodies == old(View()).Put(EmitBrake(old(View()).At(id), reason, detail, blockers)).bodies;
    }

    method EmitRejectFor(id: Id, reason: Reason, detail: string, blockers: seq<Id>)
      requires id in bodies
      modifies `bodies, `next, `out, `halted
      ensures View() == old(View()).Put(EmitReject(old(View()).At(id), reason, detail, blockers))
    {
      if halted || next >= UINT32_MAX {
        halted := true;
      } else {
        var b := bodies[id];
        out := out + [Decision(id, b.session, b.generation, Reject, next, NO_ROUTE, 0.0, reason,
                               detail, blockers)];
        bodies := bodies[id := Retired(b).(rejected := true,
                                           told := Told(true, Reject, reason, blockers))];
        next := next + 1;
      }
      assert bodies == old(View()).Put(EmitReject(old(View()).At(id), reason, detail, blockers)).bodies;
    }

    method EmitHoldFor(id: Id, reason: Reason, detail: string, blockers: seq<Id>)
      requires id in bodies
      modifies `bodies, `next, `out, `halted
      ensures View() == old(View()).Put(EmitHold(old(View()).At(id), reason, detail, blockers))
    {
      if !halted {
        var b := bodies[id].(blockers := blockers);
        var told := Told(true, GrantState.Hold, reason, blockers);
        if b.told == told {
          bodies := bodies[id := b];
        } else if next >= UINT32_MAX {
          halted := true;
        } else {
          out := out + [Decision(id, b.session, b.generation, GrantState.Hold, next, NO_ROUTE, 0.0,
                                 reason, detail, blockers)];
          bodies := bodies[id := b.(told := told)];
          next := next + 1;
        }
      }
      assert bodies == old(View()).Put(EmitHold(old(View()).At(id), reason, detail, blockers)).bodies;
    }

    /** The allocation and emitGo of a plan that is reserved from now on. */
    method EmitGoFor(id: Id, p: Plan, b: Body)
      requires id in bodies
      modifies `bodies, `next, `out, `halted
      ensures View() == old(View()).Put(EmitGo(old(View()).At(id), p, b))
    {
      if halted || next >= UINT32_MAX {
        halted := true;
      } else {
        var plan := p.(grantId := next);
        out := out + [Decision(id, b.session, b.generation, Go, next, plan.route, plan.sLimit,
                               NoReason, "", [])];
        bodies := bodies[id := b.(reservation := Reserved(plan, AwaitGoReceipt),
                                  told := Told(true, Go, NoReason, []))];
        next := next + 1;
      }
      assert bodies == old(View()).Put(EmitGo(old(View()).At(id), p, b)).bodies;
    }

    // ---------------------------------------------------------------- synchronisation

    method Request(v: Vehicle, newRequest: bool, isNew: bool)
      requires v.id in bodies
      modifies `bodies, `next, `out, `halted
      ensures View() == old(View()).Put(Requested(old(View()).At(v.id), v, newRequest, isNew))
    {
      var b := bodies[v.id];
      if newRequest && (halted || next >= UINT32_MAX) {
        halted := true;
      } else if newRequest {
        bodies := bodies[v.id := b.(session := v.session, generation := v.generation,
                                    target := v.target, rejected := false,
                                    told := b.told.(emitted := false))];
        EmitBrakeFor(v.id, Replan, "awaiting exact post-zero stopping certificate", []);
      } else if isNew {
        bodies := bodies[v.id := b.(session := v.session, target := v.target)];
      }
      assert bodies == old(View()).Put(Requested(old(View()).At(v.id), v, newRequest, isNew)).bodies;
    }

    method Withdraw(v: Vehicle)
      requires v.id in bodies
      modifies `bodies, `next, `out, `halted
      ensures View() == old(View()).Put(Withdrawn(old(View()).At(v.id), v))
    {
      hide EmitBrake;
      var b := bodies[v.id];
      if b.HasPlan() && (!v.available || !b.Participates()) && !b.IsRetiring() {
        EmitBrakeFor(v.id, Replan, "permission retained until stopping is acknowledged", []);
      }
      assert bodies == old(View()).Put(Withdrawn(old(View()).At(v.id), v)).bodies;
    }

    /** The only place where a reservation ends. */
    method Release(v: Vehicle, newRequest: bool)
      requires v.id in bodies
      modifies `bodies, `next, `out, `halted
      ensures View() == old(View()).Put(Released(kit, old(View()).At(v.id), v, newRequest))
    {
      hide EmitHold;
      if !halted && ExactCertificate(bodies[v.id], v, newRequest) {
        bodies := bodies[v.id := ReleasedBody(kit, bodies[v.id], v)];
        if !bodies[v.id].Participates() {
          EmitHoldFor(v.id, NoReason, "Reset permission retired", []);
        }
      }
      assert bodies == old(View()).Put(Released(kit, old(View()).At(v.id), v, newRequest)).bodies;
    }

    method Receive(v: Vehicle)
      requires v.id in bodies
      modifies `bodies
      ensures View() == old(View()).Put(Received(old(View()).At(v.id), v))
    {
      if !halted && ExactReceipt(bodies[v.id], v) {
        var b := bodies[v.id];
        bodies := bodies[v.id := b.(reservation := b.reservation.(phase := GoReceived))];
      }
      assert bodies == old(View()).Put(Received(old(View()).At(v.id), v)).bodies;
    }

    /** The part of sync that needs a generation, on the body the report has been written to. */
    method SyncAuthority(v: Vehicle, newRequest: bool, isNew: bool)
      requires v.id in bodies
      modifies `bodies, `next, `out, `halted
      ensures var t := Requested(old(View()).At(v.id), v, newRequest, isNew);
              View() == old(View()).Put(SyncRest(kit, t, v, newRequest))
    {
      hide Requested, Withdrawn, Released, Received;
      ghost var st := View();
      Request(v, newRequest, isNew);
      ghost var t := Requested(st.At(v.id), v, newRequest, isNew);
      PutPut(st, t, t);
      if bodies[v.id].generation == 0 { return; }
      Withdraw(v);
      PutPut(st, t, Withdrawn(t, v));
      Release(v, newRequest);
      PutPut(st, Withdrawn(t, v), Released(kit, Withdrawn(t, v), v, newRequest));
      Receive(v);
      PutPut(st, Released(kit, Withdrawn(t, v), v, newRequest), SyncRest(kit, t, v, newRequest));
    }

    /** One report of a vehicle the station already lists. */
    method SyncListed(v: Vehicle, isNew: bool)
      requires Shaped(View()) && v.id in bodies && !halted && (isNew || !Outdated(v, bodies[v.id]))
      modifies `bodies, `next, `out, `halted, `worldChanged, `dirty
      ensures View() == SyncKnown(old(View()), v, isNew)
    {
      hide Anchored, SyncRest, Requested, Outdated, Touches;
      ghost var st := View();
      var was, said := bodies[v.id], |out|;
      var newRequest := NewRequest(was, v);
      var touched := Touches(View(), was, v, isNew);
      bodies := bodies[v.id := Anchored(kit, was, v, isNew)];
      ghost var t := st.At(v.id).(body := Anchored(kit, was, v, isNew));
      SyncAuthority(v, newRequest, isNew);
      PutPut(st, t, SyncBody(kit, st.At(v.id), v, isNew));
      worldChanged := worldChanged || touched;
      dirty := dirty || touched || |out| != said || was.certificate != bodies[v.id].certificate;
    }

    /** One report: outdated ones are dropped, a newcomer is listed first. */
    method SyncAny(v: Vehicle)
      requires Shaped(View()) && Shaped(WithVehicle(View(), v))
      modifies `bodies, `order, `next, `out, `halted, `worldChanged, `dirty
      ensures View() == SyncVehicle(old(View()), v)
    {
      hide Outdated, SyncKnown, Shaped, NewBody;
      if halted { return; }
      var isNew := v.id !in bodies;
      if !isNew && Outdated(v, bodies[v.id]) { return; }
      if isNew {
        bodies := bodies[v.id := NewBody(kit, v)];
        order := InsertId(order, v.id);
      }
      SyncListed(v, isNew);
    }

    /** One report of one vehicle. */
    method SyncOne(v: Vehicle)
      requires Valid()
      modifies `bodies, `order, `next, `out, `halted, `worldChanged, `dirty
      ensures Valid() && View() == SyncVehicle(old(View()), v)
    {
      SyncIsSound(base, View(), v);
      NewcomerIsShaped(base, View(), v);
      hide Sound, SyncVehicle, WithVehicle, Shaped;
      SyncAny(v);
    }

    method SyncVehicles(vs: seq<Vehicle>)
      requires Valid()
      modifies `bodies, `order, `next, `out, `halted, `worldChanged, `dirty
      ensures Valid() && View() == SyncAll(old(View()), vs)
    {
      hide SyncVehicle, PairwiseDisjoint, Speaks, WellFormedBody, GoodWorld, GoodKit, KitShaped;
      for k := 0 to |vs|
        invariant Valid() && View() == SyncAll(old(View()), vs[..k])
      {
        assert vs[..k + 1][..k] == vs[..k];
        SyncOne(vs[k]);
      }
      assert vs[..|vs|] == vs;
    }

    // ---------------------------------------------------------------- movers

    /** The cheapest sample of one variant, from the cursor to the end of its window. */
    method Nearest(b: Body, pts: seq<Sample>, cursor: nat) returns (best: nat)
      ensures best == CursorFor(kit, b, pts, cursor)
    {
      best := cursor;
      var end := WindowEnd(pts, cursor);
      if cursor >= end { return; }
      var m := cursor + 1;
      while m < end
        invariant cursor < m <= end && best == Best(kit, b, pts, cursor, m)
      {
        if kit.cost(b.pose, b.spec.model, pts[m]) < kit.cost(b.pose, b.spec.model, pts[best]) {
          best := m;
        }
        m := m + 1;
      }
    }

    /** advanceCursor, in each sweep variant. */
    method AdvanceCursor(b: Body, p: Plan) returns (cursor: seq<nat>)
      requires |p.cursor| == |p.sets|
      ensures cursor == Cursors(kit, b, p)
    {
      cursor := [];
      for w := 0 to |p.sets|
        invariant |cursor| == w
        invariant forall k :: 0 <= k < w ==> cursor[k] == CursorFor(kit, b, p.sets[k].pts, p.cursor[k])
      {
        var c := Nearest(b, p.sets[w].pts, p.cursor[w]);
        cursor := cursor + [c];
      }
    }

    /** The rear of one reservation follows the vehicle; whether the vehicle has moved on. */
    method AdvanceMover(id: Id) returns (progressed: bool)
      requires id in bodies && bodies[id].ReceivedGo() && !halted
      requires |bodies[id].reservation.plan.cursor| == |bodies[id].reservation.plan.sets|
      modifies `bodies
      ensures View() == old(View()).Put(Advanced(old(View()).At(id),
                          Cursors(kit, old(bodies[id]), old(bodies[id]).reservation.plan)))
      ensures progressed == Progressed(old(bodies[id]))
    {
      hide Progressed;
      var b := bodies[id];
      var cursor := AdvanceCursor(b, b.reservation.plan);
      var plan := b.reservation.plan.(cursor := cursor);
      b := b.(reservation := b.reservation.(plan := plan));
      progressed := Progressed(b);
      ProgressedIgnoresPlan(old(bodies[id]), b);
      bodies := bodies[id := if progressed then b.(progress := b.pose) else b];
      assert bodies == old(View()).Put(Advanced(old(View()).At(id),
                         Cursors(kit, old(bodies[id]), old(bodies[id]).reservation.plan))).bodies;
    }

    /** One body in the turn: only a received Go lets it advance. */
    method AdvanceIfReceived(id: Id) returns (progressed: bool)
      requires Valid()
      modifies `bodies
      ensures Valid() && View() == AdvanceOne(old(View()), id) && SameFleet(old(View()), View())
      ensures progressed == (!halted && Advances(old(View()), id) && Progressed(old(bodies)[id]))
    {
      hide Sound, Advanced, Cursors, Progressed;
      AdvanceOneSound(base, View(), id);
      progressed := false;
      if id in bodies && bodies[id].ReceivedGo() && !halted {
        progressed := AdvanceMover(id);
      } else {
        NothingAdvances(View(), id);
      }
    }

    method AdvanceMovers() returns (advanced: bool)
      requires Valid()
      modifies `bodies
      ensures Valid() && View() == AdvanceAll(old(View()), old(order))
      ensures advanced == AnyProgress(old(View()), old(order))
      ensures SameFleet(old(View()), View())
    {
      hide Sound;
      advanced := false;
      ghost var st := View();
      for k := 0 to |order|
        invariant order == old(order) && Valid() && View() == AdvanceAll(st, order[..k])
        invariant SameFleet(st, View()) && advanced == AnyProgress(st, order[..k])
      {
        hide Valid, AdvanceOne, Progressed;
        assert order[..k + 1][..k] == order[..k];
        var progressed := AdvanceIfReceived(order[k]);
        advanced := advanced || progressed;
      }
      assert order[..|order|] == order;
    }

    // ---------------------------------------------------------------- extension and revocation

    /** updateHi for all variants of a plan. */
    method PrefixesOf(b: Body, p: Plan, limit: real) returns (hi: seq<nat>)
      requires forall w :: 0 <= w < |p.sets| ==> SweepOf(b.shape, p.sets[w])
      ensures PrefixesEnd(p, limit, hi)
    {
      hi := [];
      for w := 0 to |p.sets|
        invariant |hi| == w
        invariant forall k :: 0 <= k < w ==> PrefixEnds(p.sets[k], limit, hi[k])
      {
        var h := UpdateHi(p.sets[w].pts, limit);
        hi := hi + [h];
      }
    }

    /** The verifier's answer about the rest of a reservation, and the prefix that follows. */
    method AskRest(id: Id) returns (turn: Turn)
      requires Valid() && id in bodies && bodies[id].HasPlan()
      ensures Enabled(View(), Extend(id, turn.answer, turn.hi))
    {
      hide PairwiseDisjoint, Speaks, NaiveAnswer, Blames, PrefixEnds, GoodKit, KitShaped, GoodWorld;
      var b := bodies[id];
      var p := b.reservation.plan;
      assert WellFormedBody(b);
      RestIsWellFormed(View(), id);
      var answer := SweepVerifier.FirstViolation(
        Query(cfg, world, bodies, order, id, b.shape, b.delta, p.certs), p.sets, p.cursor);
      var hi := PrefixesOf(b, p, NewLimit(cfg, p, answer));
      turn := Turn(answer, hi);
    }

    /** One body in the extension turn. */
    method ExtendMover(id: Id) returns (ghost turn: Turn)
      requires Valid() && id in bodies
      modifies `bodies, `next, `out, `halted
      ensures Enabled(old(View()), Extend(id, turn.answer, turn.hi))
      ensures View() == ExtendTurn(old(View()), id, turn)
    {
      ValidIsInv(base, View());
      hide Sound, StationInv, EmitBrake, EmitGo;
      var b := bodies[id];
      turn := Turn(Violation(false, false, Unbounded, None), []);
      if !Asks(b, worldChanged) {
        QuietTurn(View(), id, turn);
        return;
      }
      var asked := AskRest(id);
      turn := asked;
      hide Enabled;
      var answer := asked.answer;
      var blockers := Blockers(answer);
      if Revokes(b, worldChanged, answer) {
        if answer.world {
          EmitBrakeFor(id, SceneChanged, "the scene changed under the route", blockers);
        } else {
          EmitBrakeFor(id, Replan, "the rest of the route is blocked", blockers);
        }
      } else if Extends(cfg, b, worldChanged, answer) {
        var limit := NewLimit(cfg, b.reservation.plan, answer);
        EmitGoFor(id, b.reservation.plan.(sLimit := limit, hi := asked.hi), b);
      } else if Waits(cfg, b, worldChanged, answer) && !halted {
        bodies := bodies[id := b.(blockers := blockers)];
      }
      assert bodies == ExtendTurn(old(View()), id, turn).bodies;
    }

    method ExtendMovers() returns (ghost turns: seq<Turn>)
      requires Valid()
      modifies `bodies, `next, `out, `halted
      ensures Valid() && |turns| == |order| && TurnsRight(old(View()), order, turns)
      ensures View() == ExtendAll(old(View()), order, turns) && SameFleet(old(View()), View())
    {
      ghost var st := View();
      ListsItsBodies(base, st);
      hide Sound, Enabled, TurnsRight, ExtendTurn;
      turns := [];
      NoExtensions(st);
      for k := 0 to |order|
        invariant |turns| == k && Valid() && SameFleet(st, View())
        invariant TurnsRight(st, order[..k], turns) && View() == ExtendAll(st, order[..k], turns)
      {
        assert order[k] in st.bodies.Keys;
        ghost var was := View();
        ghost var turn := ExtendMover(order[k]);
        ExtendTurnSound(base, was, order[k], turn);
        TurnsRightMore(st, order, k, turns, turn, was);
        turns := turns + [turn];
        hide ExtendAll;
      }
      assert order[..|order|] == order;
    }

    method RejectIfStalled(id: Id)
      modifies `bodies, `next, `out, `halted
      ensures View() == StallOne(old(View()), id)
    {
      hide EmitReject;
      if id in bodies && Stalls(bodies[id]) {
        EmitRejectFor(id, Stalled, STALLED, bodies[id].blockers);
      }
    }

    /** The stall check: whoever waits with a reservation is refused. */
    method RejectStalled()
      requires Valid()
      modifies `bodies, `next, `out, `halted
      ensures Valid() && View() == StallAll(old(View()), order) && SameFleet(old(View()), View())
    {
      hide Sound, StallOne;
      ghost var st := View();
      for k := 0 to |order|
        invariant Valid() && View() == StallAll(st, order[..k]) && SameFleet(st, View())
      {
        assert order[..k + 1][..k] == order[..k];
        StallOneSound(base, View(), order[k]);
        RejectIfStalled(order[k]);
      }
      assert order[..|order|] == order;
    }

    method HasAnyPlan() returns (any: bool)
      requires Valid()
      ensures any == AnyPlan(View())
    {
      ListsItsBodies(base, View());
      ListsAllBodies(base, View());
      hide Sound;
      any := false;
      for k := 0 to |order|
        invariant any == exists j :: 0 <= j < k && bodies[order[j]].HasPlan()
      {
        any := any || bodies[order[k]].HasPlan();
      }
    }

    method ExtensionAndStall() returns (ghost turns: seq<Turn>)
      requires Valid()
      modifies `bodies, `next, `out, `halted, `worldChanged, `dirty, `fleetProgress
      ensures Valid() && SameFleet(old(View()), View())
      ensures |turns| == |order| && TurnsRight(old(View()), order, turns)
      ensures View() == ExtensionTurn(old(View()), now, old(fleetProgress), turns)
      ensures fleetProgress == ProgressAfter(old(View()), now, old(fleetProgress), turns)
    {
      hide Sound, TurnsRight, ExtendAll, StallAll;
      turns := ExtendMovers();
      FlagsAreSound(base, View(), false, dirty);
      worldChanged := false;
      var any := HasAnyPlan();
      if any && now - fleetProgress > cfg.stall {
        RejectStalled();
        FlagsAreSound(base, View(), worldChanged, true);
        fleetProgress := now;
        dirty := true;
      }
    }

    /** The cursors; whether somebody moved on decides about the stall clock. */
    method AdvanceAndNote()
      requires Valid()
      modifies `bodies, `fleetProgress
      ensures Valid() && View() == AdvanceAll(old(View()), order) && SameFleet(old(View()), View())
      ensures fleetProgress == ProgressAt(old(View()), old(Time()))
    {
      hide Sound, AdvanceAll, AnyProgress;
      AdvancingKeepsPlans(View(), order);
      var advanced := AdvanceMovers();
      var anyMover := HasAnyPlan();
      if advanced || !anyMover { fleetProgress := now; }
    }

    /** updateMovers. The extension turn runs at its own period; the stall check belongs to it. */
    method UpdateMovers() returns (ghost turns: seq<Turn>)
      requires Valid()
      modifies `bodies, `next, `out, `halted, `worldChanged, `dirty, `lastExtension, `fleetProgress
      ensures Valid() && SameFleet(old(View()), View())
      ensures AdvanceAll(old(View()), order).order == order
      ensures ExtensionDue(cfg, old(Time())) ==>
                |turns| == |order| && TurnsRight(AdvanceAll(old(View()), order), order, turns)
      ensures View() == MoversTurn(old(View()), old(Time()), turns)
      ensures Time() == MoversClock(old(View()), old(Time()), turns)
    {
      hide Sound, TurnsRight, AdvanceAll, ExtensionTurn, ProgressAfter, ProgressAt;
      turns := [];
      AdvanceAndNote();
      if now - lastExtension >= cfg.extensionPeriod {
        lastExtension := now;
        turns := ExtensionAndStall();
      }
    }

    // ---------------------------------------------------------------- brakes and admission

    method BrakeIfMoving(id: Id)
      modifies `bodies, `next, `out, `halted
      ensures View() == BrakeOne(old(View()), id)
    {
      hide EmitBrake;
      if id in bodies && bodies[id].HasPlan() && !bodies[id].IsRetiring() {
        EmitBrakeFor(id, SceneUnavailable, "new admissions unavailable", []);
      }
    }

    /** Without admission every issued permission is braked; its reservation is retained. */
    method BrakeMovers()
      requires Valid()
      modifies `bodies, `next, `out, `halted
      ensures Valid() && View() == BrakeAll(old(View()), order) && SameFleet(old(View()), View())
    {
      hide Sound, BrakeOne;
      ghost var st := View();
      for k := 0 to |order|
        invariant Valid() && View() == BrakeAll(st, order[..k]) && SameFleet(st, View())
      {
        assert order[..k + 1][..k] == order[..k];
        BrakeOneSound(base, View(), order[k]);
        BrakeIfMoving(order[k]);
      }
      assert order[..|order|] == order;
    }

    /** planRoute's sweeps: one for each rotation centre the vehicle may have. */
    method MakeSets(b: Body, c: Choice) returns (sets: seq<SampleSet>, total: real)
      requires RouteModel.GoodGauge(kit.gauge) && WellFormed(b.shape)
      ensures sets == SetsFor(kit, b, c) && total == TotalOf(sets, |sets|)
    {
      hide RouteModel.MadeSweep, RouteModel.GoodGauge;
      var ells := Ells(b.spec.model, c);
      sets, total := [], 0.0;
      for w := 0 to |ells|
        invariant |sets| == w && total == TotalOf(sets, w)
        invariant forall k :: 0 <= k < w ==>
                    sets[k] == RouteModel.MadeSweep(kit.gauge, b.shape, b.spec.model, RouteFor(b, c), ells[k])
      {
        ghost var was := sets;
        var made := RouteSweeps.MakeSet(kit.gauge, b.shape, b.spec.model, RouteFor(b, c), ells[w]);
        sets := sets + [made];
        TotalSame(was, sets, w);
        total := Max(total, if made.pts == [] then 0.0 else made.pts[|made.pts| - 1].s);
      }
      assert sets == SetsFor(kit, b, c);
    }

    /** planRoute's certificates: one for each parked body the route starts too close to, with the first
        sample of each variant that is clear of it. */
    method MakeCerts(id: Id, sets: seq<SampleSet>, contacts: seq<Contact>)
      returns (certs: seq<EscapeCert>)
      requires Valid() && Shaped(View()) && id in bodies
      requires forall k :: 0 <= k < |contacts| ==> ViableContact(View(), id, contacts[k])
      ensures certs == CertsFor(View(), id, sets, contacts)
    {
      hide Valid, Shaped, CertFor, KitShaped, GoodKit;
      certs := [];
      for n := 0 to |contacts|
        invariant certs == CertsFor(View(), id, sets, contacts[..n])
      {
        assert contacts[..n + 1][..n] == contacts[..n];
        assert ViableContact(View(), id, contacts[n]);
        ShapesOf(View(), id, contacts[n].peer);
        var b, peer := bodies[id], bodies[contacts[n].peer];
        var cert := MakeCert(b, peer, cfg.pairMargin + b.delta, sets, contacts[n]);
        certs := certs + [cert];
      }
      assert contacts[..|contacts|] == contacts;
    }

    /** planRoute, for one choice of the route. */
    method MakePlan(id: Id, c: Choice) returns (p: Plan)
      requires Valid() && Shaped(View()) && id in bodies && Viable(View(), id, c)
      ensures p == PlanFor(View(), id, c)
    {
      hide Valid, Shaped, SetsFor, KitShaped, CertsFor, ViableContact;
      ShapesOf(View(), id, id);
      var b := bodies[id];
      var sets, total := MakeSets(b, c);
      var certs := MakeCerts(id, sets, c.contacts);
      p := Plan(0, 0, RouteFor(b, c), sets, [], [], 0.0, total, 0, certs);
    }

    /** The verifier's answer about a candidate from its start, and the prefix that follows. */
    method AskCandidate(id: Id, c: Choice) returns (turn: Turn, p: Plan)
      requires Valid() && Tries(View(), TryMove(id, c))
      ensures MoveRight(View(), TryMove(id, c), turn) && p == Candidate(View(), TryMove(id, c))
    {
      ValidIsInv(base, View());
      CandidateIsGood(View(), TryMove(id, c));
      hide Sound, StationInv, NaiveAnswer, Blames, PrefixEnds, GoodCandidate, PlanFor, Shaped, Viable;
      var b := bodies[id];
      p := MakePlan(id, c);
      CandidateIsWellFormed(View(), id, p);
      var answer := SweepVerifier.FirstViolation(
        Query(cfg, world, bodies, order, id, b.shape, b.delta, p.certs), p.sets, Zeros(|p.sets|));
      var hi := PrefixesOf(b, p, Limit(cfg, answer.s));
      turn := Turn(answer, hi);
    }

    /** installPlan and emitGo: three routes in one session at most. */
    method InstallRoute(id: Id, p: Plan, hi: seq<nat>)
      requires id in bodies
      modifies `bodies, `next, `out, `halted
      ensures View() == old(View()).Put(InstallPlan(old(View()).At(id), p, hi))
    {
      hide EmitReject, EmitGo;
      var b := bodies[id];
      if b.grants >= 3 {
        EmitRejectFor(id, Reason.NoRoute, "Reset replan budget exhausted", []);
      } else {
        EmitGoFor(id, Started(b, p, hi),
                  b.(blockers := [], progress := b.pose, grants := b.grants + 1));
      }
    }

    /** planRoute's verdict on a candidate. */
    method TryRoute(id: Id, c: Choice) returns (ghost turn: Turn)
      requires Valid() && Tries(View(), TryMove(id, c))
      modifies `bodies, `next, `out, `halted
      ensures MoveRight(old(View()), TryMove(id, c), turn)
      ensures View() == AdmitOne(old(View()), TryMove(id, c), turn)
    {
      var asked, p := AskCandidate(id, c);
      turn := asked;
      hide Sound, MoveRight, InstallPlan, PlanFor, Shaped, Viable;
      if !asked.answer.hard && !TooShort(cfg, asked.answer.s) {
        InstallRoute(id, p.(sLimit := Limit(cfg, asked.answer.s)), asked.hi);
      }
    }

    method Decide(move: Move) returns (ghost turn: Turn)
      requires Valid()
      modifies `bodies, `next, `out, `halted
      ensures MoveRight(old(View()), move, turn) && View() == AdmitOne(old(View()), move, turn)
    {
      ValidIsInv(base, View());
      hide EmitHold, EmitReject, InstallPlan, Sound, StationInv, AnswerRight, PlanFor, Shaped, Viable;
      turn := Turn(Violation(false, false, Unbounded, None), []);
      match move
      case TryMove(id, c) =>
        if id in bodies && bodies[id].MayBeGranted() && Viable(View(), id, c) { turn := TryRoute(id, c); }
      case HoldMove(id, reason, detail, blockers) =>
        if id in bodies && !bodies[id].HasPlan() { EmitHoldFor(id, reason, detail, blockers); }
      case RejectMove(id, reason, detail, blockers) =>
        if id in bodies && !bodies[id].HasPlan() { EmitRejectFor(id, reason, detail, blockers); }
    }

    /** A round of admission, parking and deadlock report: any decisions, in any order. */
    method Admit(moves: seq<Move>) returns (ghost turns: seq<Turn>)
      requires Valid()
      modifies `bodies, `next, `out, `halted
      ensures Valid() && SameFleet(old(View()), View())
      ensures |turns| == |moves| && MovesRight(old(View()), moves, turns)
      ensures View() == AdmitAll(old(View()), moves, turns)
    {
      hide Sound, MoveRight, MovesRight, AdmitOne, StationInv;
      turns := [];
      ghost var st := View();
      EmptyRound(st);
      for k := 0 to |moves|
        invariant |turns| == k && Valid() && SameFleet(st, View())
        invariant MovesRight(st, moves[..k], turns) && View() == AdmitAll(st, moves[..k], turns)
      {
        ghost var was := View();
        ghost var turn := Decide(moves[k]);
        ValidIsInv(base, was);
        AdmitOneSound(base, was, moves[k], turn);
        MovesRightMore(st, moves, k, turns, turn, was);
        turns := turns + [turn];
        hide AdmitAll;
      }
      assert moves[..|moves|] == moves;
    }

    method HasAnyWaiting() returns (any: bool)
      requires Valid()
      ensures any == AnyWaiting(View())
    {
      ListsItsBodies(base, View());
      ListsAllBodies(base, View());
      hide Sound, AwaitsRoute;
      any := false;
      for k := 0 to |order|
        invariant any == exists j :: 0 <= j < k && AwaitsRoute(bodies[order[j]])
      {
        any := any || AwaitsRoute(bodies[order[k]]);
      }
    }

    /** The second half of step: the admission round, when there is one. */
    method AdmitIfDue(moves: seq<Move>) returns (ghost turns: seq<Turn>)
      requires Valid()
      modifies `bodies, `next, `out, `halted, `dirty, `lastReplan
      ensures Valid() && SameFleet(old(View()), View()) && |turns| == |moves|
      ensures Admission(old(View()), old(Time())) ==>
                MovesRight(old(View()).(dirty := false), moves, turns)
      ensures View() == AdmissionTurn(old(View()), old(Time()), moves, turns)
      ensures lastReplan == if Admission(old(View()), old(Time())) then now else old(lastReplan)
    {
      hide Sound, MovesRight, AdmitAll, AnyWaiting;
      turns := seq(|moves|, _ => Turn(Violation(false, false, Unbounded, None), []));
      if !dirty && !(now - lastReplan >= cfg.replanPeriod) { return; }
      FlagsAreSound(base, View(), worldChanged, false);
      var waiting := HasAnyWaiting();
      dirty := false;
      if !waiting { return; }
      lastReplan := now;
      turns := Admit(moves);
    }

    // ---------------------------------------------------------------- the step

    method Step(admit: bool, moves: seq<Move>) returns (ghost answers: Answers)
      requires Valid()
      modifies `bodies, `next, `out, `halted, `worldChanged, `dirty, `lastReplan, `lastExtension,
               `fleetProgress
      ensures Valid() && Fits(old(View()), old(Time()), admit, moves, answers)
      ensures View() == StepTurn(old(View()), old(Time()), admit, moves, answers)
      ensures AnswersRight(old(View()), old(Time()), admit, moves, answers)
    {
      hide Sound, TurnsRight, MovesRight, AdvanceAll, BrakeAll, MoversTurn, AdmissionTurn, MoversClock;
      if !admit { BrakeMovers(); }
      ghost var movers := UpdateMovers();
      answers := Answers(movers, seq(|moves|, _ => Turn(Violation(false, false, Unbounded, None), [])));
      if !admit { return; }
      ghost var turns := AdmitIfDue(moves);
      answers := Answers(movers, turns);
    }

    method Flush(time: real)
      requires Valid()
      modifies `out, `now, `base
      ensures Valid() && base == View() == old(View()).(out := []) && Time() == old(Time()).(now := time)
      ensures Shaped(base)
    {
      FlushIsSound(base, View());
      now := time;
      out := [];
      base := View();
      BaseIsShaped(base);
      hide Sound, Shaped;
    }

    method SyncAndStep(vehicles: seq<Vehicle>, admit: bool, moves: seq<Move>)
      returns (ghost answers: Answers)
      requires Valid() && Shaped(View()) && View() == base && out == []
      modifies `bodies, `order, `next, `out, `halted, `worldChanged, `dirty, `lastReplan,
               `lastExtension, `fleetProgress
      ensures Valid() && Fits(SyncAll(base, vehicles), old(Time()), admit, moves, answers)
      ensures View() == StepTurn(SyncAll(base, vehicles), old(Time()), admit, moves, answers)
      ensures AnswersRight(SyncAll(base, vehicles), old(Time()), admit, moves, answers)
      ensures !admit ==> GoFree(out) && Still(View())
    {
      hide Sound, SyncAll, StepTurn, Fits, Shaped, GoFree, AnswersRight, Still, StationInv;
      SyncAllSound(base, base, vehicles);
      NothingIsGoFree();
      SyncVehicles(vehicles);
      ghost var st := View();
      answers := Step(admit, moves);
      if !admit { NoGoWithoutAdmission(base, st, old(Time()), moves, answers); }
    }

    /** update: the decisions of one planning step. */
    method Update(time: real, vehicles: seq<Vehicle>, admit: bool, moves: seq<Move>)
      returns (decisions: seq<Decision>, ghost answers: Answers)
      requires Valid()
      modifies this
      ensures Valid() && base == old(View()).(out := []) && decisions == out && now == time
      ensures Shaped(base)
      ensures Fits(SyncAll(base, vehicles), old(Time()).(now := time), admit, moves, answers)
      ensures View() == StepTurn(SyncAll(base, vehicles), old(Time()).(now := time), admit, moves, answers)
      ensures AnswersRight(SyncAll(base, vehicles), old(Time()).(now := time), admit, moves, answers)
      ensures !admit ==> GoFree(decisions) && Still(View())
    {
      hide Sound, SyncAll, StepTurn, Fits, Shaped, GoFree, AnswersRight, Still;
      Flush(time);
      answers := SyncAndStep(vehicles, admit, moves);
      decisions := out;
    }
  }

  lemma NoExtensions(st: Station)
    ensures TurnsRight(st, [], []) && ExtendAll(st, [], []) == st
  {
  }

  lemma NothingIsGoFree()
    ensures GoFree([])
  {
  }

  lemma EmptyRound(st: Station)
    ensures MovesRight(st, [], []) && AdmitAll(st, [], []) == st
  {
  }

  lemma ValidIsInv(base: Station, st: Station)
    requires Sound(base, st)
    ensures StationInv(st) && Shaped(st)
  {
    hide Shaped, PairwiseDisjoint;
  }

  lemma ShapesOf(st: Station, id: Id, peer: Id)
    requires Shaped(st) && id in st.bodies && peer in st.bodies
    ensures WellFormed(st.bodies[id].shape) && WellFormed(st.bodies[peer].shape)
    ensures RouteModel.GoodGauge(st.kit.gauge)
  {
    assert KitShaped(st.kit, st.bodies[id]) && KitShaped(st.kit, st.bodies[peer]);
    hide Swept;
  }

  lemma {:induction false} TotalSame(sets: seq<SampleSet>, more: seq<SampleSet>, n: nat)
    requires n <= |sets| && sets <= more
    ensures TotalOf(sets, n) == TotalOf(more, n)
  {
    if n > 0 { TotalSame(sets, more, n - 1); }
  }

  /** The search for the first sample that is clear of a parked peer. */
  method FindClear(shape: Shape, sweep: SampleSet, peer: Shape, at: Sample, m: real)
    returns (r: Option<nat>)
    ensures r == FirstClear(shape, sweep, peer, at, m, 0)
  {
    hide SampleClear;
    for i := 0 to |sweep.pts|
      invariant FirstClear(shape, sweep, peer, at, m, 0) == FirstClear(shape, sweep, peer, at, m, i)
    {
      if SampleClear(shape, sweep.pts[i], peer, at, m) { return Some(i); }
    }
    r := None;
  }

  method MakeCert(b: Body, peer: Body, margin: real, sets: seq<SampleSet>, c: Contact)
    returns (cert: EscapeCert)
    requires WellFormed(b.shape) && WellFormed(peer.shape)
    ensures cert == CertFor(b, peer, margin, sets, c)
  {
    hide CertOf, FirstClear;
    var escapedAt := [];
    for w := 0 to |sets|
      invariant |escapedAt| == w
      invariant forall k :: 0 <= k < w ==>
                  escapedAt[k] == FirstClear(b.shape, sets[k], peer.shape, peer.At(), margin, 0)
    {
      var e := FindClear(b.shape, sets[w], peer.shape, peer.At(), margin);
      escapedAt := escapedAt + [e];
    }
    cert := CertOf(c, b.shape, b.hx, b.hy, peer.pose, Placed(peer.shape, peer.At())).(escapedAt := escapedAt);
    assert escapedAt == CertFor(b, peer, margin, sets, c).escapedAt;
  }

  function StaticsOf(obstacles: seq<(Id, seq<Point>)>): seq<StaticPoly> {
    if obstacles == [] then []
    else
      var o := obstacles[|obstacles| - 1];
      StaticsOf(obstacles[..|obstacles| - 1])
      + if |o.1| >= 3 then [StaticPoly(o.0, o.1, BoxOf(o.1))] else []
  }

  lemma {:induction false} StaticsAreGood(obstacles: seq<(Id, seq<Point>)>)
    ensures forall fence :: GoodWorld(World(StaticsOf(obstacles), fence))
  {
    if obstacles != [] {
      StaticsAreGood(obstacles[..|obstacles| - 1]);
      assert GoodWorld(World(StaticsOf(obstacles[..|obstacles| - 1]), Fence(false, 0.0, 0.0, 0.0, 0.0)));
    }
  }

  lemma NewcomerIsShaped(base: Station, st: Station, v: Vehicle)
    requires Sound(base, st)
    ensures Shaped(st) && Shaped(WithVehicle(st, v))
  {
    hide PairwiseDisjoint, Speaks, WellFormedBody, GoodWorld, GoodKit;
  }

  lemma AllocateIsSound(base: Station, st: Station)
    requires Sound(base, st)
    ensures Sound(base, Do(st, Allocate))
    ensures Do(st, Allocate) == if st.next >= UINT32_MAX then st.(halted := true)
                                else st.(next := st.next + 1)
  {
    hide StationInv, PairwiseDisjoint, Speaks;
    ActIsSound(base, st, Allocate);
  }

  lemma RestIsWellFormed(st: Station, id: Id)
    requires StationInv(st) && id in st.bodies && st.bodies[id].HasPlan()
    ensures var p := st.bodies[id].reservation.plan;
            WellFormedSweeps(st.Ask(id, p.certs), p.sets, p.cursor)
  {
    hide SweepOf, PrefixEnds;
    assert WellFormedBody(st.bodies[id]);
  }

  lemma ProgressedIgnoresPlan(b: Body, c: Body)
    requires c.pose == b.pose && c.progress == b.progress
    ensures Progressed(b) == Progressed(c)
  {
  }

  lemma NothingAdvances(st: Station, id: Id)
    requires !(id in st.bodies && st.bodies[id].ReceivedGo()) || st.halted
    ensures AdvanceOne(st, id) == st
  {
    if id in st.bodies { assert st.Put(st.At(id)) == st; }
  }

  lemma QuietTurn(st: Station, id: Id, turn: Turn)
    requires StationInv(st) && id in st.bodies && !Asks(st.bodies[id], st.worldChanged)
    ensures Enabled(st, Extend(id, turn.answer, turn.hi)) && ExtendTurn(st, id, turn) == st
  {
    hide StationInv, EmitBrake;
    assert st.Put(st.At(id)) == st;
  }

  lemma ListsItsBodies(base: Station, st: Station)
    requires Sound(base, st)
    ensures forall k :: 0 <= k < |st.order| ==> st.order[k] in st.bodies.Keys
  {
    hide PairwiseDisjoint, Speaks, WellFormedBody, GoodKit, KitShaped;
  }

  lemma TurnsRightMore(st: Station, ids: seq<Id>, k: nat, turns: seq<Turn>, turn: Turn, mid: Station)
    requires k < |ids| && |turns| == k && TurnsRight(st, ids[..k], turns)
    requires mid == ExtendAll(st, ids[..k], turns) && StationInv(mid)
    requires Enabled(mid, Extend(ids[k], turn.answer, turn.hi))
    ensures TurnsRight(st, ids[..k + 1], turns + [turn])
    ensures ExtendAll(st, ids[..k + 1], turns + [turn]) == ExtendTurn(mid, ids[k], turn)
  {
    hide StationInv, Enabled, ExtendTurn;
    assert ids[..k + 1][..k] == ids[..k] && (turns + [turn])[..k] == turns;
  }

  lemma ListsAllBodies(base: Station, st: Station)
    requires Sound(base, st)
    ensures forall id :: id in st.bodies ==> id in st.order
  {
    hide PairwiseDisjoint, Speaks, WellFormedBody, GoodKit, KitShaped;
  }

  lemma FlagsAreSound(base: Station, st: Station, worldChanged: bool, dirty: bool)
    requires Sound(base, st)
    ensures Sound(base, st.(worldChanged := worldChanged, dirty := dirty))
  {
    hide PairwiseDisjoint, Speaks, StationInv;
    ActIsSound(base, st, Flags(worldChanged, dirty));
  }

  /** Moving cursors gives and takes no plan. */
  lemma {:induction false} AdvancingKeepsPlans(st: Station, ids: seq<Id>)
    ensures AnyPlan(AdvanceAll(st, ids)) == AnyPlan(st)
    ensures AdvanceAll(st, ids).bodies.Keys == st.bodies.Keys
  {
    if ids != [] {
      AdvancingKeepsPlans(st, ids[..|ids| - 1]);
      AdvancingOneKeepsPlans(AdvanceAll(st, ids[..|ids| - 1]), ids[|ids| - 1]);
    }
  }

  lemma AdvancingOneKeepsPlans(st: Station, id: Id)
    ensures AnyPlan(AdvanceOne(st, id)) == AnyPlan(st)
    ensures AdvanceOne(st, id).bodies.Keys == st.bodies.Keys
  {
    hide Progressed, Cursors;
    var st' := AdvanceOne(st, id);
    assert forall o :: o in st.bodies ==> o in st'.bodies && st'.bodies[o].HasPlan() == st.bodies[o].HasPlan();
  }

  lemma CandidateIsWellFormed(st: Station, id: Id, p: Plan)
    requires StationInv(st) && id in st.bodies && GoodCandidate(st.kit, st.bodies[id], p)
    ensures WellFormedSweeps(st.Ask(id, p.certs), p.sets, Zeros(|p.sets|))
  {
    hide SweepOf, PrefixEnds;
    assert WellFormedBody(st.bodies[id]);
  }

  lemma MovesRightMore(st: Station, moves: seq<Move>, k: nat, turns: seq<Turn>, turn: Turn,
                       mid: Station)
    requires k < |moves| && |turns| == k && MovesRight(st, moves[..k], turns)
    requires mid == AdmitAll(st, moves[..k], turns) && StationInv(mid) && MoveRight(mid, moves[k], turn)
    ensures MovesRight(st, moves[..k + 1], turns + [turn])
    ensures AdmitAll(st, moves[..k + 1], turns + [turn]) == AdmitOne(mid, moves[k], turn)
  {
    hide StationInv, MoveRight, AdmitOne;
    assert moves[..k + 1][..k] == moves[..k] && (turns + [turn])[..k] == turns;
  }

  lemma BaseIsShaped(st: Station)
    requires Sound(st, st)
    ensures Shaped(st)
  {
    hide PairwiseDisjoint, WellFormedBody, GoodWorld;
  }
}
