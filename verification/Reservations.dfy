/** The allocator's central invariant: two reservations never come closer than the pair margin and
    both sampling errors, whatever the planner does, in any order. */
module Reservations {
  import opened ResetProtocol
  import opened Geometry
  import opened Bodies
  import opened Sweep
  import opened PlannerModel
  import RouteModel

  /** Everything the planner can do to its bodies. Which candidate is tried, in which order, and who
      is told to wait is the business of admission and does not matter here. */
  datatype Act =
    | Sync(v: Vehicle)
    | Advance(id: Id, cursor: seq<nat>)
    | Brakes(id: Id, reason: Reason, detail: string, blockers: seq<Id>)
    | Rejects(id: Id, reason: Reason, detail: string, blockers: seq<Id>)
    | Holds(id: Id, reason: Reason, detail: string, blockers: seq<Id>)
    | Install(id: Id, plan: Plan, s: Reach, hi: seq<nat>)
    | Extend(id: Id, answer: Violation, hi: seq<nat>)
    | SetWorld(world: World)
    | Allocate
    | Flags(worldChanged: bool, dirty: bool)
    | Flush

  ghost predicate PrefixesEnd(p: Plan, limit: real, hi: seq<nat>) {
    |hi| == |p.sets| && forall w :: 0 <= w < |p.sets| ==> PrefixEnds(p.sets[w], limit, hi[w])
  }

  /** A candidate that passed the verifier, with the prefix the verifier left free. */
  ghost predicate Verified(st: Station, id: Id, p: Plan, s: Reach)
    requires StationInv(st) && id in st.bodies && GoodCandidate(st.kit, st.bodies[id], p)
  {
    && NaiveAnswer(st.Ask(id, p.certs), p.sets, Zeros(|p.sets|), false, s)
    && (s.At? ==> s.s - st.cfg.holdMargin >= st.cfg.minPrefix)
    && p.sLimit == Limit(st.cfg, s)
  }

  /** The verifier's answer about the rest of a reservation. */
  ghost predicate Answered(st: Station, id: Id, answer: Violation)
    requires StationInv(st) && id in st.bodies && st.bodies[id].HasPlan()
  {
    var p := st.bodies[id].reservation.plan;
    NaiveAnswer(st.Ask(id, p.certs), p.sets, p.cursor, answer.hard, answer.s)
  }

  /** The cursor search looks ahead only, not beyond its window or the sweep. */
  ghost predicate Ahead(p: Plan, cursor: seq<nat>) {
    && |cursor| == |p.cursor|
    && forall w :: 0 <= w < |p.cursor| && w < |p.sets| ==>
         p.cursor[w] <= cursor[w]
         && (cursor[w] == p.cursor[w]
             || (cursor[w] < |p.sets[w].pts| && cursor[w] < p.cursor[w] + K_WINDOW))
  }

  ghost predicate Enabled(st: Station, act: Act)
    requires StationInv(st)
  {
    match act
    case Sync(_) => true
    case Advance(id, cursor) =>
      id in st.bodies && st.bodies[id].ReceivedGo() && Ahead(st.bodies[id].reservation.plan, cursor)
    case Brakes(id, _, _, _) =>
      id in st.bodies && st.bodies[id].HasPlan() && !st.bodies[id].IsRetiring()
    case Rejects(id, _, _, _) => id in st.bodies && !st.bodies[id].IsRetiring()
    case Holds(id, _, _, _) => id in st.bodies && !st.bodies[id].HasPlan()
    case Install(id, p, s, hi) =>
      && id in st.bodies && st.bodies[id].MayBeGranted() && GoodCandidate(st.kit, st.bodies[id], p)
      && Verified(st, id, p, s) && PrefixesEnd(p, p.sLimit, hi)
    case Extend(id, answer, hi) =>
      && id in st.bodies
      && (Asks(st.bodies[id], st.worldChanged) ==> Answered(st, id, answer))
      && (Extends(st.cfg, st.bodies[id], st.worldChanged, answer) ==>
            var p := st.bodies[id].reservation.plan;
            PrefixesEnd(p, NewLimit(st.cfg, p, answer), hi))
    case SetWorld(world) => GoodWorld(world)
    case _ => true
  }

  function Do(st: Station, act: Act): Station
    requires Shaped(st)
    requires match act
             case Sync(_) => true
             case Advance(id, _) => id in st.bodies
             case Brakes(id, _, _, _) => id in st.bodies
             case Rejects(id, _, _, _) => id in st.bodies
             case Holds(id, _, _, _) => id in st.bodies
             case Install(id, _, _, _) => id in st.bodies
             case Extend(id, _, _) => id in st.bodies
             case _ => true
  {
    match act
    case Sync(v) => SyncVehicle(st, v)
    case Advance(id, cursor) => st.Put(Advanced(st.At(id), cursor))
    case Brakes(id, reason, detail, blockers) =>
      st.Put(EmitBrake(st.At(id), reason, detail, blockers))
    case Rejects(id, reason, detail, blockers) =>
      st.Put(EmitReject(st.At(id), reason, detail, blockers))
    case Holds(id, reason, detail, blockers) =>
      st.Put(EmitHold(st.At(id), reason, detail, blockers))
    case Install(id, p, _, hi) => st.Put(InstallPlan(st.At(id), p, hi))
    case Extend(id, answer, hi) => st.Put(ExtendOne(st.cfg, st.At(id), st.worldChanged, answer, hi))
    case SetWorld(world) => st.(world := world, worldChanged := true, dirty := true)
    case Allocate => if st.next >= UINT32_MAX then st.(halted := true) else st.(next := st.next + 1)
    case Flags(worldChanged, dirty) => st.(worldChanged := worldChanged, dirty := dirty)
    case Flush => st.(out := [])
  }

  // ---------------------------------------------------------------- the invariant

  ghost predicate GoodWorld(world: World) {
    forall k :: 0 <= k < |world.statics| ==>
      |world.statics[k].verts| > 0 && world.statics[k].box == BoxOf(world.statics[k].verts)
  }

  /** Held for the vehicle: from the cursor to the end of the granted prefix. (The cursor may pass
      that end; then nothing is held any more.) */
  ghost predicate Held(p: Plan, w: nat, i: nat) {
    && w < |p.sets| && w < |p.cursor| && w < |p.hi|
    && p.cursor[w] <= i < p.hi[w] && i < |p.sets[w].pts|
  }

  ghost predicate SweepsDisjoint(cfg: PlannerConfig, a: Body, b: Body)
    requires a.HasPlan() && b.HasPlan()
  {
    var p, q := a.reservation.plan, b.reservation.plan;
    forall v: nat, i: nat, w: nat, j: nat :: Held(p, v, i) && Held(q, w, j) ==>
      SampleClear(a.shape, p.sets[v].pts[i], b.shape, q.sets[w].pts[j],
                  cfg.pairMargin + a.delta + b.delta)
  }

  ghost predicate PairwiseDisjoint(st: Station) {
    forall a, b :: a in st.bodies && b in st.bodies && a != b
                   && st.bodies[a].HasPlan() && st.bodies[b].HasPlan()
      ==> SweepsDisjoint(st.cfg, st.bodies[a], st.bodies[b])
  }

  ghost predicate StationInv(st: Station) {
    && Shaped(st) && GoodWorld(st.world)
    && (forall o :: o in st.bodies <==> o in st.order)
    && (forall o :: o in st.bodies ==> WellFormedBody(st.bodies[o]))
  }

  // ---------------------------------------------------------------- one body changes

  /** No more is held than before, by the same footprint. */
  ghost predicate Narrows(b: Body, c: Body) {
    c.HasPlan() ==>
      && b.HasPlan() && c.shape == b.shape && c.delta == b.delta
      && var p, q := b.reservation.plan, c.reservation.plan;
      && q.sets == p.sets && q.certs == p.certs && |q.cursor| == |p.cursor| && q.hi == p.hi
      && q.sLimit == p.sLimit && q.route == p.route
      && (forall w :: 0 <= w < |p.cursor| ==> p.cursor[w] <= q.cursor[w])
  }

  lemma NarrowedStaysDisjoint(cfg: PlannerConfig, b: Body, c: Body, o: Body)
    requires Narrows(b, c) && c.HasPlan() && o.HasPlan() && SweepsDisjoint(cfg, b, o)
    ensures SweepsDisjoint(cfg, c, o)
  {
    hide SampleClear;
    forall v: nat, i: nat, w: nat, j: nat
      | Held(c.reservation.plan, v, i) && Held(o.reservation.plan, w, j)
      ensures SampleClear(c.shape, c.reservation.plan.sets[v].pts[i], o.shape,
                          o.reservation.plan.sets[w].pts[j], cfg.pairMargin + c.delta + o.delta)
    {
      assert Held(b.reservation.plan, v, i);
    }
  }

  lemma DisjointSymmetric(cfg: PlannerConfig, a: Body, b: Body)
    requires a.HasPlan() && b.HasPlan() && SweepsDisjoint(cfg, a, b)
    ensures SweepsDisjoint(cfg, b, a)
  {
    hide SampleClear;
    var p, q := a.reservation.plan, b.reservation.plan;
    forall v: nat, i: nat, w: nat, j: nat | Held(q, v, i) && Held(p, w, j)
      ensures SampleClear(b.shape, q.sets[v].pts[i], a.shape, p.sets[w].pts[j],
                          cfg.pairMargin + b.delta + a.delta)
    {
      SampleClearSymmetric(a.shape, p.sets[w].pts[j], b.shape, q.sets[v].pts[i],
                           cfg.pairMargin + a.delta + b.delta);
    }
  }

  /** Replacing one body keeps the invariant if the new one is disjoint from every other. */
  lemma OneBodyChanges(st: Station, st': Station, id: Id)
    requires PairwiseDisjoint(st) && id in st'.bodies && st'.cfg == st.cfg
    requires forall o :: o in st'.bodies && o != id ==> o in st.bodies && st'.bodies[o] == st.bodies[o]
    requires forall o :: o in st'.bodies && o != id && st'.bodies[id].HasPlan() && st'.bodies[o].HasPlan()
               ==> SweepsDisjoint(st.cfg, st'.bodies[id], st'.bodies[o])
    ensures PairwiseDisjoint(st')
  {
    hide SweepsDisjoint;
    forall o | o in st'.bodies && o != id && st'.bodies[id].HasPlan() && st'.bodies[o].HasPlan()
      ensures SweepsDisjoint(st.cfg, st'.bodies[o], st'.bodies[id])
    {
      DisjointSymmetric(st.cfg, st'.bodies[id], st'.bodies[o]);
    }
  }

  lemma NarrowingKeepsDisjoint(st: Station, st': Station, id: Id)
    requires PairwiseDisjoint(st) && id in st'.bodies && st'.cfg == st.cfg
    requires forall o :: o in st'.bodies && o != id ==> o in st.bodies && st'.bodies[o] == st.bodies[o]
    requires id in st.bodies ==> Narrows(st.bodies[id], st'.bodies[id])
    requires id !in st.bodies ==> !st'.bodies[id].HasPlan()
    ensures PairwiseDisjoint(st')
  {
    hide SweepsDisjoint;
    forall o | o in st'.bodies && o != id && st'.bodies[id].HasPlan() && st'.bodies[o].HasPlan()
      ensures SweepsDisjoint(st.cfg, st'.bodies[id], st'.bodies[o])
    {
      NarrowedStaysDisjoint(st.cfg, st.bodies[id], st'.bodies[id], st.bodies[o]);
    }
    OneBodyChanges(st, st', id);
  }

  // ---------------------------------------------------------------- the verifier makes room

  /** What the verifier left free of one mover. */
  lemma VerifiedClearsMover(y: Query, sets: seq<SampleSet>, from: seq<nat>, s: Reach, o: Id,
                            v: nat, i: nat, w: nat, j: nat)
    requires WellFormedSweeps(y, sets, from) && NaiveAnswer(y, sets, from, false, s)
    requires o in y.bodies && o != y.self && y.bodies[o].HasPlan()
    requires Asked(sets, from, v, i) && (s.At? ==> sets[v].pts[i].s < s.s)
    requires Held(y.bodies[o].reservation.plan, w, j)
    ensures SampleClear(y.shape, sets[v].pts[i], y.bodies[o].shape,
                        y.bodies[o].reservation.plan.sets[w].pts[j], y.MoverMargin(y.bodies[o]))
  {
    hide SampleClear, NaiveAnswer, WorldHit, HitByParked, NowHit;
    ClearBelow(y, sets, from, s, v, i);
    var q, retiring := sets[v].pts[i], y.bodies[o].IsRetiring();
    assert Mover(y, o, retiring);
    assert !HitByMover(y, q, retiring);
    assert Retained(y.bodies[o].reservation.plan, w, j);
    assert !SampleHit(y, q, o, w, j);
  }

  /** A reservation up to the free limit is disjoint from every other one: the hold margin keeps its
      last sample short of the first conflict. */
  lemma VerifiedMakesRoom(y: Query, p: Plan, c: Body, s: Reach, limit: real, o: Id)
    requires y.cfg.holdMargin > 0.000000001
    requires WellFormedSweeps(y, p.sets, p.cursor) && NaiveAnswer(y, p.sets, p.cursor, false, s)
    requires s.At? ==> limit == s.s - y.cfg.holdMargin
    requires c.HasPlan() && c.shape == y.shape && c.delta == y.delta
    requires c.reservation.plan.sets == p.sets && c.reservation.plan.cursor == p.cursor
    requires PrefixesEnd(p, limit, c.reservation.plan.hi)
    requires o in y.bodies && o != y.self && y.bodies[o].HasPlan()
    ensures SweepsDisjoint(y.cfg, c, y.bodies[o])
  {
    hide SampleClear, NaiveAnswer, SweepOf;
    var q := c.reservation.plan;
    forall v: nat, i: nat, w: nat, j: nat
      | Held(q, v, i) && Held(y.bodies[o].reservation.plan, w, j)
      ensures SampleClear(c.shape, q.sets[v].pts[i], y.bodies[o].shape,
                          y.bodies[o].reservation.plan.sets[w].pts[j],
                          y.cfg.pairMargin + c.delta + y.bodies[o].delta)
    {
      assert PrefixEnds(p.sets[v], limit, q.hi[v]);
      VerifiedClearsMover(y, p.sets, p.cursor, s, o, v, i, w, j);
    }
  }

  // ---------------------------------------------------------------- every act keeps it

  lemma NarrowsTransitive(a: Body, b: Body, c: Body)
    requires Narrows(a, b) && Narrows(b, c)
    ensures Narrows(a, c)
  {
  }

  lemma NarrowsReflexive(b: Body)
    ensures Narrows(b, b)
  {
  }

  lemma NarrowsStaysWellFormed(b: Body, c: Body)
    requires WellFormedBody(b) && Narrows(b, c) && WellFormed(c.shape)
    ensures WellFormedBody(c)
  {
    hide SweepOf, PrefixEnds;
  }

  lemma SweptSame(kit: Kit, shape: Shape, model: Model, p: Plan, q: Plan)
    requires Swept(kit, shape, model, p) && q.sets == p.sets && q.route == p.route
    ensures Swept(kit, shape, model, q)
  {
    hide SweptAt;
    forall w: nat ensures SweptAt(kit, shape, model, q, w) {
      assert SweptAt(kit, shape, model, p, w);
      SweptAtSame(kit, shape, model, p, q, w);
    }
  }

  lemma SweptAtSame(kit: Kit, shape: Shape, model: Model, p: Plan, q: Plan, w: nat)
    requires SweptAt(kit, shape, model, p, w) && q.sets == p.sets && q.route == p.route
    ensures SweptAt(kit, shape, model, q, w)
  {
    hide RouteModel.MadeSweep;
  }

  /** What is reserved stays the sweep of the route it was given. */
  lemma NarrowedStaysShaped(kit: Kit, b: Body, c: Body)
    requires KitShaped(kit, b) && Narrows(b, c) && SameFootprint(b, c)
    ensures KitShaped(kit, c)
  {
    hide Swept;
    if c.HasPlan() { SweptSame(kit, b.shape, b.spec.model, b.reservation.plan, c.reservation.plan); }
  }

  lemma DecisionsNarrow(t: Desk, reason: Reason, detail: string, blockers: seq<Id>)
    ensures Narrows(t.body, EmitBrake(t, reason, detail, blockers).body)
    ensures Narrows(t.body, EmitReject(t, reason, detail, blockers).body)
    ensures Narrows(t.body, EmitHold(t, reason, detail, blockers).body)
    ensures var c := EmitBrake(t, reason, detail, blockers).body; SameFootprint(t.body, c)
    ensures var c := EmitReject(t, reason, detail, blockers).body; SameFootprint(t.body, c)
    ensures var c := EmitHold(t, reason, detail, blockers).body; SameFootprint(t.body, c)
  {
  }

  /** Synchronisation never lets go of part of a reservation, never widens one, and keeps the
      footprint it was made with; only the exact certificate removes it as a whole. */
  lemma SyncNarrows(kit: Kit, t: Desk, v: Vehicle, isNew: bool)
    requires GoodKit(kit) && KitShaped(kit, t.body)
    ensures var c := SyncBody(kit, t, v, isNew).body; Narrows(t.body, c) && KitShaped(kit, c)
  {
    hide Outdated, Anchored, Requested, SyncRest, Narrows, KitShaped, SameFootprint;
    NarrowsReflexive(t.body);
    if !t.halted && (isNew || !Outdated(v, t.body)) {
      var b := Anchored(kit, t.body, v, isNew);
      AnchorNarrows(kit, t.body, v, isNew);
      var newRequest := NewRequest(t.body, v);
      var t1 := Requested(t.(body := b), v, newRequest, isNew);
      RequestNarrows(t.(body := b), v, newRequest, isNew);
      NarrowedStaysShaped(kit, b, t1.body);
      NarrowsTransitive(t.body, b, t1.body);
      RestNarrows(kit, t1, v, newRequest);
      NarrowsTransitive(t.body, t1.body, SyncRest(kit, t1, v, newRequest).body);
    }
  }

  lemma RestNarrows(kit: Kit, t: Desk, v: Vehicle, newRequest: bool)
    requires GoodKit(kit) && KitShaped(kit, t.body)
    ensures var c := SyncRest(kit, t, v, newRequest).body; Narrows(t.body, c) && KitShaped(kit, c)
  {
    hide Withdrawn, Released, Received, Narrows, KitShaped, SameFootprint;
    NarrowsReflexive(t.body);
    if t.body.generation != 0 {
      var t2 := Withdrawn(t, v);
      var t3 := Released(kit, t2, v, newRequest);
      WithdrawNarrows(t, v);
      NarrowedStaysShaped(kit, t.body, t2.body);
      ReleaseNarrows(kit, t2, v, newRequest);
      ReceiptNarrows(t3, v);
      NarrowedStaysShaped(kit, t3.body, Received(t3, v).body);
      NarrowsTransitive(t.body, t2.body, t3.body);
      NarrowsTransitive(t.body, t3.body, Received(t3, v).body);
    }
  }

  lemma AnchorNarrows(kit: Kit, b: Body, v: Vehicle, isNew: bool)
    requires GoodKit(kit) && KitShaped(kit, b)
    ensures var c := Anchored(kit, b, v, isNew); Narrows(b, c) && KitShaped(kit, c)
  {
    hide StaleQuiescent;
  }

  lemma RequestNarrows(t: Desk, v: Vehicle, newRequest: bool, isNew: bool)
    ensures var c := Requested(t, v, newRequest, isNew).body;
            Narrows(t.body, c) && SameFootprint(t.body, c)
  {
  }

  lemma WithdrawNarrows(t: Desk, v: Vehicle)
    ensures var c := Withdrawn(t, v).body; Narrows(t.body, c) && SameFootprint(t.body, c)
  {
  }

  lemma ReleaseNarrows(kit: Kit, t: Desk, v: Vehicle, newRequest: bool)
    requires GoodKit(kit) && KitShaped(kit, t.body)
    ensures var c := Released(kit, t, v, newRequest).body;
            Narrows(t.body, c) && KitShaped(kit, c)
  {
  }

  lemma ReceiptNarrows(t: Desk, v: Vehicle)
    ensures var c := Received(t, v).body; Narrows(t.body, c) && SameFootprint(t.body, c)
  {
  }

  /** What an act on one body leaves alone. */
  ghost predicate OnlyBody(st: Station, st': Station, id: Id) {
    && st'.cfg == st.cfg && st'.kit == st.kit && st'.world == st.world && id in st'.bodies
    && (forall o :: o in st'.bodies <==> o in st'.order)
    && (forall o :: o in st'.bodies && o != id ==> o in st.bodies && st'.bodies[o] == st.bodies[o])
  }

  lemma PutOnlyBody(st: Station, t: Desk)
    requires StationInv(st) && t.id in st.bodies
    ensures OnlyBody(st, st.Put(t), t.id)
  {
  }

  lemma NarrowingActKeeps(st: Station, st': Station, id: Id)
    requires StationInv(st) && PairwiseDisjoint(st) && OnlyBody(st, st', id)
    requires KitShaped(st.kit, st'.bodies[id])
    requires id in st.bodies ==> Narrows(st.bodies[id], st'.bodies[id])
    requires id !in st.bodies ==> !st'.bodies[id].HasPlan()
    ensures StationInv(st') && PairwiseDisjoint(st')
  {
    NarrowingKeepsDisjoint(st, st', id);
    if id in st.bodies { NarrowsStaysWellFormed(st.bodies[id], st'.bodies[id]); }
    hide Narrows, WellFormedPlan, SweepsDisjoint;
  }

  /** One body decides: it holds no more than before, with the same footprint. */
  lemma NarrowDeskKeeps(st: Station, t: Desk)
    requires StationInv(st) && PairwiseDisjoint(st) && t.id in st.bodies
    requires Narrows(st.bodies[t.id], t.body) && SameFootprint(st.bodies[t.id], t.body)
    ensures StationInv(st.Put(t)) && PairwiseDisjoint(st.Put(t))
  {
    hide Narrows, WellFormedBody, SweepsDisjoint, SameFootprint;
    PutOnlyBody(st, t);
    NarrowedStaysShaped(st.kit, st.bodies[t.id], t.body);
    hide KitShaped;
    NarrowingActKeeps(st, st.Put(t), t.id);
  }

  lemma NewcomerKeeps(st: Station, v: Vehicle)
    requires StationInv(st) && PairwiseDisjoint(st)
    ensures StationInv(WithVehicle(st, v)) && PairwiseDisjoint(WithVehicle(st, v))
  {
    hide SweepsDisjoint, WellFormedPlan, Narrows;
    if v.id !in st.bodies { NarrowingActKeeps(st, WithVehicle(st, v), v.id); }
  }

  /** What a report changes beside the body: only flags. */
  ghost predicate SameButFlags(st: Station, st': Station) {
    st' == st.(worldChanged := st'.worldChanged, dirty := st'.dirty)
  }

  lemma FlagsKeep(st: Station, st': Station)
    requires SameButFlags(st, st') && StationInv(st) && PairwiseDisjoint(st)
    ensures StationInv(st') && PairwiseDisjoint(st')
  {
    hide SweepsDisjoint, WellFormedBody;
  }

  lemma SyncIsPut(st: Station, v: Vehicle)
    requires Shaped(st)
    ensures var st1 := WithVehicle(st, v);
            var isNew := v.id !in st.bodies;
            st.halted || (!isNew && Outdated(v, st1.bodies[v.id]))
            || SameButFlags(st1.Put(SyncBody(st.kit, st1.At(v.id), v, isNew)), SyncVehicle(st, v))
    ensures !st.halted && v.id in st.bodies && Outdated(v, st.bodies[v.id])
            ==> SyncVehicle(st, v) == st
  {
    hide Touches, SyncBody, Outdated;
  }

  lemma SyncKeeps(st: Station, v: Vehicle)
    requires StationInv(st) && PairwiseDisjoint(st)
    ensures StationInv(SyncVehicle(st, v)) && PairwiseDisjoint(SyncVehicle(st, v))
  {
    hide SyncVehicle, SyncBody, Narrows, Outdated, PairwiseDisjoint, WellFormedBody;
    var st1 := WithVehicle(st, v);
    var isNew := v.id !in st.bodies;
    SyncIsPut(st, v);
    if st.halted {
      assert SyncVehicle(st, v) == st by { HaltedStays(st, v); }
    } else if isNew || !Outdated(v, st1.bodies[v.id]) {
      NewcomerKeeps(st, v);
      SyncNarrows(st.kit, st1.At(v.id), v, isNew);
      var t := SyncBody(st.kit, st1.At(v.id), v, isNew);
      PutOnlyBody(st1, t);
      NarrowingActKeeps(st1, st1.Put(t), v.id);
      FlagsKeep(st1.Put(t), SyncVehicle(st, v));
    }
  }

  lemma HaltedStays(st: Station, v: Vehicle)
    requires Shaped(st) && st.halted
    ensures SyncVehicle(st, v) == st
  {
  }

  /** An admission starts a reservation, or it only narrows. */
  lemma InstallCases(t: Desk, p: Plan, hi: seq<nat>)
    ensures var r := InstallPlan(t, p, hi);
            && SameFootprint(t.body, r.body)
            && if t.body.grants >= 3 || t.Spent() then Narrows(t.body, r.body)
               else r.body.HasPlan() && Reserves(r.body.reservation.plan, p, hi)
  {
    hide EmitReject;
    NarrowsReflexive(t.body);
    DecisionsNarrow(t, Reason.NoRoute, "Reset replan budget exhausted", []);
  }

  ghost predicate Reserves(q: Plan, p: Plan, hi: seq<nat>) {
    && q.sets == p.sets && q.certs == p.certs && q.cursor == Zeros(|p.sets|) && q.hi == hi
    && q.sLimit == p.sLimit && q.route == p.route
  }

  lemma AdmissionKeeps(st: Station, id: Id, p: Plan, s: Reach, hi: seq<nat>, t: Desk)
    requires st.cfg.holdMargin > 0.000000001 && StationInv(st) && PairwiseDisjoint(st)
    requires Enabled(st, Install(id, p, s, hi)) && t.id == id
    requires SameFootprint(st.bodies[id], t.body)
    requires t.body.HasPlan() && Reserves(t.body.reservation.plan, p, hi)
    ensures StationInv(st.Put(t)) && PairwiseDisjoint(st.Put(t))
  {
    hide NaiveAnswer, SweepOf, SweepsDisjoint, Swept;
    SweptSame(st.kit, t.body.shape, t.body.spec.model, p, t.body.reservation.plan);
    var st' := st.Put(t);
    forall o | o in st'.bodies && o != id && st'.bodies[o].HasPlan()
      ensures SweepsDisjoint(st.cfg, t.body, st'.bodies[o])
    {
      VerifiedMakesRoom(st.Ask(id, p.certs), p.(cursor := Zeros(|p.sets|)), t.body, s, p.sLimit, o);
    }
    OneBodyChanges(st, st', id);
    assert WellFormedPlan(t.body.shape, t.body.reservation.plan);
  }

  lemma InstallKeeps(st: Station, id: Id, p: Plan, s: Reach, hi: seq<nat>)
    requires st.cfg.holdMargin > 0.000000001 && StationInv(st) && PairwiseDisjoint(st)
    requires Enabled(st, Install(id, p, s, hi))
    ensures var st' := Do(st, Install(id, p, s, hi)); StationInv(st') && PairwiseDisjoint(st')
  {
    hide NaiveAnswer, SweepOf, Narrows, PairwiseDisjoint, PrefixesEnd, InstallPlan, Reserves;
    hide GoodCandidate;
    var t := InstallPlan(st.At(id), p, hi);
    InstallCases(st.At(id), p, hi);
    if st.bodies[id].grants >= 3 || st.At(id).Spent() {
      NarrowDeskKeeps(st, t);
    } else {
      AdmissionKeeps(st, id, p, s, hi, t);
    }
  }

  lemma ExtensionKeeps(st: Station, id: Id, answer: Violation, hi: seq<nat>)
    requires st.cfg.holdMargin > 0.000000001 && StationInv(st) && PairwiseDisjoint(st)
    requires Enabled(st, Extend(id, answer, hi)) && !st.At(id).Spent()
    requires Extends(st.cfg, st.bodies[id], st.worldChanged, answer)
    ensures var st' := st.Put(ExtendPlan(st.At(id), NewLimit(st.cfg, st.bodies[id].reservation.plan, answer), hi));
            StationInv(st') && PairwiseDisjoint(st')
  {
    hide NaiveAnswer, SweepOf, SweepsDisjoint, Swept;
    var p := st.bodies[id].reservation.plan;
    var limit := NewLimit(st.cfg, p, answer);
    var t := ExtendPlan(st.At(id), limit, hi);
    ExtendedPlan(st.At(id), limit, hi);
    var st' := st.Put(t);
    forall o | o in st'.bodies && o != id && st'.bodies[o].HasPlan()
      ensures SweepsDisjoint(st.cfg, t.body, st'.bodies[o])
    {
      VerifiedMakesRoom(st.Ask(id, p.certs), p, t.body, answer.s, limit, o);
    }
    OneBodyChanges(st, st', id);
    SweptSame(st.kit, t.body.shape, t.body.spec.model, p, t.body.reservation.plan);
    assert WellFormedPlan(t.body.shape, t.body.reservation.plan);
    hide ExtendPlan;
  }

  lemma ExtendedPlan(t: Desk, limit: real, hi: seq<nat>)
    requires t.body.HasPlan() && !t.Spent()
    ensures var r := ExtendPlan(t, limit, hi);
            && r.id == t.id && r.body.HasPlan() && SameFootprint(t.body, r.body)
            && var p, q := t.body.reservation.plan, r.body.reservation.plan;
            && q.sets == p.sets && q.certs == p.certs && q.cursor == p.cursor && q.hi == hi
            && q.sLimit == limit && q.route == p.route
  {
  }

  /** The extension turn only narrows, or it extends. */
  lemma ExtendCases(cfg: PlannerConfig, t: Desk, worldChanged: bool, answer: Violation,
                    hi: seq<nat>)
    ensures var r := ExtendOne(cfg, t, worldChanged, answer, hi);
            if !t.Spent() && Extends(cfg, t.body, worldChanged, answer)
            then r == ExtendPlan(t, NewLimit(cfg, t.body.reservation.plan, answer), hi)
            else Narrows(t.body, r.body) && SameFootprint(t.body, r.body)
  {
    NarrowsReflexive(t.body);
    DecisionsNarrow(t, SceneChanged, "the scene changed under the route", Blockers(answer));
    DecisionsNarrow(t, Replan, "the rest of the route is blocked", Blockers(answer));
    hide EmitBrake;
  }

  lemma ExtendKeeps(st: Station, id: Id, answer: Violation, hi: seq<nat>)
    requires st.cfg.holdMargin > 0.000000001 && StationInv(st) && PairwiseDisjoint(st)
    requires Enabled(st, Extend(id, answer, hi))
    ensures var st' := Do(st, Extend(id, answer, hi)); StationInv(st') && PairwiseDisjoint(st')
  {
    hide NaiveAnswer, SweepOf, Extends, ExtendOne, Narrows, PairwiseDisjoint, PrefixesEnd;
    var t := st.At(id);
    ExtendCases(st.cfg, t, st.worldChanged, answer, hi);
    if !t.Spent() && Extends(st.cfg, t.body, st.worldChanged, answer) {
      ExtensionKeeps(st, id, answer, hi);
    } else {
      NarrowDeskKeeps(st, ExtendOne(st.cfg, t, st.worldChanged, answer, hi));
    }
  }

  lemma DecisionKeeps(st: Station, id: Id, reason: Reason, detail: string, blockers: seq<Id>)
    requires StationInv(st) && PairwiseDisjoint(st) && id in st.bodies
    ensures var st' := Do(st, Brakes(id, reason, detail, blockers));
            StationInv(st') && PairwiseDisjoint(st')
    ensures var st' := Do(st, Rejects(id, reason, detail, blockers));
            StationInv(st') && PairwiseDisjoint(st')
    ensures var st' := Do(st, Holds(id, reason, detail, blockers));
            StationInv(st') && PairwiseDisjoint(st')
  {
    hide EmitBrake, EmitReject, EmitHold, Narrows, PairwiseDisjoint, StationInv, SameFootprint;
    var t := st.At(id);
    DecisionsNarrow(t, reason, detail, blockers);
    NarrowDeskKeeps(st, EmitBrake(t, reason, detail, blockers));
    NarrowDeskKeeps(st, EmitReject(t, reason, detail, blockers));
    NarrowDeskKeeps(st, EmitHold(t, reason, detail, blockers));
  }

  lemma AdvanceKeeps(st: Station, id: Id, cursor: seq<nat>)
    requires StationInv(st) && PairwiseDisjoint(st) && Enabled(st, Advance(id, cursor))
    ensures var st' := Do(st, Advance(id, cursor)); StationInv(st') && PairwiseDisjoint(st')
  {
    hide Advanced, Narrows, PairwiseDisjoint;
    AdvanceNarrows(st.At(id), cursor);
    NarrowDeskKeeps(st, Advanced(st.At(id), cursor));
  }

  lemma SameBodiesKeep(st: Station, st': Station)
    requires StationInv(st) && PairwiseDisjoint(st) && GoodWorld(st'.world)
    requires st'.bodies == st.bodies && st'.order == st.order && st'.cfg == st.cfg && st'.kit == st.kit
    ensures StationInv(st') && PairwiseDisjoint(st')
  {
    hide SweepsDisjoint, WellFormedBody, GoodKit, GoodWorld, KitShaped;
  }

  lemma PlainActKeeps(st: Station, act: Act)
    requires StationInv(st) && PairwiseDisjoint(st) && Enabled(st, act)
    requires act.SetWorld? || act.Allocate? || act.Flags? || act.Flush?
    ensures StationInv(Do(st, act)) && PairwiseDisjoint(Do(st, act))
  {
    hide PairwiseDisjoint, WellFormedBody, SyncVehicle, EmitBrake, EmitReject, EmitHold, Advanced;
    hide InstallPlan, ExtendOne, GoodWorld, GoodKit;
    SameBodiesKeep(st, Do(st, act));
  }

  /** Reservations stay pairwise disjoint under every act: admission, extension, cursor advance,
      brake, reject, hold, every report, changes of the world. */
  lemma ActKeepsDisjoint(st: Station, act: Act)
    requires st.cfg.holdMargin > 0.000000001 && StationInv(st) && PairwiseDisjoint(st)
    requires Enabled(st, act)
    ensures StationInv(Do(st, act)) && PairwiseDisjoint(Do(st, act))
  {
    hide SyncVehicle, EmitBrake, EmitReject, EmitHold, Advanced, InstallPlan, ExtendOne;
    hide PairwiseDisjoint, WellFormedBody, NaiveAnswer, PrefixesEnd, Ahead, Asks, Extends;
    match act
    case Sync(v) => SyncKeeps(st, v);
    case Advance(id, cursor) => AdvanceKeeps(st, id, cursor);
    case Brakes(id, reason, detail, blockers) => DecisionKeeps(st, id, reason, detail, blockers);
    case Rejects(id, reason, detail, blockers) => DecisionKeeps(st, id, reason, detail, blockers);
    case Holds(id, reason, detail, blockers) => DecisionKeeps(st, id, reason, detail, blockers);
    case Install(id, p, s, hi) => InstallKeeps(st, id, p, s, hi);
    case Extend(id, answer, hi) => ExtendKeeps(st, id, answer, hi);
    case _ => PlainActKeeps(st, act);
  }

  lemma ActsOnHeld(st: Station, act: Act)
    requires StationInv(st) && Enabled(st, act)
    ensures act.Advance? || act.Brakes? || act.Rejects? || act.Holds? || act.Install? || act.Extend? ==>
              act.id in st.bodies
  {
  }

  lemma ActKeepsConfig(st: Station, act: Act)
    requires StationInv(st) && Enabled(st, act)
    ensures Do(st, act).cfg == st.cfg
  {
    hide SyncBody, EmitBrake, EmitReject, EmitHold, Advanced, InstallPlan, ExtendOne, Touches;
    hide WellFormedBody, PairwiseDisjoint, Outdated;
  }

  lemma AdvanceNarrows(t: Desk, cursor: seq<nat>)
    requires WellFormedBody(t.body) && t.body.ReceivedGo() && Ahead(t.body.reservation.plan, cursor)
    ensures Narrows(t.body, Advanced(t, cursor).body)
    ensures SameFootprint(t.body, Advanced(t, cursor).body)
  {
    hide Progressed, SweepOf, PrefixEnds;
  }
}
