/** What the composed system promises, in its own terms: vehicles that execute stay apart, and the
    station stands by every Go it sends unless its stall check strikes the same vehicle. */
module SystemSafety {
  import opened ResetProtocol
  import opened Geometry
  import opened Bodies
  import opened PlannerModel
  import opened Hulls
  import opened Separation
  import opened Fleet
  import opened FleetSafety
  import opened FleetCoordinator
  import Turns = PlannerTurn
  import opened CoordinatorModel
  import Coordinator
  import Stalled = StalledExtension
  import PlannerRuns
  import Wire = CoordinatorWire
  import Scene = SceneChanges
  import Clearance
  import Sweep
  import RouteModel
  import Runs = ExecutorRuns

  /** In every state the composed system comes to, for any two executing vehicles: every sample of the
      route the one drives, up to its limit, is clear of every such sample of the other. The state f
      has the vehicles and the planner of the system. */
  lemma SystemKeepsApart(cfg: CoordinatorConfig, w0: System, hs: seq<Happening>, w: System, a: Id, b: Id)
    returns (f: State)
    requires Comes(cfg, w0, hs, w)
    requires a != b && a in w.execs && b in w.execs
    requires w.execs[a].permission.Executing? && w.execs[b].permission.Executing?
    ensures f.execs == w.execs && f.st == w.st && Executes(f, a) && Executes(f, b) && GoodKit(f.st.kit)
    ensures Contained(f, a) && Contained(f, b)
    ensures ReservedFor(f, a, f.execs[a].permission.motion.route.ell)
    ensures ReservedFor(f, b, f.execs[b].permission.motion.route.ell)
    ensures forall ellA: real, i: nat, ellB: real, j: nat :: Ahead(f, a, ellA, i) && Ahead(f, b, ellB, j)
              ==> ApartAt(f, a, b, ellA, i, ellB, j)
    ensures SolidKit(f.st.cfg, f.st.kit) ==>
              forall ellA: real, i: nat, ellB: real, j: nat :: Ahead(f, a, ellA, i) && Ahead(f, b, ellB, j)
                ==> FarAt(f, a, b, ellA, i, ellB, j)
  {
    hide SolidKit, FarAt;
    hide Comes, Reachable, Contained, Ahead, ApartAt, ReservedFor, AtRest;
    var f0, evs;
    f0, evs, f := SystemIsAFleet(cfg, w0, hs, w);
    ExecutingVehiclesAreApart(f0, evs, f, a, b);
  }

  /** In every step the composed system can take: a Go that is sent is backed by a live reservation
      with its decision id at the end of the step, if and only if the stall check did not strike. */
  lemma SystemStandsByItsGo(cfg: CoordinatorConfig, w0: System, hs: seq<Happening>, w: System, h: Happening)
    requires Comes(cfg, w0, hs, w) && h.StationSteps? && Can(cfg, w, h)
    ensures Shaped(w.st)
    ensures forall k :: 0 <= k < |h.o.out| && h.o.out[k].grant.state.Go? ==>
              (Wire.Stands(h.o.out[k], h.after.bodies)
               <==> !Stalled.Struck(Turns.SyncAll(w.st, Coordinator.Vehicles(cfg, w.entries, w.names, h.c.now)),
                                    h.c, h.o.out[k].to))
  {
    hide Comes, Coordinator.StationSound, Turns.Sound, Coordinator.Letters, PlannerRuns.Updates, Wire.Stands;
    hide Stalled.Struck;
    var f0, evs, f := SystemIsAFleet(cfg, w0, hs, w);
    var admit := h.scene && ScopeReady(cfg, w.entries);
    SoundIsShaped(w.st);
    Stalled.LettersStandUnlessStruck(cfg, w.entries, w.names, w.wire, w.st, h.c, h.scene, admit, h.moves,
                                     h.answers, h.after, h.c.now);
  }

  lemma SoundIsShaped(st: Station)
    requires Turns.Sound(st, st)
    ensures Shaped(st)
  {
  }

  // ---------------------------------------------------------------- scope and scene

  /** A vehicle has declared a footprint and limits that make sense, and was healthy. */
  predicate Declares(s: Session) {
    && s.healthy
    && s.spec.footprint.halfLength > 0.0 && s.spec.footprint.halfWidth > 0.0
    && s.spec.maxV > 0.0 && s.spec.maxW > 0.0 && s.spec.accV > 0.0 && s.spec.accW > 0.0
    && 0.0 <= s.spec.ellBound < 2.0
  }

  /** Such a Session of this vehicle has been received. */
  ghost predicate Heard(hs: seq<Happening>, name: Id) {
    exists k :: 0 <= k < |hs| && hs[k].SessionArrives? && hs[k].id == name && Declares(hs[k].s)
  }

  lemma HeardStays(hs: seq<Happening>, h: Happening, name: Id)
    requires Heard(hs, name)
    ensures Heard(hs + [h], name)
  {
    hide Declares;
    var k :| 0 <= k < |hs| && hs[k].SessionArrives? && hs[k].id == name && Declares(hs[k].s);
    assert (hs + [h])[k] == hs[k];
  }

  /** Whom the coordinator knows with a body it has heard of; and no live permission is in conflict with
      the world, unless a change of it still waits for the extension turn. */
  ghost predicate Knows(hs: seq<Happening>, w: System) {
    && (forall name :: name in w.entries && w.entries[name].body.Some? ==> Heard(hs, name))
    && Scene.HeedsTheWorld(w.st)
  }

  /** A happening in which no body becomes known that was not known before. */
  lemma NobodyNew(hs: seq<Happening>, w: System, h: Happening, v: System)
    requires Knows(hs, w) && Scene.HeedsTheWorld(v.st)
    requires forall name :: name in v.entries && v.entries[name].body.Some? ==>
               name in w.entries && w.entries[name].body.Some?
    ensures Knows(hs + [h], v)
  {
    hide Heard, Scene.HeedsTheWorld;
    forall name | name in v.entries && v.entries[name].body.Some? ensures Heard(hs + [h], name) {
      HeardStays(hs, h, name);
    }
  }

  lemma SessionShows(hs: seq<Happening>, w: System, h: Happening, v: System)
    requires Knows(hs, w) && h.SessionArrives? && v.st == w.st
    requires v.entries == OnSession(w.entries, h.id, h.s, h.now)
    ensures Knows(hs + [h], v)
  {
    hide Dist2, Scene.HeedsTheWorld, Heard;
    forall name | name in v.entries && v.entries[name].body.Some? ensures Heard(hs + [h], name) {
      if name in w.entries && w.entries[name].body.Some? { HeardStays(hs, h, name); }
      else { assert Declares(h.s); HeardNow(hs, h, name); }
    }
  }

  lemma HeardNow(hs: seq<Happening>, h: Happening, name: Id)
    requires h.SessionArrives? && h.id == name && Declares(h.s)
    ensures Heard(hs + [h], name)
  {
    hide Declares;
    assert (hs + [h])[|hs|] == h;
  }

  lemma StepShows(cfg: CoordinatorConfig, hs: seq<Happening>, w: System, h: Happening)
    requires Knows(hs, w) && AtRest(cfg, w) && h.StationSteps? && Can(cfg, w, h)
    ensures Knows(hs + [h], Then(cfg, w, h))
  {
    hide Heard, Scene.AllHeed, Coordinator.StationSound, Turns.Sound, Coordinator.Letters, PlannerRuns.Updates;
    hide Coordinator.Vehicles, ScopeReady;
    var admit := h.scene && ScopeReady(cfg, w.entries);
    Scene.UpdateHeeds(w.st, Coordinator.Vehicles(cfg, w.entries, w.names, h.c.now), h.c, admit, h.moves, h.answers,
                      h.after);
    Coordinator.LettersKeepSessions(cfg, w.entries, w.names, h.after.next, h.after.out, h.after.bodies,
                                    h.after.order, h.scene, admit, h.c.now);
    var v := Then(cfg, w, h);
    if Scene.AllHeed(h.after) { Scene.FlagsHeed(h.after, v.st); }
    forall name | name in v.entries && v.entries[name].body.Some?
      ensures name in w.entries && w.entries[name].body.Some?
    {
      assert name in v.entries.Keys;
    }
    NobodyNew(hs, w, h, v);
  }

  lemma StartKnows(w: System)
    requires Starts(w)
    ensures Knows([], w)
  {
    hide Scene.Blocked;
  }

  /** Over every run of the composed system. */
  lemma {:induction false} SystemKnows(cfg: CoordinatorConfig, w0: System, hs: seq<Happening>, w: System)
    requires Comes(cfg, w0, hs, w)
    ensures Knows(hs, w)
    decreases |hs|
  {
    hide Can, Then, AtRest, Knows, Starts, StandsFor;
    if hs == [] {
      StartKnows(w);
    } else {
      var before, h := hs[..|hs| - 1], hs[|hs| - 1];
      assert hs == before + [h];
      var v :| Comes(cfg, w0, before, v) && Can(cfg, v, h) && w == Then(cfg, v, h);
      SystemKnows(cfg, w0, before, v);
      var f0, evs, f := SystemIsAFleet(cfg, w0, before, v);
      OneShows(cfg, before, v, h);
    }
  }

  lemma OneShows(cfg: CoordinatorConfig, hs: seq<Happening>, w: System, h: Happening)
    requires Knows(hs, w) && AtRest(cfg, w) && Can(cfg, w, h)
    ensures Knows(hs + [h], Then(cfg, w, h))
  {
    hide Knows, AtRest, OnSession, Runs.Apply, Runs.Allowed;
    var v := Then(cfg, w, h);
    match h
    case VehicleActs(_, _) => OthersShow(hs, w, h, v);
    case SessionArrives(_, _, _) => SessionShows(hs, w, h, v);
    case WorldChanges(_) => WorldShows(cfg, hs, w, h);
    case StationSteps(_, _, _, _, _, _) => StepShows(cfg, hs, w, h);
  }

  lemma OthersShow(hs: seq<Happening>, w: System, h: Happening, v: System)
    requires Knows(hs, w) && v.st == w.st && v.entries == w.entries
    ensures Knows(hs + [h], v)
  {
    hide Heard, Scene.HeedsTheWorld;
    NobodyNew(hs, w, h, v);
  }

  lemma WorldShows(cfg: CoordinatorConfig, hs: seq<Happening>, w: System, h: Happening)
    requires Knows(hs, w) && h.WorldChanges? && Can(cfg, w, h)
    ensures Knows(hs + [h], Then(cfg, w, h))
  {
    hide Heard;
    NobodyNew(hs, w, h, Then(cfg, w, h));
  }

  /** In every step the composed system can take: a Go is sent only when the scene is there, a scope is
      declared, and of every vehicle of the scope a healthy Session with a footprint and limits has been
      received before. */
  lemma SystemGoesOnlyInScope(cfg: CoordinatorConfig, w0: System, hs: seq<Happening>, w: System, h: Happening, k: nat)
    requires Comes(cfg, w0, hs, w) && h.StationSteps? && Can(cfg, w, h)
    requires k < |h.o.out| && h.o.out[k].grant.state.Go?
    ensures h.scene && cfg.expected != []
    ensures forall name :: name in cfg.expected ==> Heard(hs, name)
  {
    var f0, evs, f := SystemIsAFleet(cfg, w0, hs, w);
    SystemKnows(cfg, w0, hs, w);
    hide Comes, Heard, Scene.HeedsTheWorld, Turns.Sound, Coordinator.StationSound, PlannerRuns.Updates;
    hide Coordinator.Letters, Coordinator.Vehicles;
    var admit := h.scene && ScopeReady(cfg, w.entries);
    StepRests(cfg, w, Coordinator.Vehicles(cfg, w.entries, w.names, h.c.now), h.c, h.scene, admit, h.moves,
              h.answers, h.after, h.o);
  }

  /** In every state the composed system comes to: once the last change of the scene has been answered
      by an extension turn, what remains of any live reservation stays inside the fence and away from
      every obstacle, anywhere on the footprint, by its margin. */
  lemma SystemHeedsTheWorld(cfg: CoordinatorConfig, w0: System, hs: seq<Happening>, w: System, id: Id, v: nat, i: nat)
    requires Comes(cfg, w0, hs, w) && !w.st.worldChanged
    requires id in w.st.bodies && w.st.bodies[id].LiveGrant().Some?
    requires var p := w.st.bodies[id].reservation.plan; Sweep.Asked(p.sets, p.cursor, v, i)
    requires SolidKit(w.st.cfg, w.st.kit) && w.st.cfg.staticMargin >= 0.0
    requires forall k :: 0 <= k < |w.st.world.statics| ==> Convex(w.st.world.statics[k].verts)
    ensures Clearance.AwayFromWorld(w.st.Ask(id, []), w.st.bodies[id].reservation.plan.sets[v].pts[i])
  {
    SystemKnows(cfg, w0, hs, w);
    var f0, evs, f := SystemIsAFleet(cfg, w0, hs, w);
    var b := w.st.bodies[id];
    var q := b.reservation.plan.sets[v].pts[i];
    SampleIsUnit(w.st, id, v, i);
    hide Comes, Heard, Coordinator.StationSound, StandsFor, Solid, UnitHeading, Convex, Scene.HitsWorld, SolidKit;
    assert Scene.Heeds(w.st, id) && !Scene.Blocked(w.st, b);
    Scene.HitsWorldIs(w.st, id, [], q);
    SampleIsBoxed(w.st, id, v, i);
    hide Turns.Sound, Clearance.AwayFromWorld, Sweep.WorldHit;
    Clearance.WorldIsFar(w.st.Ask(id, []), q);
  }

  lemma SampleIsUnit(st: Station, id: Id, v: nat, i: nat)
    requires Shaped(st) && id in st.bodies && st.bodies[id].HasPlan() && SolidKit(st.cfg, st.kit)
    requires var p := st.bodies[id].reservation.plan; v < |p.sets| && i < |p.sets[v].pts|
    ensures UnitHeading(st.bodies[id].reservation.plan.sets[v].pts[i])
    ensures Solid(st.bodies[id].shape) && st.bodies[id].delta >= 0.0
  {
    hide Solid, UnitVector;
    var b := st.bodies[id];
    var p := b.reservation.plan;
    assert KitShaped(st.kit, b) && SweptAt(st.kit, b.shape, b.spec.model, p, v);
    MadeIsUnit(st.kit, b.shape, b.spec.model, p.route, p.sets[v].ell, i);
  }

  lemma MadeIsUnit(kit: Kit, shape: Shape, model: Model, route: RouteDecl, ell: real, i: nat)
    requires RouteModel.GoodGauge(kit.gauge) && WellFormed(shape)
    requires i < |RouteModel.MadeSweep(kit.gauge, shape, model, route, ell).pts|
    requires forall x: real :: UnitVector(kit.gauge.trig.cos(x), kit.gauge.trig.sin(x))
    ensures UnitHeading(RouteModel.MadeSweep(kit.gauge, shape, model, route, ell).pts[i])
  {
    hide RouteModel.SamplesOf, RouteModel.BuiltRoute, ChunksOf, BoxOf, UnitVector;
  }

  lemma SampleIsBoxed(st: Station, id: Id, v: nat, i: nat)
    requires Turns.Sound(st, st) && id in st.bodies && st.bodies[id].HasPlan()
    requires var p := st.bodies[id].reservation.plan; v < |p.sets| && i < |p.sets[v].pts|
    ensures Boxed(st.bodies[id].shape, st.bodies[id].reservation.plan.sets[v].pts[i])
    ensures forall k :: 0 <= k < |st.world.statics| ==>
              |st.world.statics[k].verts| > 0 && st.world.statics[k].box == BoxOf(st.world.statics[k].verts)
  {
    hide Boxed, PrefixEnds, ChunksCover, BoxOf;
    assert WellFormedBody(st.bodies[id]);
  }
}
