/** The whole system as it is built: executors, the coordinator with the planner it owns, and the
    letters it has sent. It is shown to implement the fleet: whatever the coordinator does in one step
    is a sequence of the fleet's own events, in which every report was heard and every letter is a
    decision that was made. So everything that is proved of the fleet holds of this system. */
module FleetCoordinator {
  import opened ResetProtocol
  import opened Bodies
  import opened PlannerModel
  import opened Reservations
  import opened PlannerOut
  import opened PlannerTurn
  import opened PlannerRuns
  import opened CoordinatorModel
  import opened CoordinatorWire
  import opened Coordinator
  import opened Fleet
  import StationOutbox
  import StalledExtension
  import Sweep
  import Ex = ExecutorModel
  import Runs = ExecutorRuns

  // ---------------------------------------------------------------- runs of the station's side

  /** Only acts of the planner and words of the coordinator. */
  ghost predicate ServesIn(n: nat, f: State, g: State) {
    if n == 0 then g == f
    else exists m, ev: Event :: ServesIn(n - 1, f, m) && !ev.VehicleDoes? && StationInv(m.st) && Possible(m, ev)
                         && g == Next(m, ev)
  }

  ghost predicate Serves(f: State, g: State) { exists n: nat :: ServesIn(n, f, g) }

  lemma ServesItself(f: State)
    ensures Serves(f, f)
  {
    assert ServesIn(0, f, f);
  }

  lemma ServesMore(f: State, m: State, ev: Event)
    requires Serves(f, m) && !ev.VehicleDoes? && StationInv(m.st) && Possible(m, ev)
    ensures Serves(f, Next(m, ev))
  {
    hide StationInv, Possible, Next;
    var n: nat :| ServesIn(n, f, m);
    assert ServesIn(n + 1, f, Next(m, ev));
  }

  /** What was said stays said; vehicles and Sessions are as before. */
  ghost predicate Keeps(f: State, g: State) {
    g.execs == f.execs && g.sessions == f.sessions && f.decisions <= g.decisions
  }

  lemma EventServes(f: State, ev: Event)
    requires StationInv(f.st) && Possible(f, ev) && !ev.VehicleDoes?
    ensures Keeps(f, Next(f, ev))
  {
    hide StationInv, Enabled, Do, Heard, Installed;
  }

  lemma {:induction false} ReachesOnIn(f0: State, evs: seq<Event>, f: State, n: nat, g: State)
    returns (more: seq<Event>)
    requires Reachable(f0, evs, f) && ServesIn(n, f, g)
    ensures Reachable(f0, more, g) && Keeps(f, g)
    decreases n
  {
    hide StationInv, Possible, Next;
    if n == 0 {
      more := evs;
    } else {
      var m, ev: Event :| ServesIn(n - 1, f, m) && !ev.VehicleDoes? && StationInv(m.st) && Possible(m, ev)
                          && g == Next(m, ev);
      var before := ReachesOnIn(f0, evs, f, n - 1, m);
      EventServes(m, ev);
      more := before + [ev];
      assert more[..|more| - 1] == before;
    }
  }

  /** A run of the fleet goes on with whatever the station's side does. */
  lemma RunGoesOn(f0: State, evs: seq<Event>, f: State, g: State) returns (more: seq<Event>)
    requires Reachable(f0, evs, f) && Serves(f, g)
    ensures Reachable(f0, more, g) && Keeps(f, g)
  {
    hide ServesIn, Reachable, Keeps;
    var n: nat :| ServesIn(n, f, g);
    more := ReachesOnIn(f0, evs, f, n, g);
  }

  // ---------------------------------------------------------------- the planner's update

  /** The fleet has the planner's view, and what the planner has just said was said. */
  ghost predicate Shows(f: State, st: Station) {
    f.st == st.(out := []) && forall d :: d in st.out ==> d in f.decisions
  }

  lemma ActServes(f: State, st: Station, act: Act) returns (g: State)
    requires Shows(f, st) && StationInv(st) && Enabled(st, act) && !act.Flush? && (act.Sync? ==> Heard(f, act.v))
    ensures StationInv(f.st) && Possible(f, StationDoes(act)) && g == Next(f, StationDoes(act))
    ensures Shows(g, Do(st, act))
  {
    EnabledFlushed(st, act);
    StationOutbox.ActsLate(st.out, f.st, act);
    hide StationInv, Enabled, Do, Heard, Installed;
    assert StationOutbox.Later(st.out, f.st) == st;
    g := Next(f, StationDoes(act));
  }

  lemma EnabledFlushed(st: Station, act: Act)
    requires StationInv(st) && Enabled(st, act)
    ensures StationInv(st.(out := [])) && Enabled(st.(out := []), act)
  {
    StationOutbox.LaterIsGood([], st);
    hide StationInv, Enabled;
    assert StationOutbox.Later(st.out, st.(out := [])) == st;
    StationOutbox.EnabledLater(st.out, st.(out := []), act);
  }

  lemma ReportServes(f: State, st: Station, v: Vehicle) returns (g: State)
    requires Shows(f, st) && StationInv(st) && Heard(f, v)
    ensures StationInv(f.st) && Possible(f, StationDoes(Sync(v))) && g == Next(f, StationDoes(Sync(v)))
    ensures Shows(g, SyncVehicle(st, v))
  {
    hide WellFormedBody, GoodWorld, KitShaped, SyncVehicle, Heard, Shows, GoodKit;
    g := ActServes(f, st, Sync(v));
  }

  ghost predicate AllHeard(f: State, vs: seq<Vehicle>) { forall k :: 0 <= k < |vs| ==> Heard(f, vs[k]) }

  lemma StillHeard(f: State, g: State, vs: seq<Vehicle>)
    requires AllHeard(f, vs) && Keeps(f, g)
    ensures AllHeard(g, vs)
  {
  }

  /** A run of the planner, in which only these reports are heard, is a run of the fleet. */
  lemma {:induction false} RunServes(vs: seq<Vehicle>, n: nat, base: Station, st: Station, f: State) returns (g: State)
    requires Leads(vs, n, base, st) && Shows(f, base) && AllHeard(f, vs)
    ensures Serves(f, g) && Shows(g, st) && Keeps(f, g)
    decreases n
  {
    hide StationInv, Acts, ActStep, Enabled, Do, SyncVehicle, Possible, Next, Shows, AllHeard;
    if n == 0 {
      ServesItself(f);
      g := f;
    } else {
      var mid :| Leads(vs, n - 1, base, mid) && StationInv(mid) && Acts(vs, mid, st);
      var m := RunServes(vs, n - 1, base, mid, f);
      StillHeard(f, m, vs);
      var ev: Event;
      if st == mid {
        g := m;
        return;
      } else if ActStep(mid, st) {
        var act := TheAct(mid, st);
        g := ActServes(m, mid, act);
        ev := StationDoes(act);
      } else {
        var k := TheReport(vs, mid, st);
        HeardAt(m, vs, k);
        g := ReportServes(m, mid, vs[k]);
        ev := StationDoes(Sync(vs[k]));
      }
      ServesMore(f, m, ev);
      EventServes(m, ev);
    }
  }

  lemma HeardAt(f: State, vs: seq<Vehicle>, k: nat)
    requires AllHeard(f, vs) && k < |vs|
    ensures Heard(f, vs[k])
  {
  }

  // ---------------------------------------------------------------- the Sessions

  /** What the coordinator knows of each vehicle it was told by that vehicle. */
  ghost predicate EntriesHeard(f: State, entries: map<Id, Entry>) {
    forall name :: name in entries ==> EntryInv(name, entries[name]) && (name, entries[name].session) in f.sessions
  }

  lemma SessionIsHeard(f: State, entries: map<Id, Entry>, vehicle: Id, s: Session, now: real)
    requires EntriesHeard(f, entries) && (vehicle, s) in f.sessions
    ensures EntriesHeard(f, OnSession(entries, vehicle, s, now))
  {
    EntriesStayGood(if vehicle in entries then entries[vehicle] else FirstEntry(vehicle, s, now), vehicle, s, now);
    hide EntryInv, ValidSpec, Dist2;
  }

  lemma VehicleIsHeard(f: State, cfg: CoordinatorConfig, entries: map<Id, Entry>, name: Id, now: real)
    requires EntriesHeard(f, entries) && name in entries
    ensures Heard(f, VehicleOf(cfg, name, entries[name], now))
  {
    hide EntryInv;
    var v, s := VehicleOf(cfg, name, entries[name], now), entries[name].session;
    ReportsCarrySessions(cfg, name, entries[name], now);
    assert (v.id, s) in f.sessions && Conveys(v, s);
  }

  /** Every report of a step was heard. */
  lemma {:induction false} VehiclesAreHeard(f: State, cfg: CoordinatorConfig, entries: map<Id, Entry>,
                                            names: seq<Id>, now: real)
    requires EntriesHeard(f, entries)
    ensures AllHeard(f, Vehicles(cfg, entries, names, now))
  {
    hide VehicleOf, EntryInv, EntriesHeard, Heard, Known;
    if names != [] {
      var name := names[|names| - 1];
      VehiclesAreHeard(f, cfg, entries, names[..|names| - 1], now);
      if name in entries { VehicleIsHeard(f, cfg, entries, name, now); }
    }
  }

  // ---------------------------------------------------------------- the letters

  /** Whatever was sent, or would be repeated, is a decision that was made. */
  ghost predicate Made(f: State, entries: map<Id, Entry>, out: seq<Sent>) {
    && (forall i :: 0 <= i < |out| ==> Delivered(f, out[i].to, out[i].grant))
    && (forall name :: name in entries && entries[name].last.Some? ==>
          Delivered(f, name, entries[name].last.value.grant))
  }

  lemma StillMade(f: State, g: State, entries: map<Id, Entry>, out: seq<Sent>)
    requires Made(f, entries, out) && f.decisions <= g.decisions
    ensures Made(g, entries, out)
  {
    forall i | 0 <= i < |out| ensures Delivered(g, out[i].to, out[i].grant) {
      assert Delivered(f, out[i].to, out[i].grant);
    }
    forall name | name in entries && entries[name].last.Some?
      ensures Delivered(g, name, entries[name].last.value.grant)
    {
      assert Delivered(f, name, entries[name].last.value.grant);
    }
  }

  /** Where a step has got to: the fleet stands at the same id, and every letter so far is backed. */
  ghost predicate Backs(f: State, o: Office) { !o.halted ==> f.st.next == o.next && Made(f, o.entries, o.out) }

  lemma SendIsBacked(f: State, cfg: CoordinatorConfig, o: Office, name: Id, g: Grant, now: real)
    requires Backs(f, o) && name in o.entries && (!o.halted ==> Delivered(f, name, g))
    ensures Backs(f, Send(cfg, o, name, g, now)) && (o.halted ==> Send(cfg, o, name, g, now).halted)
  {
    hide Delivered;
    if !o.halted && o.entries[name].nextPublication < UINT32_MAX {
      var e := SentEntry(cfg, o.entries[name], g, now);
      Resent(f, name, g, e.last.value.grant);
    }
  }

  lemma Resent(f: State, name: Id, g: Grant, h: Grant)
    requires Delivered(f, name, g) && h == g.(publication := h.publication, ttl := h.ttl)
    ensures Delivered(f, name, h)
  {
    var d :| d in f.decisions && d.id == name && Carries(g, d);
    assert Carries(h, d);
  }

  /** The coordinator's own decision: an event of the fleet. */
  lemma SendNewServes(f: State, cfg: CoordinatorConfig, o: Office, name: Id, state: GrantState,
                      reason: Reason, detail: string, now: real) returns (g: State)
    requires Backs(f, o) && name in o.entries && (state == GrantState.Hold || state.Reject?) && StationInv(f.st)
    ensures Serves(f, g) && Keeps(f, g) && g.st == f.st.(next := g.st.next) && StationInv(g.st)
    ensures Backs(g, SendNew(cfg, o, name, state, reason, detail, now))
    ensures o.halted ==> SendNew(cfg, o, name, state, reason, detail, now).halted
  {
    ServesItself(f);
    g := f;
    if !o.halted && o.next < UINT32_MAX {
      var s := o.entries[name].session;
      var d := Decision(name, s.session, s.generation, state, o.next, NO_ROUTE, 0.0, reason, detail, []);
      g := Says(f, d);
      StillMade(f, g, o.entries, o.out);
      var grant := Grant(s.generation, 0, cfg.ttl, s.session, state, o.next, NO_ROUTE, 0.0, reason, detail, []);
      assert Carries(grant, d) && Delivered(g, name, grant);
      SendIsBacked(g, cfg, o.(next := o.next + 1), name, grant, now);
    }
    hide StationInv, Made, Send;
  }

  lemma Says(f: State, d: Decision) returns (g: State)
    requires (d.state == GrantState.Hold || d.state.Reject?) && d.grantId == f.st.next && f.st.next < UINT32_MAX
    requires StationInv(f.st)
    ensures Serves(f, g) && Keeps(f, g) && g.st == f.st.(next := f.st.next + 1) && StationInv(g.st)
    ensures d in g.decisions
  {
    hide WellFormedBody, GoodWorld, KitShaped, GoodKit, Serves, Enabled;
    ServesItself(f);
    ServesMore(f, f, CoordinatorSays(d));
    EventServes(f, CoordinatorSays(d));
    g := Next(f, CoordinatorSays(d));
  }

  lemma ServesOn(f: State, m: State, n: nat, g: State)
    requires Serves(f, m) && ServesIn(n, m, g)
    ensures Serves(f, g)
    decreases n
  {
    hide StationInv, Possible, Next;
    if n > 0 {
      var k, ev: Event :| ServesIn(n - 1, m, k) && !ev.VehicleDoes? && StationInv(k.st) && Possible(k, ev)
                          && g == Next(k, ev);
      ServesOn(f, m, n - 1, k);
      ServesMore(f, k, ev);
    }
  }

  lemma ServesAll(f: State, m: State, g: State)
    requires Serves(f, m) && Serves(m, g) && Keeps(f, m) && Keeps(m, g)
    ensures Serves(f, g) && Keeps(f, g)
  {
    var n: nat :| ServesIn(n, m, g);
    ServesOn(f, m, n, g);
  }

  /** The fleet after some letters: the same station but for its next id. */
  ghost predicate TalksFrom(f: State, g: State) {
    Serves(f, g) && Keeps(f, g) && g.st == f.st.(next := g.st.next) && StationInv(g.st)
  }

  lemma TalksOn(f: State, m: State, g: State)
    requires TalksFrom(f, m) && TalksFrom(m, g)
    ensures TalksFrom(f, g)
  {
    ServesAll(f, m, g);
    hide Serves, StationInv;
  }

  lemma HoldServes(f: State, cfg: CoordinatorConfig, o: Office, bodies: map<Id, Body>, scene: bool,
                   name: Id, now: real) returns (g: State)
    requires Backs(f, o) && StationInv(f.st)
    ensures TalksFrom(f, g) && Backs(g, HoldOne(cfg, o, bodies, scene, name, now))
    ensures o.halted ==> HoldOne(cfg, o, bodies, scene, name, now).halted
  {
    hide SendNew, Participant, Backs, StationInv, WasSent;
    ServesItself(f);
    g := f;
    if HoldOne(cfg, o, bodies, scene, name, now) != o {
      g := SendNewServes(f, cfg, o, name, GrantState.Hold, if scene then WaitingForPeer else SceneUnavailable,
                         if scene then NO_SCOPE else NO_SCENE, now);
    }
  }

  lemma {:induction false} HoldsServe(f: State, cfg: CoordinatorConfig, o: Office, bodies: map<Id, Body>,
                                      scene: bool, names: seq<Id>, now: real) returns (g: State)
    requires Backs(f, o) && StationInv(f.st)
    ensures TalksFrom(f, g) && Backs(g, HoldAll(cfg, o, bodies, scene, names, now))
    decreases |names|
  {
    hide HoldOne, Backs, StationInv;
    ServesItself(f);
    g := f;
    if names != [] {
      var m := HoldsServe(f, cfg, o, bodies, scene, names[..|names| - 1], now);
      g := HoldServes(m, cfg, HoldAll(cfg, o, bodies, scene, names[..|names| - 1], now), bodies, scene,
                      names[|names| - 1], now);
      TalksOn(f, m, g);
    }
  }

  lemma BeatServes(f: State, cfg: CoordinatorConfig, o: Office, name: Id, now: real) returns (g: State)
    requires Backs(f, o) && StationInv(f.st)
    ensures TalksFrom(f, g) && Backs(g, BeatOne(cfg, o, name, now))
  {
    hide Send, SendNew, Participant, Lost, Outside, StationInv, WasSent, Pending, Due;
    ServesItself(f);
    g := f;
    if BeatOne(cfg, o, name, now) != o {
      var e := o.entries[name];
      if e.last.Some? && !o.halted { assert Delivered(f, name, e.last.value.grant); }
      if e.last.Some? { SendIsBacked(f, cfg, o, name, e.last.value.grant, now); }
      if !(e.last.Some? && BeatOne(cfg, o, name, now) == Send(cfg, o, name, e.last.value.grant, now)) {
        g := SendNewServes(f, cfg, o, name, Reject, BadSession, if e.bad.Some? then e.bad.value else NOT_IN_SCOPE, now);
      }
    }
    hide Backs;
  }

  lemma {:induction false} BeatsServe(f: State, cfg: CoordinatorConfig, o: Office, names: seq<Id>, now: real)
    returns (g: State)
    requires Backs(f, o) && StationInv(f.st)
    ensures TalksFrom(f, g) && Backs(g, BeatAll(cfg, o, names, now))
    decreases |names|
  {
    hide BeatOne, Backs, StationInv;
    ServesItself(f);
    g := f;
    if names != [] {
      var m := BeatsServe(f, cfg, o, names[..|names| - 1], now);
      g := BeatServes(m, cfg, BeatAll(cfg, o, names[..|names| - 1], now), names[|names| - 1], now);
      TalksOn(f, m, g);
    }
  }

  /** The planner's decisions need no event of their own: they were said in its update. */
  lemma {:induction false} DecisionsAreBacked(f: State, cfg: CoordinatorConfig, o: Office, ds: seq<Decision>, now: real)
    requires Backs(f, o) && forall d :: d in ds ==> d in f.decisions
    ensures Backs(f, DecideAll(cfg, o, ds, now))
  {
    hide Send, Backs, Matches;
    if ds != [] {
      var mid, d := DecideAll(cfg, o, ds[..|ds| - 1], now), ds[|ds| - 1];
      DecisionsAreBacked(f, cfg, o, ds[..|ds| - 1], now);
      if d.id in mid.entries {
        assert Carries(GrantOf(cfg, d), d) && Delivered(f, d.id, GrantOf(cfg, d));
        SendIsBacked(f, cfg, mid, d.id, GrantOf(cfg, d), now);
      }
    }
  }

  lemma LettersServe(f: State, cfg: CoordinatorConfig, entries: map<Id, Entry>, names: seq<Id>, after: Station,
                     scene: bool, admit: bool, now: real) returns (g: State)
    requires Shows(f, after) && StationInv(f.st) && Made(f, entries, [])
    ensures TalksFrom(f, g)
    ensures Backs(g, Letters(cfg, entries, names, after.next, after.out, after.bodies, after.order, scene, admit, now))
  {
    hide DecideAll, HoldAll, BeatAll, StationInv, Made;
    var o := Office(entries, after.next, [], false);
    DecisionsAreBacked(f, cfg, o, after.out, now);
    var o1 := DecideAll(cfg, o, after.out, now);
    ServesItself(f);
    hide Backs;
    var m := f;
    if !admit { m := HoldsServe(f, cfg, o1, after.bodies, scene, after.order, now); }
    var o2 := if admit then o1 else HoldAll(cfg, o1, after.bodies, scene, after.order, now);
    g := BeatsServe(m, cfg, o2, names, now);
    TalksOn(f, m, g);
  }

  // ---------------------------------------------------------------- the composed system

  /** Vehicles and their Sessions; the planner's view, and what the coordinator keeps; all letters. */
  datatype System = System(execs: map<Id, Ex.Exec>, sessions: set<(Id, Session)>, st: Station,
                           entries: map<Id, Entry>, names: seq<Id>, wire: seq<Sent>)

  datatype Happening =
    | VehicleActs(id: Id, op: Runs.Op)
    | SessionArrives(id: Id, s: Session, now: real)
    | WorldChanges(world: Sweep.World)
    | StationSteps(c: Clock, scene: bool, moves: seq<Move>, answers: Answers, after: Station, o: Office)

  /** Any letter may arrive at its vehicle and any Session at the station, at any time, in any order,
      any number of times or never. */
  ghost predicate Can(cfg: CoordinatorConfig, w: System, h: Happening) {
    match h
    case VehicleActs(id, op) =>
      && id in w.execs && Runs.Allowed(w.execs[id], op) && Runs.NumbersOn(w.execs[id], op)
      && (op.GrantOp? ==> Sent(id, op.g) in w.wire)
    case SessionArrives(id, s, _) => (id, s) in w.sessions
    case WorldChanges(world) => GoodWorld(world)
    case StationSteps(c, scene, moves, answers, after, o) =>
      StepOf(cfg, w.entries, w.names, w.st, c, scene, moves, answers, after, o)
  }

  ghost function Then(cfg: CoordinatorConfig, w: System, h: Happening): System
    requires Can(cfg, w, h)
  {
    match h
    case VehicleActs(id, op) =>
      w.(execs := w.execs[id := Runs.Apply(w.execs[id], op)],
         sessions := if op.PublishOp? then w.sessions + {(id, Ex.MakeSession(w.execs[id], op.m))} else w.sessions)
    case SessionArrives(id, s, now) =>
      w.(entries := OnSession(w.entries, id, s, now),
         names := if id in w.entries then w.names else InsertId(w.names, id))
    case WorldChanges(world) => w.(st := w.st.(world := world, worldChanged := true, dirty := true))
    case StationSteps(c, _, _, _, after, o) =>
      w.(st := after.(out := [], next := o.next), entries := o.entries, wire := w.wire + o.out)
  }

  ghost predicate Starts(w: System) {
    && w.st.cfg.holdMargin > 0.000000001 && Shaped(w.st) && GoodWorld(w.st.world)
    && w.st == EmptyStation(w.st.cfg, w.st.kit, w.st.world)
    && w.sessions == {} && w.entries == map[] && w.names == [] && w.wire == []
    && forall id :: id in w.execs ==> w.execs[id] == Ex.Fresh(w.execs[id].cfg, w.execs[id].spec)
  }

  /** The system comes to w by these happenings. */
  ghost predicate Comes(cfg: CoordinatorConfig, w0: System, hs: seq<Happening>, w: System)
    decreases |hs|, 0
  {
    if hs == [] then Starts(w0) && w == w0
    else ComesBy(cfg, w0, hs[..|hs| - 1], hs[|hs| - 1], w)
  }

  ghost predicate ComesBy(cfg: CoordinatorConfig, w0: System, before: seq<Happening>, h: Happening, w: System)
    decreases |before|, 1
  {
    exists v :: Comes(cfg, w0, before, v) && Can(cfg, v, h) && w == Then(cfg, v, h)
  }

  /** The fleet stands for the system: same vehicles, same Sessions, same planner, and every letter is
      a decision the fleet has made. */
  ghost predicate StandsFor(f: State, w: System) {
    && f.execs == w.execs && f.sessions == w.sessions && f.st == w.st
    && EntriesHeard(f, w.entries) && Made(f, w.entries, w.wire)
  }

  /** What the station keeps between its steps. */
  ghost predicate AtRest(cfg: CoordinatorConfig, w: System) {
    w.st.out == [] && Sound(w.st, w.st) && StationSound(cfg, w.st, w.entries, w.names, w.wire)
  }

  lemma StartIsAtRest(cfg: CoordinatorConfig, w: System, f: State)
    requires Starts(w) && f == State(w.execs, w.st, {}, {}, [])
    ensures Initial(f) && StandsFor(f, w) && AtRest(cfg, w)
  {
  }

  lemma VehicleStands(cfg: CoordinatorConfig, w: System, f: State, id: Id, op: Runs.Op)
    requires StandsFor(f, w) && AtRest(cfg, w) && Can(cfg, w, VehicleActs(id, op))
    ensures StationInv(f.st) && Possible(f, VehicleDoes(id, op))
    ensures StandsFor(Next(f, VehicleDoes(id, op)), Then(cfg, w, VehicleActs(id, op)))
  {
    hide StationSound, PairwiseDisjoint, Speaks, Runs.Apply, EntryInv, Runs.Allowed, WellFormedBody, GoodWorld;
    if op.GrantOp? {
      var i :| 0 <= i < |w.wire| && w.wire[i] == Sent(id, op.g);
      assert Delivered(f, w.wire[i].to, w.wire[i].grant);
    }
    StillMade(f, Next(f, VehicleDoes(id, op)), w.entries, w.wire);
  }

  lemma WorldStands(cfg: CoordinatorConfig, w: System, f: State, world: Sweep.World)
    requires StandsFor(f, w) && AtRest(cfg, w) && GoodWorld(world)
    ensures StationInv(f.st) && Possible(f, StationDoes(SetWorld(world)))
    ensures var v := Then(cfg, w, WorldChanges(world));
            StandsFor(Next(f, StationDoes(SetWorld(world))), v) && AtRest(cfg, v)
  {
    assert StationInv(f.st);
    ActIsSound(w.st, w.st, SetWorld(world));
    FlushIsSound(w.st, Do(w.st, SetWorld(world)));
    hide Sound, StationInv, WireInv, Agrees, TtlInv, EntryInv, GoodWorld;
    StillMade(f, Next(f, StationDoes(SetWorld(world))), w.entries, w.wire);
  }

  lemma SessionStands(cfg: CoordinatorConfig, w: System, f: State, id: Id, s: Session, now: real)
    requires StandsFor(f, w) && AtRest(cfg, w) && (id, s) in w.sessions
    ensures var v := Then(cfg, w, SessionArrives(id, s, now)); StandsFor(f, v) && AtRest(cfg, v)
  {
    hide StationSound, Sound, OnSession, EntriesHeard, Made;
    SessionKeepsStation(cfg, w.st, w.entries, w.names, w.wire, id, s, now);
    SessionIsHeard(f, w.entries, id, s, now);
    SessionKeepsMade(f, w.entries, w.wire, id, s, now);
  }

  lemma SessionKeepsMade(f: State, entries: map<Id, Entry>, wire: seq<Sent>, id: Id, s: Session, now: real)
    requires Made(f, entries, wire)
    ensures Made(f, OnSession(entries, id, s, now), wire)
  {
    hide Delivered, Complaint, ValidSpec, Dist2;
  }

  /** A later id keeps the station sound. */
  lemma NextIsSound(st: Station, next: nat)
    requires Sound(st, st) && st.next <= next && st.out == []
    ensures Sound(st.(next := next), st.(next := next))
  {
    hide WellFormedBody, GoodWorld, KitShaped, GoodKit, SweepsDisjoint, LiveCertified;
    var later := st.(next := next);
    assert StationInv(later);
    assert PairwiseDisjoint(later);
  }

  lemma EntriesStayHeard(f: State, g: State, entries: map<Id, Entry>, entries': map<Id, Entry>)
    requires EntriesHeard(f, entries) && SameSessions(entries, entries') && g.sessions == f.sessions
    ensures EntriesHeard(g, entries')
  {
    hide Complaint;
    forall name | name in entries'
      ensures EntryInv(name, entries'[name]) && (name, entries'[name].session) in g.sessions
    {
      assert name in entries'.Keys;
      assert EntryInv(name, entries[name]);
    }
  }

  /** One step of the coordinator is a run of the fleet: every report was heard, every letter is a
      decision that was made, and in the end the fleet has the planner's new view. */
  lemma StepRefines(cfg: CoordinatorConfig, w: System, f: State, h: Happening) returns (g: State)
    requires StandsFor(f, w) && AtRest(cfg, w) && h.StationSteps? && Can(cfg, w, h)
    ensures Serves(f, g) && Keeps(f, g)
    ensures StandsFor(g, Then(cfg, w, h)) && AtRest(cfg, Then(cfg, w, h))
  {
    hide Sound, StationSound, Letters, Updates, EntriesHeard, Made, Serves, StationInv, Vehicles, ScopeReady;
    var after, o, now := h.after, h.o, h.c.now;
    var admit := h.scene && ScopeReady(cfg, w.entries);
    var vs := Vehicles(cfg, w.entries, w.names, now);
    var m := UpdateRefines(cfg, w, f, vs, h.c, admit, h.moves, h.answers, after);
    StillMade(f, m, w.entries, w.wire);
    MadeBefore(m, w.entries, w.wire);
    g := LettersServe(m, cfg, w.entries, w.names, after, h.scene, admit, now);
    StillMade(m, g, w.entries, w.wire);
    ServesAll(f, m, g);
    MadeJoins(g, w.entries, w.wire, o);
    LettersKeepSessions(cfg, w.entries, w.names, after.next, after.out, after.bodies, after.order, h.scene, admit, now);
    EntriesStayHeard(f, g, w.entries, o.entries);
    StepRests(cfg, w, vs, h.c, h.scene, admit, h.moves, h.answers, after, o);
  }

  lemma MadeBefore(f: State, entries: map<Id, Entry>, wire: seq<Sent>)
    requires Made(f, entries, wire)
    ensures Made(f, entries, [])
  {
    hide Delivered;
  }

  lemma MadeJoins(g: State, entries: map<Id, Entry>, wire: seq<Sent>, o: Office)
    requires Made(g, entries, wire) && Made(g, o.entries, o.out)
    ensures Made(g, o.entries, wire + o.out)
  {
    hide Delivered;
  }

  lemma UpdateRefines(cfg: CoordinatorConfig, w: System, f: State, vs: seq<Vehicle>, c: Clock, admit: bool,
                      moves: seq<Move>, answers: Answers, after: Station) returns (m: State)
    requires StandsFor(f, w) && AtRest(cfg, w) && vs == Vehicles(cfg, w.entries, w.names, c.now)
    requires Updates(w.st, vs, c, admit, moves, answers, after)
    ensures Serves(f, m) && Keeps(f, m) && Shows(m, after) && StationInv(m.st)
  {
    hide StationSound, Sound, Updates, Vehicles, EntriesHeard, Made, StationInv, AllHeard, Leads;
    UpdateIsARun(w.st, vs, c, admit, moves, answers, after);
    VehiclesAreHeard(f, cfg, w.entries, w.names, c.now);
    var n: nat :| Leads(vs, n, w.st, after);
    m := RunServes(vs, n, w.st, after, f);
    SoundFlushed(w.st, after);
  }

  lemma SoundFlushed(base: Station, st: Station)
    requires Sound(base, st)
    ensures StationInv(st.(out := [])) && Sound(st.(out := []), st.(out := []))
  {
    FlushIsSound(base, st);
    hide PairwiseDisjoint, Speaks, StationInv;
  }

  lemma StepRests(cfg: CoordinatorConfig, w: System, vs: seq<Vehicle>, c: Clock, scene: bool, admit: bool,
                  moves: seq<Move>, answers: Answers, after: Station, o: Office)
    requires AtRest(cfg, w) && vs == Vehicles(cfg, w.entries, w.names, c.now)
    requires Updates(w.st, vs, c, admit, moves, answers, after) && !after.halted && !o.halted
    requires o == Letters(cfg, w.entries, w.names, after.next, after.out, after.bodies, after.order, scene,
                          admit, c.now)
    ensures var st := after.(out := [], next := o.next);
            Sound(st, st) && StationSound(cfg, st, o.entries, w.names, w.wire + o.out)
    ensures !admit ==> NoGo(o.out)
  {
    UpdateIsARun(w.st, vs, c, admit, moves, answers, after);
    SoundFlushed(w.st, after);
    StationReports(cfg, w.st, w.entries, w.names, w.wire, c.now);
    TimelyReports(w.entries, w.names, vs, w.st.bodies);
    UpdateFacts(w.st, vs, c, admit, moves, answers, after);
    if !admit { StalledExtension.NoGoWithoutAdmissionHere(w.st, vs, c, moves, answers, after); }
    hide Sound, Updates, Vehicles, Letters, ReportsOf, GoFree, Still, NoGo;
    assert UpdateOf(w.st.(out := []), after, vs);
    IdsRise(w.st, after, vs);
    StepKeepsStation(cfg, w.wire, w.entries, w.names, vs, w.st, after, scene, admit, c.now);
    hide UpdateOf;
    NextIsSound(after.(out := []), o.next);
    FlushedStationSound(cfg, after.(next := o.next), o.entries, w.names, w.wire + o.out);
  }

  lemma IdsRise(base: Station, after: Station, vs: seq<Vehicle>)
    requires UpdateOf(base, after, vs)
    ensures base.next <= after.next
  {
  }

  lemma FlushedStationSound(cfg: CoordinatorConfig, st: Station, entries: map<Id, Entry>, names: seq<Id>,
                            wire: seq<Sent>)
    requires StationSound(cfg, st, entries, names, wire)
    ensures StationSound(cfg, st.(out := []), entries, names, wire)
  {
    hide WireInv, Agrees, TtlInv, EntryInv, Listed, RequestsInStep;
  }

  lemma HappeningRefines(cfg: CoordinatorConfig, w: System, f: State, f0: State, evs: seq<Event>, h: Happening)
    returns (g: State, more: seq<Event>)
    requires StandsFor(f, w) && AtRest(cfg, w) && Reachable(f0, evs, f) && Can(cfg, w, h)
    ensures StandsFor(g, Then(cfg, w, h)) && AtRest(cfg, Then(cfg, w, h)) && Reachable(f0, more, g)
  {
    hide StandsFor, AtRest, StationInv, Possible, Next, Serves, Keeps, StepOf, GoodWorld, Runs.Apply, OnSession;
    match h
    case VehicleActs(id, op) =>
      VehicleStands(cfg, w, f, id, op);
      g, more := Next(f, VehicleDoes(id, op)), evs + [VehicleDoes(id, op)];
      assert more[..|more| - 1] == evs;
      VehicleRests(cfg, w, id, op);
    case WorldChanges(world) =>
      WorldStands(cfg, w, f, world);
      g, more := Next(f, StationDoes(SetWorld(world))), evs + [StationDoes(SetWorld(world))];
      assert more[..|more| - 1] == evs;
    case SessionArrives(id, s, now) =>
      SessionStands(cfg, w, f, id, s, now);
      g, more := f, evs;
    case StationSteps(_, _, _, _, _, _) =>
      g := StepRefines(cfg, w, f, h);
      more := RunGoesOn(f0, evs, f, g);
  }

  lemma VehicleRests(cfg: CoordinatorConfig, w: System, id: Id, op: Runs.Op)
    requires AtRest(cfg, w) && Can(cfg, w, VehicleActs(id, op))
    ensures AtRest(cfg, Then(cfg, w, VehicleActs(id, op)))
  {
    hide Sound, StationSound, Runs.Apply;
  }

  /** The composed system implements the fleet: for every run of it there is a run of the fleet that
      ends with the same vehicles, Sessions and planner, and in which every letter was decided. */
  lemma {:induction false} SystemIsAFleet(cfg: CoordinatorConfig, w0: System, hs: seq<Happening>, w: System)
    returns (f0: State, evs: seq<Event>, f: State)
    requires Comes(cfg, w0, hs, w)
    ensures Reachable(f0, evs, f) && StandsFor(f, w) && AtRest(cfg, w)
    decreases |hs|
  {
    hide Can, Then, StandsFor, AtRest, Initial;
    if hs == [] {
      f0, evs, f := State(w.execs, w.st, {}, {}, []), [], State(w.execs, w.st, {}, {}, []);
      StartIsAtRest(cfg, w, f);
    } else {
      var v :| Comes(cfg, w0, hs[..|hs| - 1], v) && Can(cfg, v, hs[|hs| - 1]) && w == Then(cfg, v, hs[|hs| - 1]);
      var f1, evs1;
      f0, evs1, f1 := SystemIsAFleet(cfg, w0, hs[..|hs| - 1], v);
      f, evs := HappeningRefines(cfg, v, f1, f0, evs1, hs[|hs| - 1]);
    }
  }
}
