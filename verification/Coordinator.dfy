/** The coordinator object (reset_coordinator.cpp): Sessions in, Grants out. Its entries and the
    planner it owns are updated in place; `wire` is everything it has ever sent. */
module Coordinator {
  import opened ResetProtocol
  import opened Bodies
  import opened PlannerModel
  import opened PlannerOut
  import opened PlannerTurn
  import opened PlannerRuns
  import opened PlannerCurrent
  import opened CoordinatorModel
  import opened CoordinatorWire
  import P = Planner
  import R = Reservations
  import Sweep

  /** What the station keeps between its turns. */
  ghost predicate StationSound(cfg: CoordinatorConfig, st: Station, entries: map<Id, Entry>,
                               names: seq<Id>, wire: seq<Sent>)
  {
    && WireInv(wire, entries, st.next) && TtlInv(cfg, entries) && Agrees(entries, st.bodies)
    && Listed(entries, names) && RequestsInStep(entries, st.bodies) && DistinctNames(st.order)
    && (forall name :: name in entries ==> EntryInv(name, entries[name]))
  }

  ghost predicate Listed(entries: map<Id, Entry>, names: seq<Id>) {
    && (forall name :: name in entries <==> name in names)
    && DistinctNames(names)
  }

  /** The planner is never ahead of the Sessions. */
  ghost predicate RequestsInStep(entries: map<Id, Entry>, bodies: map<Id, Body>) {
    forall name :: name in bodies ==> name in entries && InStep(entries[name], bodies[name])
  }

  ghost predicate InStep(e: Entry, b: Body) {
    && b.generation <= e.session.generation
    && (b.generation == e.session.generation ==> b.session == e.session.session)
  }

  lemma InsertListed(entries: map<Id, Entry>, names: seq<Id>, name: Id, e: Entry)
    requires Listed(entries, names) && name !in entries
    ensures Listed(entries[name := e], InsertId(names, name))
  {
    InsertDistinct(names, name);
    var r := InsertId(names, name);
    forall o ensures o in entries[name := e] <==> o in r {
      assert o in r <==> o in names || o == name;
    }
  }

  lemma SessionStaysInStep(entries: map<Id, Entry>, bodies: map<Id, Body>, vehicle: Id, s: Session,
                           now: real)
    requires RequestsInStep(entries, bodies)
    ensures RequestsInStep(OnSession(entries, vehicle, s, now), bodies)
  {
    hide ValidSpec, Dist2;
  }

  lemma SessionKeepsAgreement(entries: map<Id, Entry>, bodies: map<Id, Body>, vehicle: Id, s: Session,
                              now: real)
    requires Agrees(entries, bodies)
    ensures Agrees(OnSession(entries, vehicle, s, now), bodies)
  {
    hide ValidSpec, Dist2;
    forall name | name in OnSession(entries, vehicle, s, now)
      ensures EntryAgrees(OnSession(entries, vehicle, s, now)[name], bodies, name)
    {
      if name in entries { assert EntryAgrees(entries[name], bodies, name); }
    }
  }

  /** A received Session keeps everything the station relies on. */
  lemma SessionKeepsStation(cfg: CoordinatorConfig, st: Station, entries: map<Id, Entry>,
                            names: seq<Id>, wire: seq<Sent>, vehicle: Id, s: Session, now: real)
    requires StationSound(cfg, st, entries, names, wire)
    ensures var entries' := OnSession(entries, vehicle, s, now);
            var names' := if vehicle in entries then names else InsertId(names, vehicle);
            StationSound(cfg, st, entries', names', wire)
  {
    hide ValidSpec, Dist2, WireInv, Agrees, RequestsInStep, FirstEntry, NextEntry, Fenced, EntryInv;
    SessionKeepsWire(wire, entries, st.next, vehicle, s, now);
    SessionStaysInStep(entries, st.bodies, vehicle, s, now);
    SessionKeepsAgreement(entries, st.bodies, vehicle, s, now);
    SessionKeepsEntries(cfg, entries, vehicle, s, now);
    if vehicle !in entries { InsertListed(entries, names, vehicle, FirstEntry(vehicle, s, now)); }
  }

  lemma SessionKeepsEntries(cfg: CoordinatorConfig, entries: map<Id, Entry>, vehicle: Id, s: Session,
                            now: real)
    requires TtlInv(cfg, entries) && forall name :: name in entries ==> EntryInv(name, entries[name])
    ensures var entries' := OnSession(entries, vehicle, s, now);
            TtlInv(cfg, entries') && forall name :: name in entries' ==> EntryInv(name, entries'[name])
  {
    hide ValidSpec, Dist2, EntryInv;
    if vehicle in entries { EntriesStayGood(entries[vehicle], vehicle, s, now); }
    else { EntriesStayGood(FirstEntry(vehicle, s, now), vehicle, s, now); }
  }

  // ---------------------------------------------------------------- the vehicles of one step

  function Vehicles(cfg: CoordinatorConfig, entries: map<Id, Entry>, names: seq<Id>, now: real):
    seq<Vehicle>
  {
    if names == [] then []
    else
      var name := names[|names| - 1];
      Vehicles(cfg, entries, names[..|names| - 1], now)
      + if name in entries && Known(entries[name]) then [VehicleOf(cfg, name, entries[name], now)]
        else []
  }

  /** Each known vehicle is reported once, with the request of its last Session. */
  ghost predicate ReportsOf(entries: map<Id, Entry>, names: seq<Id>, vs: seq<Vehicle>) {
    && DistinctVehicles(vs)
    && (forall k :: 0 <= k < |vs| ==>
          && vs[k].id in names && vs[k].id in entries
          && vs[k].generation == entries[vs[k].id].session.generation
          && vs[k].session == entries[vs[k].id].session.session)
  }

  lemma {:induction false} VehiclesAreReports(cfg: CoordinatorConfig, entries: map<Id, Entry>,
                                              names: seq<Id>, now: real)
    requires DistinctNames(names)
    ensures ReportsOf(entries, names, Vehicles(cfg, entries, names, now))
  {
    hide VehicleOf;
    if names != [] {
      VehiclesAreReports(cfg, entries, names[..|names| - 1], now);
      VehicleIsOf(cfg, names[|names| - 1], entries, now);
    }
  }

  lemma StationReports(cfg: CoordinatorConfig, st: Station, entries: map<Id, Entry>, names: seq<Id>,
                       wire: seq<Sent>, now: real)
    requires StationSound(cfg, st, entries, names, wire)
    ensures ReportsOf(entries, names, Vehicles(cfg, entries, names, now))
  {
    hide ReportsOf, Vehicles;
    VehiclesAreReports(cfg, entries, names, now);
  }

  lemma VehicleIsOf(cfg: CoordinatorConfig, name: Id, entries: map<Id, Entry>, now: real)
    ensures name in entries ==>
              var v := VehicleOf(cfg, name, entries[name], now);
              v.id == name && v.generation == entries[name].session.generation
              && v.session == entries[name].session.session
  {
  }

  /** What the planner hears of a vehicle carries the authority of its last Session: acknowledgement
      and certificate are the Session's, and an available vehicle is reported with the Session's own
      footprint. */
  lemma ReportsCarrySessions(cfg: CoordinatorConfig, name: Id, e: Entry, now: real)
    requires EntryInv(name, e)
    ensures var v := VehicleOf(cfg, name, e, now);
            && v.generation == e.session.generation && v.session == e.session.session
            && v.ack == e.session.ack && (v.certified ==> e.session.certified && v.available)
            && (v.available ==> v.spec == e.session.spec && v.pose == e.session.pose)
  {
    hide ValidSpec, Complaint;
  }

  // ---------------------------------------------------------------- the step as a function

  function Letters(cfg: CoordinatorConfig, entries: map<Id, Entry>, names: seq<Id>, next: nat,
                   ds: seq<Decision>, bodies: map<Id, Body>, order: seq<Id>, scene: bool, admit: bool,
                   now: real): Office
  {
    var o1 := DecideAll(cfg, Office(entries, next, [], false), ds, now);
    var o2 := if admit then o1 else HoldAll(cfg, o1, bodies, scene, order, now);
    BeatAll(cfg, o2, names, now)
  }

  /** The letters of a step keep the wire in order. */
  lemma LettersKeepWire(cfg: CoordinatorConfig, wire: seq<Sent>, entries: map<Id, Entry>,
                        names: seq<Id>, base: nat, next: nat, ds: seq<Decision>, bodies: map<Id, Body>,
                        order: seq<Id>, scene: bool, admit: bool, now: real)
    requires WireInv(wire, entries, base) && TtlInv(cfg, entries) && InOrder(base, next, ds)
    ensures var o := Letters(cfg, entries, names, next, ds, bodies, order, scene, admit, now);
            OfficeInv(cfg, wire, o, o.next)
  {
    hide WireInv, InOrder, DecideAll, HoldAll, BeatAll;
    var o := Office(entries, next, [], false);
    assert wire + [] == wire;
    DecideAllKeeps(cfg, wire, o, ds, now, base, next);
    var o1 := DecideAll(cfg, o, ds, now);
    HoldAllKeeps(cfg, wire, o1, bodies, scene, order, now);
    var o2 := if admit then o1 else HoldAll(cfg, o1, bodies, scene, order, now);
    BeatAllKeeps(cfg, wire, o2, names, now);
  }

  /** The facts about an update that the agreement rests on. */
  ghost predicate UpdateOf(before: Station, after: Station, vs: seq<Vehicle>) {
    && Speaks(before, after) && Current(after) && Reaches(vs, before, after)
    && (forall id :: id in after.bodies && !Mentions(vs, id) ==>
          id in before.bodies && SameRequest(before.bodies[id], after.bodies[id]))
    && (forall k :: 0 <= k < |vs| ==>
          vs[k].id in after.bodies && after.bodies[vs[k].id].generation == vs[k].generation
          && after.bodies[vs[k].id].session == vs[k].session)
  }

  lemma DecidedAgrees(cfg: CoordinatorConfig, entries: map<Id, Entry>, names: seq<Id>, vs: seq<Vehicle>,
                      before: Station, after: Station, now: real)
    requires Agrees(entries, before.bodies) && ReportsOf(entries, names, vs)
    requires UpdateOf(before, after, vs)
    requires !DecideAll(cfg, Office(entries, after.next, [], false), after.out, now).halted
    ensures Agrees(DecideAll(cfg, Office(entries, after.next, [], false), after.out, now).entries,
                   after.bodies)
  {
    var o := Office(entries, after.next, [], false);
    var r := DecideAll(cfg, o, after.out, now);
    hide DecideAll;
    DecideAllSameNames(cfg, o, after.out, now);
    forall name | name in r.entries ensures EntryAgrees(r.entries[name], after.bodies, name) {
      assert name in entries && EntryAgrees(entries[name], before.bodies, name);
      if name !in after.bodies {
        NoWordFor(after.out, name, entries[name].session);
      } else if Mentions(vs, name) {
        var k :| 0 <= k < |vs| && vs[k].id == name;
      }
      DecisionsAgree(cfg, o, after.out, now, before.bodies, after.bodies, name);
    }
  }

  lemma {:induction false} NoWordFor(ds: seq<Decision>, name: Id, s: Session)
    requires forall i :: 0 <= i < |ds| ==> ds[i].id != name
    ensures LastFor(ds, name) == None && LastMatch(ds, name, s) == None
  {
    if ds != [] { NoWordFor(ds[..|ds| - 1], name, s); }
  }

  lemma {:induction false} DecideAllSameNames(cfg: CoordinatorConfig, o: Office, ds: seq<Decision>, now: real)
    ensures DecideAll(cfg, o, ds, now).entries.Keys == o.entries.Keys
    ensures o.halted ==> DecideAll(cfg, o, ds, now).halted
  {
    if ds != [] { DecideAllSameNames(cfg, o, ds[..|ds| - 1], now); }
  }

  lemma {:induction false} HoldAllHalts(cfg: CoordinatorConfig, o: Office, bodies: map<Id, Body>,
                                        scene: bool, names: seq<Id>, now: real)
    requires o.halted
    ensures HoldAll(cfg, o, bodies, scene, names, now).halted
  {
    if names != [] { HoldAllHalts(cfg, o, bodies, scene, names[..|names| - 1], now); }
  }

  lemma {:induction false} BeatAllHalts(cfg: CoordinatorConfig, o: Office, names: seq<Id>, now: real)
    requires o.halted
    ensures BeatAll(cfg, o, names, now).halted
  {
    if names != [] { BeatAllHalts(cfg, o, names[..|names| - 1], now); }
  }

  /** Heartbeat agreement. At the end of a step, and in everything that is repeated in it, a Go is
      said only to a vehicle for which the planner holds a live reservation of the same request with
      exactly that decision id. */
  lemma HeartbeatAgreement(cfg: CoordinatorConfig, entries: map<Id, Entry>, names: seq<Id>,
                           vs: seq<Vehicle>, before: Station, after: Station, scene: bool, admit: bool,
                           now: real)
    requires Agrees(entries, before.bodies) && ReportsOf(entries, names, vs)
    requires UpdateOf(before, after, vs)
    requires !Letters(cfg, entries, names, after.next, after.out, after.bodies, after.order, scene, admit, now).halted
    ensures var o := Letters(cfg, entries, names, after.next, after.out, after.bodies, after.order, scene, admit, now);
            Agrees(o.entries, after.bodies)
    ensures var o1 := DecideAll(cfg, Office(entries, after.next, [], false), after.out, now);
            var o2 := if admit then o1 else HoldAll(cfg, o1, after.bodies, scene, after.order, now);
            var o := Letters(cfg, entries, names, after.next, after.out, after.bodies, after.order, scene, admit, now);
            && |o2.out| <= |o.out| && o.out[..|o2.out|] == o2.out
            && (forall k :: |o2.out| <= k < |o.out| ==> Stands(o.out[k], after.bodies))
  {
    hide DecideAll, HoldAll, BeatAll, Agrees, UpdateOf, Stands;
    var o1 := DecideAll(cfg, Office(entries, after.next, [], false), after.out, now);
    var o2 := if admit then o1 else HoldAll(cfg, o1, after.bodies, scene, after.order, now);
    if o1.halted { HoldAllHalts(cfg, o1, after.bodies, scene, after.order, now); }
    if o2.halted { BeatAllHalts(cfg, o2, names, now); }
    DecidedAgrees(cfg, entries, names, vs, before, after, now);
    HoldAllAgrees(cfg, o1, after.bodies, scene, after.order, now);
    RepeatsStand(cfg, o2, after.bodies, names, now);
  }

  /** With admission off, nothing that leaves is a Go: no decision, no repetition. */
  lemma NoGoLeaves(cfg: CoordinatorConfig, entries: map<Id, Entry>, names: seq<Id>, vs: seq<Vehicle>,
                   before: Station, after: Station, scene: bool, now: real)
    requires Agrees(entries, before.bodies) && ReportsOf(entries, names, vs)
    requires UpdateOf(before, after, vs) && GoFree(after.out) && Still(after) && !after.halted
    requires !Letters(cfg, entries, names, after.next, after.out, after.bodies, after.order, scene, false, now).halted
    ensures NoGo(Letters(cfg, entries, names, after.next, after.out, after.bodies, after.order, scene, false, now).out)
  {
    HeartbeatAgreement(cfg, entries, names, vs, before, after, scene, false, now);
    hide DecideAll, HoldAll, BeatAll, Agrees, UpdateOf, ReportsOf;
    var o0 := Office(entries, after.next, [], false);
    var o1 := DecideAll(cfg, o0, after.out, now);
    DecideAllNoGo(cfg, o0, after.out, now);
    HoldAllNoGo(cfg, o1, after.bodies, scene, after.order, now);
    var o2 := HoldAll(cfg, o1, after.bodies, scene, after.order, now);
    var o := Letters(cfg, entries, names, after.next, after.out, after.bodies, after.order, scene, false, now);
    forall k | 0 <= k < |o.out| ensures !o.out[k].grant.state.Go? {
      if k < |o2.out| { assert o.out[k] == o.out[..|o2.out|][k] == o2.out[k]; }
      else { assert Stands(o.out[k], after.bodies); }
    }
  }

  lemma UpdateInOrder(before: Station, after: Station, vs: seq<Vehicle>)
    requires UpdateOf(before, after, vs)
    ensures InOrder(before.next, after.next, after.out)
  {
  }

  /** No letter changes what a vehicle has last said. */
  ghost predicate SameSessions(entries: map<Id, Entry>, entries': map<Id, Entry>) {
    && entries'.Keys == entries.Keys
    && (forall name :: name in entries ==>
          entries'[name].session == entries[name].session && entries'[name].bad == entries[name].bad
          && entries'[name].body == entries[name].body)
  }

  lemma SendKeepsSessions(cfg: CoordinatorConfig, o: Office, name: Id, g: Grant, now: real)
    requires name in o.entries
    ensures var r := Send(cfg, o, name, g, now); SameSessions(o.entries, r.entries) && r.next == o.next
  {
  }

  lemma SendNewKeepsSessions(cfg: CoordinatorConfig, o: Office, name: Id, state: GrantState,
                             reason: Reason, detail: string, now: real)
    requires name in o.entries
    ensures var r := SendNew(cfg, o, name, state, reason, detail, now);
            SameSessions(o.entries, r.entries) && o.next <= r.next
  {
  }

  lemma {:induction false} DecideAllKeepsSessions(cfg: CoordinatorConfig, o: Office, ds: seq<Decision>, now: real)
    ensures var r := DecideAll(cfg, o, ds, now); SameSessions(o.entries, r.entries) && r.next == o.next
  {
    hide Send;
    if ds != [] {
      DecideAllKeepsSessions(cfg, o, ds[..|ds| - 1], now);
      var mid, d := DecideAll(cfg, o, ds[..|ds| - 1], now), ds[|ds| - 1];
      if d.id in mid.entries { SendKeepsSessions(cfg, mid, d.id, GrantOf(cfg, d), now); }
    }
  }

  lemma {:induction false} HoldAllKeepsSessions(cfg: CoordinatorConfig, o: Office, bodies: map<Id, Body>,
                                                scene: bool, names: seq<Id>, now: real)
    ensures var r := HoldAll(cfg, o, bodies, scene, names, now);
            SameSessions(o.entries, r.entries) && o.next <= r.next
  {
    hide SendNew, Participant;
    if names != [] {
      HoldAllKeepsSessions(cfg, o, bodies, scene, names[..|names| - 1], now);
      var mid, name := HoldAll(cfg, o, bodies, scene, names[..|names| - 1], now), names[|names| - 1];
      if name in mid.entries {
        SendNewKeepsSessions(cfg, mid, name, GrantState.Hold, if scene then WaitingForPeer else SceneUnavailable,
                             if scene then NO_SCOPE else NO_SCENE, now);
      }
    }
  }

  lemma BeatOneKeepsSessions(cfg: CoordinatorConfig, o: Office, name: Id, now: real)
    ensures var r := BeatOne(cfg, o, name, now); SameSessions(o.entries, r.entries) && o.next <= r.next
  {
    hide Send, SendNew, Participant, Lost, Outside;
    if name in o.entries {
      var e := o.entries[name];
      SendNewKeepsSessions(cfg, o, name, Reject, BadSession, if e.bad.Some? then e.bad.value else NOT_IN_SCOPE, now);
      if e.last.Some? { SendKeepsSessions(cfg, o, name, e.last.value.grant, now); }
    }
  }

  lemma {:induction false} BeatAllKeepsSessions(cfg: CoordinatorConfig, o: Office, names: seq<Id>, now: real)
    ensures var r := BeatAll(cfg, o, names, now); SameSessions(o.entries, r.entries) && o.next <= r.next
  {
    hide BeatOne;
    if names != [] {
      BeatAllKeepsSessions(cfg, o, names[..|names| - 1], now);
      BeatOneKeepsSessions(cfg, BeatAll(cfg, o, names[..|names| - 1], now), names[|names| - 1], now);
    }
  }

  lemma LettersKeepSessions(cfg: CoordinatorConfig, entries: map<Id, Entry>, names: seq<Id>, next: nat,
                            ds: seq<Decision>, bodies: map<Id, Body>, order: seq<Id>, scene: bool,
                            admit: bool, now: real)
    ensures var o := Letters(cfg, entries, names, next, ds, bodies, order, scene, admit, now);
            SameSessions(entries, o.entries) && next <= o.next
  {
    hide DecideAll, HoldAll, BeatAll;
    var o1 := DecideAll(cfg, Office(entries, next, [], false), ds, now);
    DecideAllKeepsSessions(cfg, Office(entries, next, [], false), ds, now);
    HoldAllKeepsSessions(cfg, o1, bodies, scene, order, now);
    var o2 := if admit then o1 else HoldAll(cfg, o1, bodies, scene, order, now);
    BeatAllKeepsSessions(cfg, o2, names, now);
  }

  lemma StepStaysInStep(entries: map<Id, Entry>, names: seq<Id>, vs: seq<Vehicle>, before: Station,
                        after: Station)
    requires RequestsInStep(entries, before.bodies) && ReportsOf(entries, names, vs)
    requires UpdateOf(before, after, vs)
    ensures RequestsInStep(entries, after.bodies)
  {
    hide Speaks, Current;
    forall name | name in after.bodies ensures name in entries && InStep(entries[name], after.bodies[name]) {
      if Mentions(vs, name) {
        var k :| 0 <= k < |vs| && vs[k].id == name;
      } else {
        assert InStep(entries[name], before.bodies[name]);
      }
    }
  }

  lemma SessionsDecide(entries: map<Id, Entry>, entries': map<Id, Entry>, bodies: map<Id, Body>)
    requires SameSessions(entries, entries')
    ensures RequestsInStep(entries, bodies) ==> RequestsInStep(entries', bodies)
    ensures (forall name :: name in entries ==> EntryInv(name, entries[name]))
            ==> forall name :: name in entries' ==> EntryInv(name, entries'[name])
    ensures forall name :: name in entries' <==> name in entries
  {
    hide Complaint;
    forall name ensures name in entries' <==> name in entries {
      assert name in entries'.Keys <==> name in entries.Keys;
    }
  }

  lemma TimelyReports(entries: map<Id, Entry>, names: seq<Id>, vs: seq<Vehicle>, bodies: map<Id, Body>)
    requires RequestsInStep(entries, bodies) && ReportsOf(entries, names, vs)
    ensures DistinctVehicles(vs) && forall k :: 0 <= k < |vs| ==> Timely(bodies, vs[k])
  {
    forall k | 0 <= k < |vs| ensures Timely(bodies, vs[k]) {
      if vs[k].id in bodies { assert InStep(entries[vs[k].id], bodies[vs[k].id]); }
    }
  }

  lemma UpdateFacts(base: Station, vs: seq<Vehicle>, c: Clock, admit: bool, moves: seq<Move>,
                    answers: Answers, after: Station)
    requires Sound(base, base) && base.out == [] && DistinctVehicles(vs)
    requires forall k :: 0 <= k < |vs| ==> Timely(base.bodies, vs[k])
    requires Updates(base, vs, c, admit, moves, answers, after)
    ensures !after.halted ==> UpdateOf(base, after, vs)
  {
    UpdateIsCurrent(base, vs, c, admit, moves, answers);
    UpdateIsARun(base, vs, c, admit, moves, answers, after);
    hide StepTurn, SyncAll, Fits, Timely, Shaped, Speaks, Current, R.StationInv, R.PairwiseDisjoint, Reaches;
    hide AnswersRight;
  }

  lemma OrderStays(vs: seq<Vehicle>, st: Station, st': Station)
    requires Reaches(vs, st, st') && DistinctNames(st.order)
    ensures DistinctNames(st'.order)
  {
    hide Leads, DistinctNames;
    var n: nat :| Leads(vs, n, st, st');
    RunKeepsOrder(vs, n, st, st');
  }

  /** A whole step keeps the order of the wire, the agreement and the requests in step. */
  lemma StepKeepsStation(cfg: CoordinatorConfig, wire: seq<Sent>, entries: map<Id, Entry>,
                         names: seq<Id>, vs: seq<Vehicle>, before: Station, after: Station,
                         scene: bool, admit: bool, now: real)
    requires StationSound(cfg, before, entries, names, wire) && ReportsOf(entries, names, vs)
    requires UpdateOf(before.(out := []), after, vs) && before.next <= after.next && !after.halted
    requires !admit ==> GoFree(after.out) && Still(after)
    requires !Letters(cfg, entries, names, after.next, after.out, after.bodies, after.order, scene, admit, now).halted
    ensures var o := Letters(cfg, entries, names, after.next, after.out, after.bodies, after.order, scene, admit, now);
            StationSound(cfg, after.(next := o.next), o.entries, names, wire + o.out)
            && (!admit ==> NoGo(o.out)) && after.next <= o.next
  {
    hide Letters, WireInv, Agrees, TtlInv, GoFree, Still, NoGo, EntryInv;
    var base := before.(out := []);
    var o := Letters(cfg, entries, names, after.next, after.out, after.bodies, after.order, scene, admit, now);
    UpdateInOrder(base, after, vs);
    LettersKeepWire(cfg, wire, entries, names, base.next, after.next, after.out, after.bodies,
                    after.order, scene, admit, now);
    HeartbeatAgreement(cfg, entries, names, vs, base, after, scene, admit, now);
    if !admit { NoGoLeaves(cfg, entries, names, vs, base, after, scene, now); }
    LettersKeepSessions(cfg, entries, names, after.next, after.out, after.bodies, after.order, scene, admit, now);
    StepStaysInStep(entries, names, vs, base, after);
    SessionsDecide(entries, o.entries, after.bodies);
    OrderStays(vs, base, after);
  }

  /** One step that goes through: the planner's update on the vehicles that are known, and the letters
      that follow from it. */
  ghost predicate StepOf(cfg: CoordinatorConfig, entries: map<Id, Entry>, names: seq<Id>, before: Station,
                         c: Clock, scene: bool, moves: seq<Move>, answers: Answers, after: Station, o: Office)
  {
    var admit := scene && ScopeReady(cfg, entries);
    && Updates(before, Vehicles(cfg, entries, names, c.now), c, admit, moves, answers, after)
    && o == Letters(cfg, entries, names, after.next, after.out, after.bodies, after.order, scene, admit, c.now)
    && !after.halted && !o.halted
  }

  /** A Go leaves only when the scene is there, a scope is declared, and every vehicle of it has shown
      a body. */
  ghost predicate GoesOnlyInScope(expected: seq<Id>, entries: map<Id, Entry>, scene: bool, out: seq<Sent>) {
    (exists k :: 0 <= k < |out| && out[k].grant.state.Go?) ==>
      && scene && expected != []
      && forall name :: name in expected ==> name in entries && entries[name].body.Some?
  }

  lemma NoGoOutOfScope(cfg: CoordinatorConfig, entries: map<Id, Entry>, scene: bool, out: seq<Sent>)
    requires !scene || !ScopeReady(cfg, entries) ==> NoGo(out)
    ensures GoesOnlyInScope(cfg.expected, entries, scene, out)
  {
  }

  // ---------------------------------------------------------------- the object

  class ResetCoordinator {
    const cfg: CoordinatorConfig
    const planner: P.ResetPlanner
    var entries: map<Id, Entry>
    var names: seq<Id>
    var authored: bool
    var sceneAvailable: bool
    var halted: bool
    /** What the current step has put on the wire. */
    var outbox: seq<Sent>
    ghost var wire: seq<Sent>

    ghost predicate Valid() reads this, planner {
      planner.Valid()
      && (!halted ==> !planner.halted && StationSound(cfg, planner.View(), entries, names, wire))
    }

    function Now(): Office reads this, planner { Office(entries, planner.next, outbox, halted) }

    constructor (config: CoordinatorConfig, plannerConfig: PlannerConfig, kit: Kit, world: Sweep.World)
      requires R.GoodWorld(world) && GoodKit(kit) && plannerConfig.holdMargin > 0.000000001
      ensures Valid() && fresh(planner) && entries == map[] && wire == [] && !halted
    {
      cfg := config;
      planner := new P.ResetPlanner(plannerConfig, kit, world);
      entries, names, wire := map[], [], [];
      authored, sceneAvailable, halted, outbox := false, true, false, [];
    }

    method SetScene(isAuthored: bool, isAvailable: bool)
      requires Valid()
      modifies `authored, `sceneAvailable
      ensures Valid() && authored == isAuthored && sceneAvailable == isAvailable
    {
      authored, sceneAvailable := isAuthored, isAvailable;
    }

    /** onSession: the fence first, then everything else. */
    method OnSessionFrom(vehicle: Id, s: Session, now: real)
      requires Valid()
      modifies `entries, `names
      ensures Valid() && entries == OnSession(old(entries), vehicle, s, now)
      ensures names == if vehicle in old(entries) then old(names) else InsertId(old(names), vehicle)
    {
      if !halted { SessionKeepsStation(cfg, planner.View(), entries, names, wire, vehicle, s, now); }
      hide StationSound, Fenced, FirstEntry, NextEntry, P.ResetPlanner.Valid;
      if vehicle !in entries {
        entries := entries[vehicle := FirstEntry(vehicle, s, now)];
        names := InsertId(names, vehicle);
      } else if !Fenced(entries[vehicle], s) {
        entries := entries[vehicle := NextEntry(entries[vehicle], vehicle, s, now)];
      }
    }

    // ---------------------------------------------------------------- one letter

    method SendTo(name: Id, g: Grant, now: real)
      requires name in entries
      modifies `entries, `outbox, `halted
      ensures Now() == Send(cfg, old(Now()), name, g, now)
    {
      if halted { return; }
      if entries[name].nextPublication >= UINT32_MAX {
        halted := true;
      } else {
        var e := SentEntry(cfg, entries[name], g, now);
        entries := entries[name := e];
        outbox := outbox + [Sent(name, e.last.value.grant)];
      }
    }

    /** A decision of the coordinator itself, with an id of the planner's allocator. */
    method SendOwn(name: Id, state: GrantState, reason: Reason, detail: string, now: real)
      requires name in entries && planner.Valid()
      modifies `entries, `outbox, `halted, planner`next
      ensures planner.Valid() && Now() == SendNew(cfg, old(Now()), name, state, reason, detail, now)
    {
      hide P.ResetPlanner.Valid, Send, R.Do;
      if halted { return; }
      if planner.next >= UINT32_MAX {
        halted := true;
      } else {
        var s := entries[name].session;
        var id := planner.TakeGrantId();
        SendTo(name, Grant(s.generation, 0, cfg.ttl, s.session, state, id, NO_ROUTE, 0.0, reason,
                           detail, []), now);
      }
    }

    // ---------------------------------------------------------------- the letters of one step

    method VehiclesNow(now: real) returns (vs: seq<Vehicle>)
      ensures vs == Vehicles(cfg, entries, names, now)
    {
      hide VehicleOf, Known;
      vs := [];
      for k := 0 to |names|
        invariant vs == Vehicles(cfg, entries, names[..k], now)
      {
        assert names[..k + 1][..k] == names[..k];
        if names[k] in entries && Known(entries[names[k]]) {
          vs := vs + [VehicleOf(cfg, names[k], entries[names[k]], now)];
        }
      }
      assert names[..|names|] == names;
    }

    method SendDecisions(ds: seq<Decision>, now: real)
      modifies `entries, `outbox, `halted
      ensures Now() == DecideAll(cfg, old(Now()), ds, now)
    {
      hide Send;
      for k := 0 to |ds|
        invariant Now() == DecideAll(cfg, old(Now()), ds[..k], now)
      {
        assert ds[..k + 1][..k] == ds[..k];
        var d := ds[k];
        if d.id in entries && Matches(d, entries[d.id].session) {
          SendTo(d.id, GrantOf(cfg, d), now);
        }
      }
      assert ds[..|ds|] == ds;
    }

    method HoldIfWaiting(name: Id, scene: bool, now: real)
      requires planner.Valid()
      modifies `entries, `outbox, `halted, planner`next
      ensures planner.Valid() && Now() == HoldOne(cfg, old(Now()), planner.bodies, scene, name, now)
    {
      hide P.ResetPlanner.Valid, SendNew, Participant;
      if name !in entries || name !in planner.bodies { return; }
      var e := entries[name];
      var reason := if scene then WaitingForPeer else SceneUnavailable;
      if !Participant(cfg, e, now) || planner.bodies[name].HasPlan() || WasSent(outbox, name)
         || !e.session.certified || e.session.generation == 0 { return; }
      if e.last.Some? && e.last.value.grant.state == GrantState.Hold
         && e.last.value.grant.reason == reason { return; }
      SendOwn(name, GrantState.Hold, reason, if scene then NO_SCOPE else NO_SCENE, now);
    }

    /** Without admission: once no route remains, the local hold is reported. */
    method SendHolds(scene: bool, now: real)
      requires planner.Valid()
      modifies `entries, `outbox, `halted, planner`next
      ensures planner.Valid()
      ensures Now() == HoldAll(cfg, old(Now()), planner.bodies, scene, planner.order, now)
    {
      hide P.ResetPlanner.Valid, HoldOne;
      for k := 0 to |planner.order|
        invariant planner.Valid()
        invariant Now() == HoldAll(cfg, old(Now()), planner.bodies, scene, planner.order[..k], now)
      {
        assert planner.order[..k + 1][..k] == planner.order[..k];
        HoldIfWaiting(planner.order[k], scene, now);
      }
      assert planner.order[..|planner.order|] == planner.order;
    }

    method Beat(name: Id, now: real)
      requires planner.Valid()
      modifies `entries, `outbox, `halted, planner`next
      ensures planner.Valid() && Now() == BeatOne(cfg, old(Now()), name, now)
    {
      hide P.ResetPlanner.Valid, Send, SendNew, Participant, Lost, Outside;
      if name !in entries { return; }
      var e := entries[name];
      if Lost(cfg, e, now) || WasSent(outbox, name) || e.session.generation == 0 { return; }
      if e.bad.Some? || Outside(cfg, name) {
        var detail := if e.bad.Some? then e.bad.value else NOT_IN_SCOPE;
        if e.last.Some? && e.last.value.grant.state.Reject? && e.last.value.grant.detail == detail {
          if Due(cfg, e.last.value, now) { SendTo(name, e.last.value.grant, now); }
        } else {
          SendOwn(name, Reject, BadSession, detail, now);
        }
      } else if e.last.Some? && Due(cfg, e.last.value, now) {
        if Participant(cfg, e, now) || Pending(e) { SendTo(name, e.last.value.grant, now); }
      }
    }

    method SendBeats(now: real)
      requires planner.Valid()
      modifies `entries, `outbox, `halted, planner`next
      ensures planner.Valid() && Now() == BeatAll(cfg, old(Now()), names, now)
    {
      hide P.ResetPlanner.Valid, BeatOne;
      for k := 0 to |names|
        invariant planner.Valid() && Now() == BeatAll(cfg, old(Now()), names[..k], now)
      {
        assert names[..k + 1][..k] == names[..k];
        Beat(names[k], now);
      }
      assert names[..|names|] == names;
    }

    /** Decisions, then the local holds, then the heartbeat. */
    method SendLetters(ds: seq<Decision>, scene: bool, admit: bool, now: real)
      requires planner.Valid() && outbox == [] && !halted
      modifies `entries, `outbox, `halted, planner`next
      ensures planner.Valid()
      ensures Now() == Letters(cfg, old(entries), names, old(planner.next), ds, planner.bodies,
                               planner.order, scene, admit, now)
    {
      hide P.ResetPlanner.Valid, DecideAll, HoldAll, BeatAll;
      SendDecisions(ds, now);
      if !admit { SendHolds(scene, now); }
      SendBeats(now);
    }

    // ---------------------------------------------------------------- the step

    /** Sends the letters; unless a counter is exhausted the station is as sound as before. */
    method Answer(ds: seq<Decision>, ghost before: Station, ghost vs: seq<Vehicle>, scene: bool,
                  admit: bool, now: real)
      requires planner.Valid() && !halted && !planner.halted && outbox == [] && ds == planner.out
      requires StationSound(cfg, before, entries, names, wire) && ReportsOf(entries, names, vs)
      requires before.next <= planner.next && UpdateOf(before.(out := []), planner.View(), vs)
      requires !admit ==> GoFree(ds) && Still(planner.View())
      modifies `entries, `outbox, `halted, `wire, planner`next
      ensures planner.Valid() && (!halted ==> Valid() && wire == old(wire) + outbox)
      ensures !halted ==>
                && Now() == Letters(cfg, old(entries), names, old(planner.next), ds, planner.bodies,
                                    planner.order, scene, admit, now)
                && (!admit ==> NoGo(outbox))
    {
      ghost var after := planner.View();
      hide P.ResetPlanner.Valid, Letters, StationSound, UpdateOf, ReportsOf, GoFree, Still, NoGo;
      SendLetters(ds, scene, admit, now);
      if halted { return; }
      StepKeepsStation(cfg, wire, old(entries), names, vs, before, after, scene, admit, now);
      wire := wire + outbox;
    }

    /** One step of the station: every vehicle is reported to the planner, its decisions go out, then
        the local holds, then the heartbeat. `after` is the planner when it has decided. */
    method Step(now: real, moves: seq<Move>)
      returns (out: seq<Sent>, ghost after: Station, ghost answers: Answers)
      requires Valid()
      modifies this, planner
      ensures Valid() && (old(halted) ==> halted) && (halted ==> out == []) && names == old(names)
      ensures !halted ==>
                && out == outbox && wire == old(wire) + out
                && planner.View() == after.(next := planner.next)
                && StepOf(cfg, old(entries), names, old(planner.View()).(out := []),
                          old(planner.Time()).(now := now), !authored || sceneAvailable, moves, answers,
                          after, Now())
                && GoesOnlyInScope(cfg.expected, old(entries), !authored || sceneAvailable, out)
    {
      hide P.ResetPlanner.Valid, P.ResetPlanner.View, StepOf, NoGo, StationSound, ScopeReady, GoesOnlyInScope;
      outbox, out := [], [];
      after, answers := planner.View(), Answers([], []);
      if halted { return; }
      after, answers := StepAnswers(now, moves);
      if !halted { out := outbox; }
    }

    method StepAnswers(now: real, moves: seq<Move>) returns (ghost after: Station, ghost answers: Answers)
      requires Valid() && !halted && outbox == []
      modifies `entries, `outbox, `halted, `wire, planner
      ensures Valid()
      ensures !halted ==>
                && wire == old(wire) + outbox
                && planner.View() == after.(next := planner.next)
                && StepOf(cfg, old(entries), names, old(planner.View()).(out := []),
                          old(planner.Time()).(now := now), !authored || sceneAvailable, moves, answers,
                          after, Now())
                && GoesOnlyInScope(cfg.expected, old(entries), !authored || sceneAvailable, outbox)
    {
      hide P.ResetPlanner.Valid, Letters, UpdateOf, ReportsOf, GoFree, Still, NoGo, Vehicles, StationSound, ScopeReady;
      hide Updates, GoesOnlyInScope;
      var vs := VehiclesNow(now);
      StationReports(cfg, planner.View(), entries, names, wire, now);
      var scene := !authored || sceneAvailable;
      var admit := scene && ScopeReady(cfg, entries);
      ghost var before := planner.View();
      var ds;
      ds, answers := Decide(now, vs, admit, moves);
      after := planner.View();
      if planner.halted { halted := true; return; }
      Answer(ds, before, vs, scene, admit, now);
      if !halted { NoGoOutOfScope(cfg, old(entries), scene, outbox); }
    }

    /** The planner's update on the vehicles of this step. */
    method Decide(now: real, vs: seq<Vehicle>, admit: bool, moves: seq<Move>)
      returns (ds: seq<Decision>, ghost answers: Answers)
      requires Valid() && !halted && vs == Vehicles(cfg, entries, names, now)
      modifies planner
      ensures planner.Valid() && planner.base == old(planner.View()).(out := []) && ds == planner.out
      ensures Updates(planner.base, vs, old(planner.Time()).(now := now), admit, moves, answers, planner.View())
      ensures !planner.halted ==> UpdateOf(planner.base, planner.View(), vs)
      ensures old(planner.next) <= planner.next
      ensures !admit ==> GoFree(ds) && Still(planner.View())
    {
      ghost var before := planner.View();
      VehiclesAreReports(cfg, entries, names, now);
      TimelyReports(entries, names, vs, before.bodies);
      hide Sound, StationSound, StepTurn, SyncAll, Fits, AnswersRight, Shaped, Timely, Vehicles;
      hide GoFree, Still, ReportsOf, DistinctVehicles;
      ghost var clock := planner.Time().(now := now);
      FlushIsSound(planner.base, before);
      ds, answers := planner.Update(now, vs, admit, moves);
      UpdateFacts(planner.base, vs, clock, admit, moves, answers, planner.View());
    }
  }
}
