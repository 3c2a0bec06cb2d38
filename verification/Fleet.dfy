/** The whole system: any number of executors, the station, and a network that may lose, duplicate,
    delay and reorder every message. What was once published stays in the network for good; a
    delivery picks any of it, at any time, any number of times. */
module Fleet {
  import opened ResetProtocol
  import opened Bodies
  import opened Sweep
  import opened PlannerModel
  import opened Reservations
  import Ex = ExecutorModel
  import Runs = ExecutorRuns
  import L = Link
  import LV = LinkVehicle
  import LS = LinkStation

  /** A route that was installed: for which vehicle, in which of its requests and sessions. */
  datatype Granted = Granted(id: Id, generation: nat, session: nat)

  datatype State = State(execs: map<Id, Ex.Exec>, st: Station, sessions: set<(Id, Session)>,
                         decisions: set<Decision>, installs: seq<Granted>)

  datatype Event =
    | VehicleDoes(id: Id, op: Runs.Op)
    | StationDoes(act: Act)
    | CoordinatorSays(d: Decision)

  /** A grant on the wire is a decision that was made; its publication number, time to live,
      reason and text are whatever the network delivers. */
  predicate Carries(g: Grant, d: Decision) {
    && g.session == d.session && g.generation == d.generation && g.state == d.state
    && g.id == d.grantId && g.route == d.route && g.sLimit == d.sLimit
  }

  /** What the coordinator passes to the planner about a Session it once received. A silent or bad
      vehicle may be reported with any phase, and with the footprint of its last valid report. */
  predicate Conveys(v: Vehicle, s: Session) {
    && v.generation == s.generation && v.session == s.session && v.ack == s.ack
    && (v.certified ==> s.certified && v.available) && (v.available ==> v.spec == s.spec)
  }

  ghost predicate Delivered(f: State, id: Id, g: Grant) {
    exists d :: d in f.decisions && d.id == id && Carries(g, d)
  }

  ghost predicate Heard(f: State, v: Vehicle) {
    exists s :: (v.id, s) in f.sessions && Conveys(v, s)
  }

  /** A vehicle uses its executor as it may be used and uses no session id again, as its controller
      does (ControllerRuns). */
  ghost predicate Possible(f: State, ev: Event)
    requires StationInv(f.st)
  {
    match ev
    case VehicleDoes(id, op) =>
      && id in f.execs && Runs.Allowed(f.execs[id], op) && Runs.NumbersOn(f.execs[id], op)
      && (op.GrantOp? ==> Delivered(f, id, op.g))
    case StationDoes(act) => Enabled(f.st, act) && (act.Sync? ==> Heard(f, act.v))
    case CoordinatorSays(d) =>
      (d.state == GrantState.Hold || d.state.Reject?) && d.grantId == f.st.next
      && f.st.next < UINT32_MAX
  }

  /** An admission that leaves a plan. */
  predicate Installed(st: Station, st': Station, act: Act) {
    act.Install? && act.id in st.bodies && act.id in st'.bodies
    && !st.bodies[act.id].HasPlan() && st'.bodies[act.id].HasPlan()
  }

  function GrantedTo(id: Id, b: Body): Granted
    requires b.HasPlan()
  {
    Granted(id, b.reservation.plan.generation, b.reservation.plan.session)
  }

  function Next(f: State, ev: Event): State
    requires StationInv(f.st) && Possible(f, ev)
  {
    match ev
    case VehicleDoes(id, op) =>
      f.(execs := f.execs[id := Runs.Apply(f.execs[id], op)],
         sessions := if op.PublishOp? then f.sessions + {(id, Ex.MakeSession(f.execs[id], op.m))}
                     else f.sessions)
    case StationDoes(act) =>
      var st := Do(f.st, act);
      f.(st := st.(out := []), decisions := f.decisions + (set d | d in st.out),
         installs := if Installed(f.st, st, act)
                     then f.installs + [GrantedTo(act.id, st.bodies[act.id])]
                     else f.installs)
    case CoordinatorSays(d) =>
      f.(st := f.st.(next := f.st.next + 1), decisions := f.decisions + {d})
  }

  // ---------------------------------------------------------------- one vehicle's view

  function NoteOf(s: Session): L.Note {
    L.Note(s.generation, s.session, s.ack, s.certified, s.spec)
  }

  function Notes(f: State, id: Id): set<L.Note> {
    set p | p in f.sessions && p.0 == id :: NoteOf(p.1)
  }

  function Words(f: State, id: Id): set<L.Word> {
    set d | d in f.decisions && d.id == id :: LS.WordOf(d)
  }

  function SeatIn(f: State, id: Id): Option<L.Seat> {
    if id in f.st.bodies then Some(LS.SeatOf(f.st.bodies[id])) else None
  }

  ghost predicate Linked(f: State, id: Id)
    requires id in f.execs
  {
    Runs.LocalInv(f.execs[id])
    && L.LinkInv(LV.CoreOf(f.execs[id]), SeatIn(f, id), Words(f, id), Notes(f, id), f.st.next)
  }

  ghost predicate FleetInv(f: State) {
    && f.st.cfg.holdMargin > 0.000000001 && f.st.next > 0 && f.st.out == []
    && StationInv(f.st) && PairwiseDisjoint(f.st)
    && (forall id :: id in f.st.bodies ==> id in f.execs)
    && (forall p :: p in f.sessions ==> p.0 in f.execs)
    && (forall id :: id in f.execs ==> Linked(f, id))
  }

  ghost predicate Initial(f: State) {
    && f.st.cfg.holdMargin > 0.000000001 && Shaped(f.st) && GoodWorld(f.st.world)
    && f.st == EmptyStation(f.st.cfg, f.st.kit, f.st.world)
    && f.sessions == {} && f.decisions == {} && f.installs == []
    && forall id :: id in f.execs ==> f.execs[id] == Ex.Fresh(f.execs[id].cfg, f.execs[id].spec)
  }

  lemma InitialIsGood(f: State)
    requires Initial(f)
    ensures FleetInv(f)
  {
    forall id | id in f.execs ensures Linked(f, id) {
      Runs.FreshIsLocal(f.execs[id].cfg, f.execs[id].spec);
      assert Words(f, id) == {} && Notes(f, id) == {};
    }
  }

  // ---------------------------------------------------------------- vehicle events

  lemma HeardWord(f: State, id: Id, g: Grant)
    requires Delivered(f, id, g)
    ensures LV.WordOf(g) in Words(f, id)
  {
    var d :| d in f.decisions && d.id == id && Carries(g, d);
    assert LS.WordOf(d) == LV.WordOf(g);
  }

  lemma NotesGrow(f: State, id: Id, s: Session, o: Id)
    ensures var g := f.(sessions := f.sessions + {(id, s)});
            Notes(g, o) == Notes(f, o) + if o == id then {NoteOf(s)} else {}
  {
    var g := f.(sessions := f.sessions + {(id, s)});
    assert (id, s) in g.sessions;
    forall n | n in Notes(f, o) ensures n in Notes(g, o) {
      var p :| p in f.sessions && p.0 == o && NoteOf(p.1) == n;
      assert p in g.sessions;
    }
    if o == id {
      assert NoteOf((id, s).1) in Notes(g, o);
    }
  }

  /** The operations of one vehicle keep its own link. */
  lemma OpKeepsLink(e: Ex.Exec, op: Runs.Op, seat: Option<L.Seat>, words: set<L.Word>,
                    notes: set<L.Note>, next: nat)
    requires Runs.LocalInv(e) && Runs.Allowed(e, op) && (op.GrantOp? ==> LV.WordOf(op.g) in words)
    requires L.LinkInv(LV.CoreOf(e), seat, words, notes, next)
    ensures L.LinkInv(LV.CoreOf(Runs.Apply(e, op)), seat, words, notes, next)
    ensures Runs.LocalInv(Runs.Apply(e, op))
  {
    hide Runs.LocalInv, LV.CoreOf, L.VehicleStep, L.Quiet, LV.KeptOrBumped, Ex.Poll, Ex.StepRest;
    Runs.OpForward(e, op);
    LastIdKnown(LV.CoreOf(e), seat, words, notes, next);
    match op
    case GrantOp(g, m) =>
      LV.GrantSteps(e, g, m, words, next);
      L.VehicleStepKeeps(LV.CoreOf(e), LV.CoreOf(Ex.OnGrant(e, g, m)), seat, words, notes, next);
    case PollOp(m) => PollKeepsLink(e, m, seat, words, notes, next);
    case StepOp(m, tr) =>
      PollKeepsLink(e, m, seat, words, notes, next);
      Runs.PollForward(e, m);
      RestKeepsLink(Ex.Poll(e, m), m, tr, seat, words, notes, next);
    case _ =>
      assert LV.Plain(e, op);
      LV.PlainSteps(e, op, words, next);
      L.VehicleStepKeeps(LV.CoreOf(e), LV.CoreOf(Runs.Apply(e, op)), seat, words, notes, next);
  }

  lemma LastIdKnown(c: L.Core, seat: Option<L.Seat>, words: set<L.Word>, notes: set<L.Note>,
                    next: nat)
    requires L.LinkInv(c, seat, words, notes, next)
    ensures c.lastId < next && forall w :: w in words ==> w.id < next
  {
  }

  lemma PollKeepsLink(e: Ex.Exec, m: Ex.Measurement, seat: Option<L.Seat>, words: set<L.Word>,
                      notes: set<L.Note>, next: nat)
    requires Runs.LocalInv(e) && L.LinkInv(LV.CoreOf(e), seat, words, notes, next)
    ensures L.LinkInv(LV.CoreOf(Ex.Poll(e, m)), seat, words, notes, next)
  {
    hide Runs.LocalInv, LV.CoreOf, L.Quiet, Ex.Poll, L.LinkInv;
    LastIdKnown(LV.CoreOf(e), seat, words, notes, next);
    LV.PollSteps(e, m, words);
    L.VehicleStepKeeps(LV.CoreOf(e), LV.CoreOf(Ex.Poll(e, m)), seat, words, notes, next);
  }

  lemma RestKeepsLink(e: Ex.Exec, m: Ex.Measurement, tr: Ex.TrackerReading, seat: Option<L.Seat>,
                      words: set<L.Word>, notes: set<L.Note>, next: nat)
    requires Runs.LocalInv(e) && L.LinkInv(LV.CoreOf(e), seat, words, notes, next)
    ensures L.LinkInv(LV.CoreOf(Ex.StepRest(e, m, tr).0), seat, words, notes, next)
  {
    hide Runs.LocalInv, LV.CoreOf, L.Bumps, Ex.StepRest, L.LinkInv;
    LastIdKnown(LV.CoreOf(e), seat, words, notes, next);
    LV.StepRestBumps(e, m, tr);
    if LV.CoreOf(Ex.StepRest(e, m, tr).0) != LV.CoreOf(e) {
      L.VehicleStepKeeps(LV.CoreOf(e), LV.CoreOf(Ex.StepRest(e, m, tr).0), seat, words, notes, next);
    }
  }

  lemma VehicleKeeps(f: State, id: Id, op: Runs.Op)
    requires FleetInv(f) && Possible(f, VehicleDoes(id, op))
    ensures FleetInv(Next(f, VehicleDoes(id, op)))
  {
    hide Runs.LocalInv, LV.CoreOf, L.LinkInv, Runs.Apply, StationInv, PairwiseDisjoint;
    var g := Next(f, VehicleDoes(id, op));
    var e := f.execs[id];
    forall o | o in g.execs ensures Linked(g, o) {
      assert Linked(f, o) && Words(g, o) == Words(f, o) && SeatIn(g, o) == SeatIn(f, o);
      if op.PublishOp? {
        var s := Ex.MakeSession(e, op.m);
        NotesGrow(f, id, s, o);
        assert Notes(g, o) == Notes(f.(sessions := f.sessions + {(id, s)}), o);
        assert o != id ==> Notes(g, o) == Notes(f, o);
        if o == id {
          LV.SessionIsNote(e, op.m);
          L.PublishKeeps(LV.CoreOf(e), SeatIn(f, o), Words(f, o), Notes(f, o), f.st.next);
        }
      } else {
        assert Notes(g, o) == Notes(f, o);
      }
      if o == id {
        if op.GrantOp? { HeardWord(f, id, op.g); }
        OpKeepsLink(e, op, SeatIn(g, o), Words(g, o), Notes(g, o), f.st.next);
      }
    }
  }

  // ---------------------------------------------------------------- station events

  function After(f: State, st: Station, installs: seq<Granted>): State {
    f.(st := st.(out := []), decisions := f.decisions + (set d | d in st.out), installs := installs)
  }

  lemma WordsAfter(f: State, st: Station, installs: seq<Granted>, o: Id)
    ensures Words(After(f, st, installs), o) == Words(f, o) + LS.Heard(st.out, o)
  {
    var g := After(f, st, installs);
    forall w | w in Words(f, o) + LS.Heard(st.out, o) ensures w in Words(g, o) {
      if w in Words(f, o) {
        var d :| d in f.decisions && d.id == o && LS.WordOf(d) == w;
        assert d in g.decisions;
      } else {
        var d :| d in st.out && d.id == o && LS.WordOf(d) == w;
        assert d in g.decisions;
      }
    }
  }

  /** The link of vehicle `o` after the station has said what is in its outbox. */
  ghost predicate LinkedAfter(f: State, st: Station, o: Id)
    requires o in f.execs
  {
    L.LinkInv(LV.CoreOf(f.execs[o]),
              if o in st.bodies then Some(LS.SeatOf(st.bodies[o])) else None,
              Words(f, o) + LS.Heard(st.out, o), Notes(f, o), st.next)
  }

  lemma StationKeeps(f: State, st: Station, installs: seq<Granted>)
    requires FleetInv(f) && StationInv(st) && PairwiseDisjoint(st)
    requires st.cfg == f.st.cfg && f.st.next <= st.next
    requires forall o :: o in st.bodies ==> o in f.execs
    requires forall o :: o in f.execs ==> LinkedAfter(f, st, o)
    ensures FleetInv(After(f, st, installs))
  {
    hide Runs.LocalInv, LV.CoreOf, L.LinkInv, StationInv, PairwiseDisjoint;
    var g := After(f, st, installs);
    assert StationInv(g.st) && PairwiseDisjoint(g.st) by { FlushedIsSame(st); }
    forall o | o in g.execs ensures Linked(g, o) {
      WordsAfter(f, st, installs, o);
      assert Notes(g, o) == Notes(f, o);
      assert Linked(f, o);
    }
  }

  lemma FlushedIsSame(st: Station)
    requires StationInv(st) && PairwiseDisjoint(st)
    ensures StationInv(st.(out := [])) && PairwiseDisjoint(st.(out := []))
  {
    PlainActKeeps(st, Flush);
  }

  lemma NothingHeard(out: seq<Decision>, id: Id, o: Id)
    requires o != id && forall d :: d in out ==> d.id == id
    ensures LS.Heard(out, o) == {}
  {
  }

  /** An act on one body: the others hear nothing and keep their seats. */
  lemma OneDeskKeeps(f: State, st: Station, id: Id)
    requires FleetInv(f) && id in f.execs && OnlyBody(f.st, st, id) && f.st.next <= st.next
    requires forall o :: o in f.st.bodies ==> o in st.bodies
    requires forall d :: d in st.out ==> d.id == id
    requires LinkedAfter(f, st, id)
    ensures forall o :: o in f.execs ==> LinkedAfter(f, st, o)
  {
    hide Runs.LocalInv, LV.CoreOf, L.LinkInv, StationInv, PairwiseDisjoint;
    forall o | o in f.execs && o != id ensures LinkedAfter(f, st, o) {
      assert Linked(f, o);
      NothingHeard(st.out, id, o);
      assert Words(f, o) + LS.Heard(st.out, o) == Words(f, o);
      L.NextKeeps(LV.CoreOf(f.execs[o]), SeatIn(f, o), Words(f, o), Notes(f, o), f.st.next, st.next);
    }
  }

  /** An act whose result is put back for a body the station already holds. */
  lemma DeskActKeeps(f: State, t: Desk, installs: seq<Granted>)
    requires FleetInv(f) && t.id in f.st.bodies && f.st.next <= t.next && t.Own()
    requires LS.DeskInv(LV.CoreOf(f.execs[t.id]), t, Words(f, t.id), Notes(f, t.id))
    requires StationInv(f.st.Put(t)) && PairwiseDisjoint(f.st.Put(t))
    ensures FleetInv(After(f, f.st.Put(t), installs))
  {
    hide Runs.LocalInv, LV.CoreOf, L.LinkInv, PairwiseDisjoint, WellFormedBody;
    PutOnlyBody(f.st, t);
    OneDeskKeeps(f, f.st.Put(t), t.id);
    StationKeeps(f, f.st.Put(t), installs);
  }

  lemma DeskOf(f: State, id: Id)
    requires FleetInv(f) && id in f.st.bodies
    ensures LS.DeskInv(LV.CoreOf(f.execs[id]), f.st.At(id), Words(f, id), Notes(f, id))
    ensures f.st.At(id).Own()
  {
    hide Runs.LocalInv, LV.CoreOf, L.LinkInv, StationInv, PairwiseDisjoint;
    assert Linked(f, id);
    assert Words(f, id) + LS.Heard([], id) == Words(f, id);
  }

  lemma DeskActsKeep(f: State, act: Act, installs: seq<Granted>)
    requires FleetInv(f) && Enabled(f.st, act)
    requires act.Advance? || act.Brakes? || act.Rejects? || act.Holds? || act.Install? || act.Extend?
    ensures FleetInv(After(f, Do(f.st, act), installs))
  {
    ActKeepsDisjoint(f.st, act);
    DeskOf(f, act.id);
    hide Runs.LocalInv, LV.CoreOf, L.LinkInv, PairwiseDisjoint, WellFormedBody, LS.DeskInv, FleetInv;
    hide Advanced, EmitBrake, EmitReject, EmitHold, InstallPlan, ExtendOne, NaiveAnswer, Ahead;
    hide PrefixesEnd, Asks, Extends, Verified, StationInv, Words, Notes;
    var c, t, words, notes := LV.CoreOf(f.execs[act.id]), f.st.At(act.id), Words(f, act.id), Notes(f, act.id);
    match act
    case Advance(id, cursor) =>
      LS.AdvancedKeeps(c, t, words, notes, cursor);
      DeskActKeeps(f, Advanced(t, cursor), installs);
    case Brakes(id, reason, detail, blockers) =>
      LS.BrakeKeeps(c, t, words, notes, reason, detail, blockers);
      DeskActKeeps(f, EmitBrake(t, reason, detail, blockers), installs);
    case Rejects(id, reason, detail, blockers) =>
      LS.RejectKeeps(c, t, words, notes, reason, detail, blockers);
      DeskActKeeps(f, EmitReject(t, reason, detail, blockers), installs);
    case Holds(id, reason, detail, blockers) =>
      LS.HoldKeeps(c, t, words, notes, reason, detail, blockers);
      DeskActKeeps(f, EmitHold(t, reason, detail, blockers), installs);
    case Install(id, p, s, hi) =>
      LS.InstallKeeps(c, t, words, notes, p, hi);
      DeskActKeeps(f, InstallPlan(t, p, hi), installs);
    case Extend(id, answer, hi) =>
      LS.ExtendOneKeeps(c, t, words, notes, f.st.cfg, f.st.worldChanged, answer, hi);
      DeskActKeeps(f, ExtendOne(f.st.cfg, t, f.st.worldChanged, answer, hi), installs);
    case _ =>
  }

  lemma NewcomerKeepsFleet(f: State, v: Vehicle)
    requires FleetInv(f) && v.id in f.execs
    ensures FleetInv(f.(st := WithVehicle(f.st, v)))
  {
    hide Runs.LocalInv, LV.CoreOf, L.LinkInv, WellFormedBody, PairwiseDisjoint;
    var g := f.(st := WithVehicle(f.st, v));
    NewcomerKeeps(f.st, v);
    forall o | o in g.execs ensures Linked(g, o) {
      assert Linked(f, o) && Words(g, o) == Words(f, o) && Notes(g, o) == Notes(f, o);
      if o == v.id && o !in f.st.bodies {
        L.NewSeatKeeps(LV.CoreOf(f.execs[o]), Words(f, o), Notes(f, o), f.st.next, v.spec);
      }
    }
  }

  lemma HeardNote(f: State, v: Vehicle)
    requires Heard(f, v)
    ensures exists n :: n in Notes(f, v.id) && LS.ReportOf(v, n)
  {
    var s :| (v.id, s) in f.sessions && Conveys(v, s);
    assert (v.id, s).0 == v.id && NoteOf((v.id, s).1) in Notes(f, v.id);
    assert LS.ReportOf(v, NoteOf(s));
  }

  lemma FlagsKeepFleet(f: State, st: Station, installs: seq<Granted>)
    requires FleetInv(After(f, st, installs))
    ensures forall st' :: SameButFlags(st, st') ==> FleetInv(After(f, st', installs))
  {
    hide Runs.LocalInv, LV.CoreOf, L.LinkInv, WellFormedBody, SweepsDisjoint;
    var g := After(f, st, installs);
    forall st' | SameButFlags(st, st') ensures FleetInv(After(f, st', installs)) {
      var h := After(f, st', installs);
      FlagsKeep(g.st, h.st);
      assert h == g.(st := g.st.(worldChanged := st'.worldChanged, dirty := st'.dirty));
      forall o | o in h.execs ensures Linked(h, o) {
        assert Linked(g, o) && Words(h, o) == Words(g, o) && Notes(h, o) == Notes(g, o);
      }
    }
  }

  lemma UnchangedKeepsFleet(f: State)
    requires FleetInv(f)
    ensures FleetInv(After(f, f.st, f.installs))
  {
    assert After(f, f.st, f.installs) == f;
  }

  lemma SyncKeepsFleet(f: State, v: Vehicle)
    requires FleetInv(f) && Heard(f, v)
    ensures FleetInv(After(f, SyncVehicle(f.st, v), f.installs))
  {
    hide Runs.LocalInv, LV.CoreOf, L.LinkInv, WellFormedBody, PairwiseDisjoint, SyncVehicle;
    hide SyncBody, Outdated, LS.DeskInv, SweepsDisjoint;
    var n :| n in Notes(f, v.id) && LS.ReportOf(v, n) by { HeardNote(f, v); }
    var isNew := v.id !in f.st.bodies;
    var st1 := WithVehicle(f.st, v);
    SyncIsPut(f.st, v);
    if f.st.halted {
      HaltedStays(f.st, v);
      UnchangedKeepsFleet(f);
    } else if !isNew && Outdated(v, st1.bodies[v.id]) {
      UnchangedKeepsFleet(f);
    } else {
      var f1 := f.(st := st1);
      NewcomerKeepsFleet(f, v);
      DeskOf(f1, v.id);
      var t0 := st1.At(v.id);
      var t := SyncBody(st1.kit, t0, v, isNew);
      assert Words(f1, v.id) == Words(f, v.id) && Notes(f1, v.id) == Notes(f, v.id);
      LS.SyncKeeps(LV.CoreOf(f.execs[v.id]), st1.kit, t0, v, isNew, Words(f, v.id), Notes(f, v.id), n);
      SyncedKeeps(st1, t0, t, v, isNew);
      DeskActKeeps(f1, t, f.installs);
      assert After(f1, st1.Put(t), f.installs) == After(f, st1.Put(t), f.installs);
      FlagsKeepFleet(f, st1.Put(t), f.installs);
    }
  }

  lemma SyncedKeeps(st: Station, t0: Desk, t: Desk, v: Vehicle, isNew: bool)
    requires StationInv(st) && PairwiseDisjoint(st) && v.id in st.bodies && t0 == st.At(v.id)
    requires t == SyncBody(st.kit, t0, v, isNew)
    ensures StationInv(st.Put(t)) && PairwiseDisjoint(st.Put(t))
  {
    hide SyncBody, WellFormedBody, PairwiseDisjoint, Narrows;
    SyncNarrows(st.kit, t0, v, isNew);
    PutOnlyBody(st, t);
    NarrowingActKeeps(st, st.Put(t), v.id);
  }

  lemma PlainActsKeep(f: State, act: Act)
    requires FleetInv(f) && Enabled(f.st, act)
    requires act.SetWorld? || act.Allocate? || act.Flags? || act.Flush?
    ensures FleetInv(After(f, Do(f.st, act), f.installs))
  {
    hide Runs.LocalInv, LV.CoreOf, L.LinkInv, WellFormedBody, PairwiseDisjoint;
    var st := Do(f.st, act);
    PlainActKeeps(f.st, act);
    forall o | o in f.execs ensures LinkedAfter(f, st, o) {
      assert Linked(f, o);
      assert Words(f, o) + LS.Heard(st.out, o) == Words(f, o);
      L.NextKeeps(LV.CoreOf(f.execs[o]), SeatIn(f, o), Words(f, o), Notes(f, o), f.st.next, st.next);
    }
    StationKeeps(f, st, f.installs);
  }

  lemma CoordinatorKeeps(f: State, d: Decision)
    requires FleetInv(f) && Possible(f, CoordinatorSays(d))
    ensures FleetInv(Next(f, CoordinatorSays(d)))
  {
    hide Runs.LocalInv, LV.CoreOf, L.LinkInv, WellFormedBody, PairwiseDisjoint;
    var g := Next(f, CoordinatorSays(d));
    PlainActKeeps(f.st, Allocate);
    forall o | o in g.execs ensures Linked(g, o) {
      assert Linked(f, o) && Notes(g, o) == Notes(f, o) && SeatIn(g, o) == SeatIn(f, o);
      assert Words(g, o) == if d.id == o then Words(f, o) + {LS.WordOf(d)} else Words(f, o);
      if d.id == o {
        L.WordKeeps(LV.CoreOf(f.execs[o]), SeatIn(f, o), Words(f, o), Notes(f, o), f.st.next,
                    LS.WordOf(d));
      } else {
        L.NextKeeps(LV.CoreOf(f.execs[o]), SeatIn(f, o), Words(f, o), Notes(f, o), f.st.next,
                    g.st.next);
      }
    }
  }

  lemma NextIsAfter(f: State, act: Act) returns (g: State)
    requires FleetInv(f) && Possible(f, StationDoes(act))
    ensures g == Next(f, StationDoes(act))
    ensures g == After(f, Do(f.st, act), g.installs) && (!act.Install? ==> g.installs == f.installs)
  {
    hide StationInv, Do, Enabled, Linked, PairwiseDisjoint;
    g := Next(f, StationDoes(act));
  }

  lemma StationEventKeeps(f: State, act: Act)
    requires FleetInv(f) && Possible(f, StationDoes(act))
    ensures FleetInv(Next(f, StationDoes(act)))
  {
    hide FleetInv, StationInv, Do, Enabled, Next, After;
    var g := NextIsAfter(f, act);
    if act.Sync? { SyncKeepsFleet(f, act.v); DoSync(f, act.v); }
    else if act.SetWorld? || act.Allocate? || act.Flags? || act.Flush? { PlainActsKeep(f, act); }
    else { DeskActsKeep(f, act, g.installs); }
  }

  lemma DoSync(f: State, v: Vehicle)
    requires FleetInv(f)
    ensures Do(f.st, Sync(v)) == SyncVehicle(f.st, v)
  {
    hide SyncVehicle;
  }

  /** Every event keeps everything: the links of all vehicles and the disjointness of all
      reservations. */
  lemma EventKeeps(f: State, ev: Event)
    requires FleetInv(f) && Possible(f, ev)
    ensures FleetInv(Next(f, ev))
  {
    hide FleetInv, StationInv, Next, Possible;
    match ev
    case VehicleDoes(id, op) => VehicleKeeps(f, id, op);
    case CoordinatorSays(d) => CoordinatorKeeps(f, d);
    case StationDoes(act) => StationEventKeeps(f, act);
  }

  // ---------------------------------------------------------------- runs

  ghost predicate Reachable(f0: State, evs: seq<Event>, f: State)
    decreases |evs|
  {
    if evs == [] then Initial(f0) && f == f0
    else exists g :: Reachable(f0, evs[..|evs| - 1], g) && StationInv(g.st)
                     && Possible(g, evs[|evs| - 1]) && f == Next(g, evs[|evs| - 1])
  }

  lemma {:induction false} ReachableIsGood(f0: State, evs: seq<Event>, f: State)
    requires Reachable(f0, evs, f)
    ensures FleetInv(f)
    decreases |evs|
  {
    hide FleetInv, Possible, Next;
    if evs == [] {
      InitialIsGood(f0);
    } else {
      var g :| Reachable(f0, evs[..|evs| - 1], g) && StationInv(g.st)
               && Possible(g, evs[|evs| - 1]) && f == Next(g, evs[|evs| - 1]);
      ReachableIsGood(f0, evs[..|evs| - 1], g);
      EventKeeps(g, evs[|evs| - 1]);
    }
  }
}
