/** The one way in which the planner says a Go it does not stand by: in an extension turn the same
    vehicle can be extended and then, a moment later, refused because the fleet stands still. The Go
    is handed out although its reservation is already retiring. For every Go of every update, and for
    every Go that a step of the coordinator sends, the exact condition is proved: the stall check
    fires in the movers' turn, and the vehicle waits on a live reservation before that turn. */
module StalledExtension {
  import opened ResetProtocol
  import opened Bodies
  import opened PlannerModel
  import opened Reservations
  import opened PlannerOut
  import opened PlannerTurn
  import opened PlannerRuns
  import opened CoordinatorModel
  import Current = PlannerCurrent
  import Wire = CoordinatorWire
  import C = Coordinator
  import Sweep

  /** No decision about this vehicle is a Go. */
  ghost predicate GoFreeFor(out: seq<Decision>, id: Id) {
    forall d :: d in out && d.id == id ==> !d.state.Go?
  }

  /** Every Go about this vehicle is the permission it holds. */
  ghost predicate StandsBy(st: Station, id: Id) {
    && id in st.bodies
    && forall d :: d in st.out && d.id == id && d.state.Go? ==> st.bodies[id].LiveGrant() == Some(d.grantId)
  }

  /** What decides whether a body is refused by the stall check. */
  predicate SameStanding(b: Body, c: Body) {
    c.phase == b.phase && c.HasPlan() == b.HasPlan() && c.LiveGrant() == b.LiveGrant()
  }

  /** The stall check of the movers' turn strikes this vehicle. */
  predicate Struck(st: Station, c: Clock, id: Id) {
    && ExtensionDue(st.cfg, c) && FleetStalled(st, c.now, ProgressAt(st, c))
    && id in st.bodies && Stalls(st.bodies[id])
  }

  // ---------------------------------------------------------------- the cursors

  lemma AdvanceOneStands(st: Station, o: Id)
    ensures var r := AdvanceOne(st, o);
            && r.out == st.out && r.bodies.Keys == st.bodies.Keys && r.order == st.order && r.cfg == st.cfg
            && (forall id :: id in st.bodies ==> SameStanding(st.bodies[id], r.bodies[id]))
  {
    hide Progressed, Cursors;
  }

  lemma {:induction false} AdvanceAllStands(st: Station, ids: seq<Id>)
    ensures var r := AdvanceAll(st, ids);
            && r.out == st.out && r.bodies.Keys == st.bodies.Keys && r.order == st.order && r.cfg == st.cfg
            && (forall id :: id in st.bodies ==> SameStanding(st.bodies[id], r.bodies[id]))
  {
    hide AdvanceOne;
    if ids != [] {
      AdvanceAllStands(st, ids[..|ids| - 1]);
      AdvanceOneStands(AdvanceAll(st, ids[..|ids| - 1]), ids[|ids| - 1]);
    }
  }

  // ---------------------------------------------------------------- the extensions

  /** One extension leaves phase and reservation, and tells only who holds a live one. */
  ghost predicate OneWord(t: Desk, r: Desk) {
    && r.id == t.id && r.body.phase == t.body.phase && r.body.HasPlan() == t.body.HasPlan()
    && LiveCertified(r.body) && (t.body.LiveGrant().None? ==> r.body.LiveGrant().None?)
    && (r.out == t.out
        || (t.body.LiveGrant().Some?
            && exists d :: r.out == t.out + [d] && d.id == t.id && r.body.LiveGrant() == Permission(d)))
  }

  lemma ExtendKeepsPlan(cfg: PlannerConfig, t: Desk, worldChanged: bool, answer: Sweep.Violation, hi: seq<nat>)
    ensures var r := ExtendOne(cfg, t, worldChanged, answer, hi);
            r.body.phase == t.body.phase && r.body.HasPlan() == t.body.HasPlan()
  {
    hide Revokes, Waits, NewLimit;
  }

  lemma ExtendSaysOneWord(cfg: PlannerConfig, t: Desk, worldChanged: bool, answer: Sweep.Violation, hi: seq<nat>)
    requires LiveCertified(t.body)
    ensures OneWord(t, ExtendOne(cfg, t, worldChanged, answer, hi))
  {
    ExtendSays(cfg, t, worldChanged, answer, hi);
    ExtendKeepsPlan(cfg, t, worldChanged, answer, hi);
    hide ExtendOne, LiveCertified;
    var r := ExtendOne(cfg, t, worldChanged, answer, hi);
    if r.out != t.out { assert r.out == t.out + [r.out[|t.out|]]; }
  }

  lemma ExtendTurnStands(st: Station, o: Id, turn: Turn)
    requires forall id :: id in st.bodies ==> LiveCertified(st.bodies[id])
    ensures var r := ExtendTurn(st, o, turn);
            && r.bodies.Keys == st.bodies.Keys && r.order == st.order && r.cfg == st.cfg
            && (forall id :: id in r.bodies ==>
                  && LiveCertified(r.bodies[id]) && r.bodies[id].phase == st.bodies[id].phase
                  && r.bodies[id].HasPlan() == st.bodies[id].HasPlan()
                  && (st.bodies[id].LiveGrant().None? ==> r.bodies[id].LiveGrant().None?)
                  && (id != o ==> r.bodies[id] == st.bodies[id]))
            && (forall d :: d in r.out ==>
                  d in st.out
                  || (d.id == o && o in st.bodies && st.bodies[o].LiveGrant().Some?
                      && r.bodies[o].LiveGrant() == Permission(d)))
  {
    hide ExtendOne, LiveCertified;
    if o in st.bodies { ExtendSaysOneWord(st.cfg, st.At(o), st.worldChanged, turn.answer, turn.hi); }
  }

  /** In id order, where each body comes once: afterwards every Go about it is the permission it
      holds, and only who held a live reservation was told to go on. */
  lemma {:induction false} ExtendAllStands(st: Station, ids: seq<Id>, turns: seq<Turn>, id: Id)
    requires |turns| == |ids| && DistinctNames(ids) && id in st.bodies && GoFreeFor(st.out, id)
    requires forall o :: o in st.bodies ==> LiveCertified(st.bodies[o])
    ensures var r := ExtendAll(st, ids, turns);
            && r.bodies.Keys == st.bodies.Keys && r.order == st.order && r.cfg == st.cfg
            && (forall o :: o in r.bodies ==>
                  LiveCertified(r.bodies[o]) && r.bodies[o].HasPlan() == st.bodies[o].HasPlan())
            && r.bodies[id].phase == st.bodies[id].phase && StandsBy(r, id)
            && (id !in ids ==> r.bodies[id] == st.bodies[id] && GoFreeFor(r.out, id))
            && (st.bodies[id].LiveGrant().None? ==> r.bodies[id].LiveGrant().None?)
            && (!GoFreeFor(r.out, id) ==> st.bodies[id].LiveGrant().Some?)
  {
    hide ExtendTurn, LiveCertified;
    if ids != [] {
      var n := |ids| - 1;
      var mid := ExtendAll(st, ids[..n], turns[..n]);
      ExtendAllStands(st, ids[..n], turns[..n], id);
      ExtendTurnStands(mid, ids[n], turns[n]);
      assert ids[n] !in ids[..n];
    }
  }

  // ---------------------------------------------------------------- the stall check

  /** The stall check takes the permission of exactly those that wait. */
  lemma {:induction false} StallAllTakes(st: Station, ids: seq<Id>, id: Id)
    requires id in st.bodies
    ensures var r := StallAll(st, ids);
            && id in r.bodies && r.bodies[id].HasPlan() == st.bodies[id].HasPlan()
            && r.bodies[id].phase == st.bodies[id].phase
            && (forall d :: d in r.out && d.state.Go? ==> d in st.out) && (!r.halted ==> !st.halted)
            && (!r.halted ==>
                  r.bodies[id].LiveGrant() == if id in ids && Stalls(st.bodies[id]) then None
                                              else st.bodies[id].LiveGrant())
  {
    if ids != [] {
      StallAllTakes(st, ids[..|ids| - 1], id);
      StallOneTakes(StallAll(st, ids[..|ids| - 1]), ids[|ids| - 1], id);
    }
  }

  lemma StallOneTakes(st: Station, o: Id, id: Id)
    requires id in st.bodies
    ensures var r := StallOne(st, o);
            && id in r.bodies && r.bodies[id].HasPlan() == st.bodies[id].HasPlan()
            && r.bodies[id].phase == st.bodies[id].phase
            && (forall d :: d in r.out && d.state.Go? ==> d in st.out) && (!r.halted ==> !st.halted)
            && (!r.halted ==>
                  r.bodies[id].LiveGrant() == if id == o && Stalls(st.bodies[id]) then None
                                              else st.bodies[id].LiveGrant())
  {
  }

  // ---------------------------------------------------------------- the movers' turn

  /** Where a vehicle is left: refused, or standing by what it was told. */
  ghost predicate LeftAt(r: Station, id: Id, struck: bool) {
    && id in r.bodies
    && (if struck then r.bodies[id].HasPlan() && r.bodies[id].LiveGrant().None? else StandsBy(r, id))
  }

  lemma ExtensionTurnLeaves(st: Station, now: real, progress: real, turns: seq<Turn>, id: Id)
    requires |turns| == |st.order| && DistinctNames(st.order) && id in st.bodies && GoFreeFor(st.out, id)
    requires forall o :: o in st.bodies ==> LiveCertified(st.bodies[o]) && o in st.order
    requires !ExtensionTurn(st, now, progress, turns).halted
    ensures LeftAt(ExtensionTurn(st, now, progress, turns), id,
                   FleetStalled(st, now, progress) && Stalls(st.bodies[id]))
  {
    hide ExtendAll, StallAll, LiveCertified;
    ExtendAllStands(st, st.order, turns, id);
    var st2 := ExtendAll(st, st.order, turns).(worldChanged := false);
    assert AnyPlan(st2) == AnyPlan(st) by { SamePlans(st, st2); }
    if FleetStalled(st2, now, progress) { StallAllTakes(st2, st2.order, id); }
  }

  lemma SamePlans(a: Station, b: Station)
    requires a.bodies.Keys == b.bodies.Keys
    requires forall o :: o in a.bodies ==> b.bodies[o].HasPlan() == a.bodies[o].HasPlan()
    ensures AnyPlan(a) == AnyPlan(b)
  {
    if AnyPlan(a) {
      var o :| o in a.bodies && a.bodies[o].HasPlan();
      assert o in b.bodies && b.bodies[o].HasPlan();
    }
    if AnyPlan(b) {
      var o :| o in b.bodies && b.bodies[o].HasPlan();
      assert o in a.bodies && a.bodies[o].HasPlan();
    }
  }

  lemma MoversTurnLeaves(st: Station, c: Clock, turns: seq<Turn>, id: Id)
    requires ExtensionDue(st.cfg, c) ==> |turns| == |AdvanceAll(st, st.order).order|
    requires DistinctNames(st.order) && id in st.bodies && GoFreeFor(st.out, id)
    requires forall o :: o in st.bodies ==> LiveCertified(st.bodies[o]) && o in st.order
    requires !MoversTurn(st, c, turns).halted
    ensures LeftAt(MoversTurn(st, c, turns), id, Struck(st, c, id))
  {
    hide AdvanceAll, ExtensionTurn, ProgressAt, DistinctNames;
    AdvanceAllStands(st, st.order);
    var st1 := AdvanceAll(st, st.order);
    if ExtensionDue(st.cfg, c) {
      forall o | o in st1.bodies ensures LiveCertified(st1.bodies[o]) && o in st1.order {
        assert o in st1.bodies.Keys && SameStanding(st.bodies[o], st1.bodies[o]);
        AdvanceKeepsLive(st, st.order, o);
      }
      assert SameStanding(st.bodies[id], st1.bodies[id]);
      SamePlans(st, st1);
      StallsByStanding(st.bodies[id], st1.bodies[id]);
      ExtensionTurnLeaves(st1, c.now, ProgressAt(st, c), turns, id);
    }
  }

  lemma StallsByStanding(b: Body, c: Body)
    requires SameStanding(b, c)
    ensures Stalls(b) == Stalls(c)
  {
  }

  lemma {:induction false} AdvanceKeepsLive(st: Station, ids: seq<Id>, id: Id)
    requires id in st.bodies && LiveCertified(st.bodies[id])
    ensures id in AdvanceAll(st, ids).bodies && LiveCertified(AdvanceAll(st, ids).bodies[id])
  {
    hide Progressed, Cursors;
    if ids != [] { AdvanceKeepsLive(st, ids[..|ids| - 1], id); }
  }

  // ---------------------------------------------------------------- the admission round

  /** Who holds a reservation is left alone; a new Go is the permission that comes with it. */
  lemma AdmitOneLeaves(st: Station, move: Move, turn: Turn, id: Id, struck: bool)
    requires LeftAt(st, id, struck)
    ensures LeftAt(AdmitOne(st, move, turn), id, struck) && (st.halted ==> AdmitOne(st, move, turn).halted)
  {
    hide PlanFor, Viable;
  }

  lemma {:induction false} AdmitAllLeaves(st: Station, moves: seq<Move>, turns: seq<Turn>, id: Id, struck: bool)
    requires |turns| == |moves| && LeftAt(st, id, struck)
    ensures var r := AdmitAll(st, moves, turns); LeftAt(r, id, struck) && (st.halted ==> r.halted)
  {
    hide AdmitOne, LeftAt;
    if moves != [] {
      var n := |moves| - 1;
      AdmitAllLeaves(st, moves[..n], turns[..n], id, struck);
      AdmitOneLeaves(AdmitAll(st, moves[..n], turns[..n]), moves[n], turns[n], id, struck);
    }
  }

  lemma AdmissionTurnLeaves(st: Station, c: Clock, moves: seq<Move>, turns: seq<Turn>, id: Id, struck: bool)
    requires |turns| == |moves| && LeftAt(st, id, struck)
    ensures var r := AdmissionTurn(st, c, moves, turns); LeftAt(r, id, struck) && (st.halted ==> r.halted)
  {
    hide AdmitAll, AnyWaiting;
    AdmitAllLeaves(st.(dirty := false), moves, turns, id, struck);
  }

  lemma TurnLeaves(st: Station, c: Clock, moves: seq<Move>, answers: Answers, id: Id)
    requires Fits(st, c, true, moves, answers) && DistinctNames(st.order) && id in st.bodies && GoFree(st.out)
    requires forall o :: o in st.bodies ==> LiveCertified(st.bodies[o]) && o in st.order
    requires !StepTurn(st, c, true, moves, answers).halted
    ensures LeftAt(StepTurn(st, c, true, moves, answers), id, Struck(st, c, id))
  {
    hide MoversTurn, AdmissionTurn, MoversClock, Struck, LeftAt, DistinctNames, LiveCertified, AdvanceAll;
    var st2 := MoversTurn(st, c, answers.movers);
    assert GoFreeFor(st.out, id);
    if st2.halted { AdmissionHalts(st2, MoversClock(st, c, answers.movers), moves, answers.moves); }
    MoversTurnLeaves(st, c, answers.movers, id);
    AdmissionTurnLeaves(st2, MoversClock(st, c, answers.movers), moves, answers.moves, id, Struck(st, c, id));
  }

  lemma AdmissionHalts(st: Station, c: Clock, moves: seq<Move>, turns: seq<Turn>)
    requires |turns| == |moves| && st.halted
    ensures AdmissionTurn(st, c, moves, turns).halted
  {
    hide AdmitAll, AnyWaiting;
    AdmitAllHalts(st.(dirty := false), moves, turns);
  }

  lemma {:induction false} AdmitAllHalts(st: Station, moves: seq<Move>, turns: seq<Turn>)
    requires |turns| == |moves| && st.halted
    ensures AdmitAll(st, moves, turns).halted
  {
    hide PlanFor, Viable;
    if moves != [] { AdmitAllHalts(st, moves[..|moves| - 1], turns[..|moves| - 1]); }
  }

  // ---------------------------------------------------------------- one update

  /** The station in which the turn begins: the reports have said no Go. */
  lemma ReportsAreIn(base: Station, vs: seq<Vehicle>)
    requires Sound(base, base) && base.out == [] && DistinctNames(base.order)
    ensures var st := SyncAll(base, vs);
            && GoFree(st.out) && DistinctNames(st.order) && Sound(base, st)
            && (forall o :: o in st.bodies ==> LiveCertified(st.bodies[o]) && o in st.order)
  {
    hide PairwiseDisjoint, WellFormedBody, GoodWorld, KitShaped, GoodKit, SyncAll, DistinctNames, Reaches, WordHolds;
    SyncAllSound(base, base, vs);
    SyncAllReaches(vs, base, base, |vs|);
    assert vs[..|vs|] == vs;
    C.OrderStays(vs, base, SyncAll(base, vs));
  }

  /** A vehicle the stall check strikes has no live permission after the update. */
  lemma StruckIsRefused(base: Station, vs: seq<Vehicle>, c: Clock, admit: bool, moves: seq<Move>,
                        answers: Answers, after: Station, id: Id)
    requires Sound(base, base) && base.out == [] && DistinctNames(base.order)
    requires Updates(base, vs, c, admit, moves, answers, after) && !after.halted
    requires id in SyncAll(base, vs).bodies
    ensures id in after.bodies
    ensures admit ==> LeftAt(after, id, Struck(SyncAll(base, vs), c, id))
    ensures !admit ==> GoFree(after.out) && after.bodies[id].LiveGrant().None?
  {
    hide StepTurn, Struck, SyncAll, Sound, DistinctNames, LiveCertified, AnswersRight, Fits, Shaped, GoFree;
    ReportsAreIn(base, vs);
    var st := SyncAll(base, vs);
    Current.StepTurnStays(st, c, admit, moves, answers);
    assert id in after.bodies by {
      hide Struck;
      assert id in st.bodies.Keys;
      KeysStay(st, after);
    }
    if admit {
      TurnLeaves(st, c, moves, answers, id);
    } else {
      NoGoWithoutAdmission(base, st, c, moves, answers);
    }
  }

  lemma KeysStay(st: Station, st': Station)
    requires Current.Stays(st, st')
    ensures st'.bodies.Keys == st.bodies.Keys
  {
  }

  /** Whatever an update says, for every Go: the planner stands by it at the end of the update if and
      only if the stall check did not strike its vehicle. */
  lemma GoStandsUnlessStruck(base: Station, vs: seq<Vehicle>, c: Clock, admit: bool, moves: seq<Move>,
                             answers: Answers, after: Station, d: Decision)
    requires Sound(base, base) && base.out == [] && DistinctNames(base.order)
    requires Updates(base, vs, c, admit, moves, answers, after) && !after.halted
    requires d in after.out && d.state.Go?
    ensures d.id in after.bodies
    ensures after.bodies[d.id].LiveGrant() == Some(d.grantId) <==> !Struck(SyncAll(base, vs), c, d.id)
  {
    hide StepTurn, Struck, SyncAll, DistinctNames, AnswersRight, Fits, Shaped, StationInv, PairwiseDisjoint;
    UpdateIsARun(base, vs, c, admit, moves, answers, after);
    var k :| 0 <= k < |after.out| && after.out[k] == d;
    assert d.id in after.bodies;
    Current.StepTurnStays(SyncAll(base, vs), c, admit, moves, answers);
    KeysStay(SyncAll(base, vs), after);
    assert d.id in SyncAll(base, vs).bodies.Keys;
    StruckIsRefused(base, vs, c, admit, moves, answers, after, d.id);
  }

  // ---------------------------------------------------------------- one step of the coordinator

  function Sends(cfg: CoordinatorConfig, entries: map<Id, Entry>, names: seq<Id>, after: Station, scene: bool,
                 admit: bool, now: real): Office
  {
    C.Letters(cfg, entries, names, after.next, after.out, after.bodies, after.order, scene, admit, now)
  }

  /** Every Go that a step of the coordinator puts on the wire, decided or repeated: the planner holds
      the live reservation it speaks of if and only if the stall check did not strike its vehicle. */
  lemma LettersStandUnlessStruck(cfg: CoordinatorConfig, entries: map<Id, Entry>, names: seq<Id>,
                                 wire: seq<Sent>, before: Station, c: Clock, scene: bool, admit: bool,
                                 moves: seq<Move>, answers: Answers, after: Station, now: real)
    requires C.StationSound(cfg, before, entries, names, wire) && Sound(before, before) && before.out == []
    requires Updates(before, C.Vehicles(cfg, entries, names, now), c, admit, moves, answers, after)
    requires var o := Sends(cfg, entries, names, after, scene, admit, now);
             !after.halted && !o.halted
    ensures var o := Sends(cfg, entries, names, after, scene, admit, now);
            var st := SyncAll(before, C.Vehicles(cfg, entries, names, now));
            forall k :: 0 <= k < |o.out| && o.out[k].grant.state.Go? ==>
              (Wire.Stands(o.out[k], after.bodies) <==> !Struck(st, c, o.out[k].to))
  {
    hide C.Letters, C.Vehicles, Struck, SyncAll, Wire.Stands, Updates, C.UpdateOf, C.ReportsOf;
    var vs := C.Vehicles(cfg, entries, names, now);
    var st := SyncAll(before, vs);
    var o := Sends(cfg, entries, names, after, scene, admit, now);
    C.StationReports(cfg, before, entries, names, wire, now);
    C.TimelyReports(entries, names, vs, before.bodies);
    C.UpdateFacts(before, vs, c, admit, moves, answers, after);
    forall k | 0 <= k < |o.out| && o.out[k].grant.state.Go?
      ensures Wire.Stands(o.out[k], after.bodies) <==> !Struck(st, c, o.out[k].to)
    {
      LetterStands(cfg, entries, names, before, vs, c, scene, admit, moves, answers, after, now, k);
    }
  }

  lemma LetterStands(cfg: CoordinatorConfig, entries: map<Id, Entry>, names: seq<Id>, before: Station,
                     vs: seq<Vehicle>, c: Clock, scene: bool, admit: bool, moves: seq<Move>,
                     answers: Answers, after: Station, now: real, k: nat)
    requires Wire.Agrees(entries, before.bodies) && C.ReportsOf(entries, names, vs)
    requires Sound(before, before) && before.out == [] && DistinctNames(before.order)
    requires Updates(before, vs, c, admit, moves, answers, after) && C.UpdateOf(before, after, vs)
    requires var o := Sends(cfg, entries, names, after, scene, admit, now);
             !after.halted && !o.halted && k < |o.out| && o.out[k].grant.state.Go?
    ensures var o := Sends(cfg, entries, names, after, scene, admit, now);
            Wire.Stands(o.out[k], after.bodies) <==> !Struck(SyncAll(before, vs), c, o.out[k].to)
  {
    hide DecideAll, HoldAll, BeatAll, Wire.Agrees, C.ReportsOf, Sound, Struck, SyncAll, StepTurn, AnswersRight;
    var o1 := DecideAll(cfg, Office(entries, after.next, [], false), after.out, now);
    var o := Sends(cfg, entries, names, after, scene, admit, now);
    var x := o.out[k];
    C.HeartbeatAgreement(cfg, entries, names, vs, before, after, scene, admit, now);
    if !admit {
      NoGoWithoutAdmissionHere(before, vs, c, moves, answers, after);
      C.NoGoLeaves(cfg, entries, names, vs, before, after, scene, now);
      assert false;
    } else if k < |o1.out| {
      Wire.DecideAllVoices(cfg, Office(entries, after.next, [], false), after.out, now);
      assert x == o.out[..|o1.out|][k] == o1.out[k];
      assert x in o1.out && Wire.Decided(cfg, x, after.out);
      var d :| d in after.out && Wire.Voices(cfg, x, d);
      GoStandsUnlessStruck(before, vs, c, admit, moves, answers, after, d);
    } else {
      RepeatIsOfKnown(before, vs, c, admit, moves, answers, after, x);
      StruckIsRefused(before, vs, c, admit, moves, answers, after, x.to);
    }
  }

  lemma NoGoWithoutAdmissionHere(base: Station, vs: seq<Vehicle>, c: Clock, moves: seq<Move>,
                                 answers: Answers, after: Station)
    requires Sound(base, base) && base.out == [] && DistinctNames(base.order)
    requires Updates(base, vs, c, false, moves, answers, after)
    ensures GoFree(after.out) && Still(after)
  {
    hide StepTurn, SyncAll, Sound, DistinctNames, AnswersRight, Fits, Shaped, GoFree, Still;
    ReportsAreIn(base, vs);
    NoGoWithoutAdmission(base, SyncAll(base, vs), c, moves, answers);
  }

  lemma RepeatIsOfKnown(base: Station, vs: seq<Vehicle>, c: Clock, admit: bool, moves: seq<Move>,
                        answers: Answers, after: Station, x: Sent)
    requires Updates(base, vs, c, admit, moves, answers, after)
    requires x.grant.state.Go? && Wire.Stands(x, after.bodies)
    ensures x.to in SyncAll(base, vs).bodies
  {
    hide StepTurn, SyncAll, AnswersRight, Fits, Shaped;
    Current.StepTurnStays(SyncAll(base, vs), c, admit, moves, answers);
    KeysStay(SyncAll(base, vs), after);
    assert x.to in after.bodies.Keys;
  }
}
