/** The planner object does nothing but acts: whatever one update changes, it changes by a run of
    enabled acts, in which the only reports are those it was given. */
module PlannerRuns {
  import opened ResetProtocol
  import opened Bodies
  import opened Sweep
  import opened PlannerModel
  import opened Reservations
  import opened PlannerOut
  import opened PlannerTurn

  /** The report of one of these vehicles, or an act of the planner's own. */
  ghost predicate Acts(vs: seq<Vehicle>, st: Station, st': Station)
    requires StationInv(st)
  {
    ActStep(st, st') || exists k :: 0 <= k < |vs| && st' == SyncVehicle(st, vs[k])
  }

  ghost predicate Leads(vs: seq<Vehicle>, n: nat, st: Station, st': Station) {
    if n == 0 then st' == st
    else exists mid :: Leads(vs, n - 1, st, mid) && StationInv(mid) && Acts(vs, mid, st')
  }

  /** st' is reached from st by enabled acts, of which only the reports of these vehicles are heard. */
  ghost predicate Reaches(vs: seq<Vehicle>, st: Station, st': Station) { exists n: nat :: Leads(vs, n, st, st') }

  lemma ReachesItself(vs: seq<Vehicle>, st: Station)
    ensures Reaches(vs, st, st)
  {
    assert Leads(vs, 0, st, st);
  }

  lemma ReachesOneMore(vs: seq<Vehicle>, st: Station, mid: Station, st': Station)
    requires Reaches(vs, st, mid) && StationInv(mid) && Acts(vs, mid, st')
    ensures Reaches(vs, st, st')
  {
    hide StationInv, Acts;
    var n: nat :| Leads(vs, n, st, mid);
    assert Leads(vs, n + 1, st, st');
  }

  lemma FlagsReach(vs: seq<Vehicle>, base: Station, st: Station, mid: Station, worldChanged: bool, dirty: bool)
    requires Reaches(vs, st, mid) && Sound(base, mid)
    ensures Sound(base, mid.(worldChanged := worldChanged, dirty := dirty))
    ensures Reaches(vs, st, mid.(worldChanged := worldChanged, dirty := dirty))
  {
    hide StationInv, PairwiseDisjoint, Speaks, Reaches;
    ActIsSound(base, mid, Flags(worldChanged, dirty));
    ReachesOneMore(vs, st, mid, mid.(worldChanged := worldChanged, dirty := dirty));
  }

  lemma {:induction false} SyncAllReaches(vs: seq<Vehicle>, base: Station, st: Station, n: nat)
    requires Sound(base, st) && n <= |vs|
    ensures Reaches(vs, st, SyncAll(st, vs[..n])) && Sound(base, SyncAll(st, vs[..n]))
  {
    hide PairwiseDisjoint, Speaks, WellFormedBody, Reaches, ActStep, SyncVehicle, GoodKit, KitShaped, GoodWorld;
    ReachesItself(vs, st);
    if n > 0 {
      var mid := SyncAll(st, vs[..n - 1]);
      SyncAllReaches(vs, base, st, n - 1);
      SyncIsSound(base, mid, vs[n - 1]);
      assert vs[..n][..n - 1] == vs[..n - 1];
      ReachesOneMore(vs, st, mid, SyncVehicle(mid, vs[n - 1]));
    }
  }

  lemma {:induction false} AdvanceAllReaches(vs: seq<Vehicle>, base: Station, st: Station, ids: seq<Id>)
    requires Sound(base, st)
    ensures Reaches(vs, st, AdvanceAll(st, ids)) && Sound(base, AdvanceAll(st, ids))
    ensures SameFleet(st, AdvanceAll(st, ids))
  {
    hide StationInv, PairwiseDisjoint, Speaks, Reaches, ActStep, AdvanceOne;
    ReachesItself(vs, st);
    if ids != [] {
      var mid := AdvanceAll(st, ids[..|ids| - 1]);
      AdvanceAllReaches(vs, base, st, ids[..|ids| - 1]);
      AdvanceOneSound(base, mid, ids[|ids| - 1]);
      ReachesOneMore(vs, st, mid, AdvanceOne(mid, ids[|ids| - 1]));
    }
  }

  lemma {:induction false} ExtendAllReaches(vs: seq<Vehicle>, base: Station, st: Station, ids: seq<Id>,
                                            turns: seq<Turn>)
    requires Sound(base, st) && |turns| == |ids| && TurnsRight(st, ids, turns)
    ensures Reaches(vs, st, ExtendAll(st, ids, turns)) && Sound(base, ExtendAll(st, ids, turns))
    ensures SameFleet(st, ExtendAll(st, ids, turns))
  {
    hide StationInv, PairwiseDisjoint, Speaks, Reaches, ActStep, ExtendTurn, Enabled;
    ReachesItself(vs, st);
    if ids != [] {
      var n := |ids| - 1;
      var mid := ExtendAll(st, ids[..n], turns[..n]);
      ExtendAllReaches(vs, base, st, ids[..n], turns[..n]);
      ExtendTurnSound(base, mid, ids[n], turns[n]);
      ReachesOneMore(vs, st, mid, ExtendTurn(mid, ids[n], turns[n]));
    }
  }

  lemma {:induction false} StallAllReaches(vs: seq<Vehicle>, base: Station, st: Station, ids: seq<Id>)
    requires Sound(base, st)
    ensures Reaches(vs, st, StallAll(st, ids)) && Sound(base, StallAll(st, ids))
    ensures SameFleet(st, StallAll(st, ids))
  {
    hide StationInv, PairwiseDisjoint, Speaks, Reaches, ActStep, StallOne;
    ReachesItself(vs, st);
    if ids != [] {
      var mid := StallAll(st, ids[..|ids| - 1]);
      StallAllReaches(vs, base, st, ids[..|ids| - 1]);
      StallOneSound(base, mid, ids[|ids| - 1]);
      ReachesOneMore(vs, st, mid, StallOne(mid, ids[|ids| - 1]));
    }
  }

  lemma {:induction false} BrakeAllReaches(vs: seq<Vehicle>, base: Station, st: Station, ids: seq<Id>)
    requires Sound(base, st)
    ensures Reaches(vs, st, BrakeAll(st, ids)) && Sound(base, BrakeAll(st, ids))
    ensures SameFleet(st, BrakeAll(st, ids))
  {
    hide StationInv, PairwiseDisjoint, Speaks, Reaches, ActStep, BrakeOne;
    ReachesItself(vs, st);
    if ids != [] {
      var mid := BrakeAll(st, ids[..|ids| - 1]);
      BrakeAllReaches(vs, base, st, ids[..|ids| - 1]);
      BrakeOneSound(base, mid, ids[|ids| - 1]);
      ReachesOneMore(vs, st, mid, BrakeOne(mid, ids[|ids| - 1]));
    }
  }

  lemma {:induction false} AdmitAllReaches(vs: seq<Vehicle>, base: Station, st: Station, moves: seq<Move>,
                                           turns: seq<Turn>)
    requires Sound(base, st) && |turns| == |moves| && MovesRight(st, moves, turns)
    ensures Reaches(vs, st, AdmitAll(st, moves, turns)) && Sound(base, AdmitAll(st, moves, turns))
  {
    hide StationInv, PairwiseDisjoint, Speaks, Reaches, ActStep, AdmitOne, MoveRight;
    ReachesItself(vs, st);
    if moves != [] {
      var n := |moves| - 1;
      var mid := AdmitAll(st, moves[..n], turns[..n]);
      AdmitAllReaches(vs, base, st, moves[..n], turns[..n]);
      AdmitOneSound(base, mid, moves[n], turns[n]);
      ReachesOneMore(vs, st, mid, AdmitOne(mid, moves[n], turns[n]));
    }
  }

  lemma ReachesTransitive(vs: seq<Vehicle>, n: nat, a: Station, b: Station, c: Station)
    requires Reaches(vs, a, b) && Leads(vs, n, b, c)
    ensures Reaches(vs, a, c)
    decreases n
  {
    hide StationInv, Acts;
    if n > 0 {
      var mid :| Leads(vs, n - 1, b, mid) && StationInv(mid) && Acts(vs, mid, c);
      ReachesTransitive(vs, n - 1, a, b, mid);
      ReachesOneMore(vs, a, mid, c);
    }
  }

  lemma ReachesOn(vs: seq<Vehicle>, a: Station, b: Station, c: Station)
    requires Reaches(vs, a, b) && Reaches(vs, b, c)
    ensures Reaches(vs, a, c)
  {
    var n: nat :| Leads(vs, n, b, c);
    ReachesTransitive(vs, n, a, b, c);
  }

  lemma ExtensionTurnReaches(vs: seq<Vehicle>, base: Station, st: Station, now: real, progress: real, turns: seq<Turn>)
    requires Sound(base, st) && |turns| == |st.order| && TurnsRight(st, st.order, turns)
    ensures Reaches(vs, st, ExtensionTurn(st, now, progress, turns))
    ensures Sound(base, ExtensionTurn(st, now, progress, turns))
  {
    hide Sound, Reaches, ExtendAll, StallAll, TurnsRight;
    var st1 := ExtendAll(st, st.order, turns);
    ExtendAllReaches(vs, base, st, st.order, turns);
    FlagsReach(vs, base, st, st1, false, st1.dirty);
    var st2 := st1.(worldChanged := false);
    if FleetStalled(st2, now, progress) {
      StallAllReaches(vs, base, st2, st2.order);
      ReachesOn(vs, st, st2, StallAll(st2, st2.order));
      var st3 := StallAll(st2, st2.order);
      FlagsReach(vs, base, st, st3, st3.worldChanged, true);
    }
  }

  lemma MoversTurnReaches(vs: seq<Vehicle>, base: Station, st: Station, c: Clock, turns: seq<Turn>)
    requires Sound(base, st)
    requires ExtensionDue(st.cfg, c) ==>
               |turns| == |AdvanceAll(st, st.order).order|
               && TurnsRight(AdvanceAll(st, st.order), AdvanceAll(st, st.order).order, turns)
    ensures Reaches(vs, st, MoversTurn(st, c, turns)) && Sound(base, MoversTurn(st, c, turns))
  {
    hide Sound, Reaches, ExtensionTurn, AdvanceAll, TurnsRight, ProgressAt;
    AdvanceAllReaches(vs, base, st, st.order);
    if ExtensionDue(st.cfg, c) {
      ExtensionTurnReaches(vs, base, AdvanceAll(st, st.order), c.now, ProgressAt(st, c), turns);
      ReachesOn(vs, st, AdvanceAll(st, st.order), MoversTurn(st, c, turns));
    }
  }

  lemma AdmissionTurnReaches(vs: seq<Vehicle>, base: Station, st: Station, c: Clock, moves: seq<Move>, turns: seq<Turn>)
    requires Sound(base, st) && |turns| == |moves|
    requires Admission(st, c) ==> MovesRight(st.(dirty := false), moves, turns)
    ensures Reaches(vs, st, AdmissionTurn(st, c, moves, turns)) && Sound(base, AdmissionTurn(st, c, moves, turns))
  {
    hide Sound, Reaches, AdmitAll, MovesRight, AnyWaiting;
    ReachesItself(vs, st);
    FlagsReach(vs, base, st, st, st.worldChanged, false);
    if Admission(st, c) {
      AdmitAllReaches(vs, base, st.(dirty := false), moves, turns);
      ReachesOn(vs, st, st.(dirty := false), AdmitAll(st.(dirty := false), moves, turns));
    }
  }

  /** One update: what was reported, the turn that was taken, and answers that were right. */
  ghost predicate Updates(base: Station, vs: seq<Vehicle>, c: Clock, admit: bool, moves: seq<Move>,
                          answers: Answers, after: Station)
  {
    && Shaped(base) && Fits(SyncAll(base, vs), c, admit, moves, answers)
    && AnswersRight(SyncAll(base, vs), c, admit, moves, answers)
    && after == StepTurn(SyncAll(base, vs), c, admit, moves, answers)
  }

  /** The turn of an update is a run of the planner's own acts. */
  lemma TurnIsARun(vs: seq<Vehicle>, base: Station, st: Station, c: Clock, admit: bool, moves: seq<Move>,
                   answers: Answers)
    requires Sound(base, st) && Fits(st, c, admit, moves, answers) && AnswersRight(st, c, admit, moves, answers)
    ensures Reaches(vs, st, StepTurn(st, c, admit, moves, answers))
    ensures Sound(base, StepTurn(st, c, admit, moves, answers))
  {
    hide Sound, Reaches, MoversTurn, AdmissionTurn, AdvanceAll, BrakeAll, TurnsRight, MovesRight;
    hide Admission, MoversClock, Shaped;
    BrakeAllReaches(vs, base, st, st.order);
    ReachesItself(vs, st);
    var st1 := Braked(st, admit);
    MoversTurnReaches(vs, base, st1, c, answers.movers);
    var st2 := MoversTurn(st1, c, answers.movers);
    ReachesOn(vs, st, st1, st2);
    if admit {
      AdmissionTurnReaches(vs, base, st2, MoversClock(st1, c, answers.movers), moves, answers.moves);
      ReachesOn(vs, st, st2, AdmissionTurn(st2, MoversClock(st1, c, answers.movers), moves, answers.moves));
    }
  }

  /** One update of the planner is a run of enabled acts, of which the only reports are those it was
      given: every invariant of the acts is kept by it. */
  lemma UpdateIsARun(base: Station, vs: seq<Vehicle>, c: Clock, admit: bool, moves: seq<Move>,
                     answers: Answers, after: Station)
    requires Sound(base, base) && Updates(base, vs, c, admit, moves, answers, after)
    ensures Reaches(vs, base, after) && Sound(base, after)
  {
    hide Sound, Reaches, SyncAll, StepTurn, AnswersRight, Fits, Shaped;
    SyncAllReaches(vs, base, base, |vs|);
    assert vs[..|vs|] == vs;
    TurnIsARun(vs, base, SyncAll(base, vs), c, admit, moves, answers);
    ReachesOn(vs, base, SyncAll(base, vs), after);
  }

  // ---------------------------------------------------------------- the order of the bodies

  ghost predicate DistinctNames(names: seq<Id>) {
    forall i, j :: 0 <= i < j < |names| ==> names[i] != names[j]
  }

  lemma ConsDistinct(x: Id, names: seq<Id>)
    requires x !in names && DistinctNames(names)
    ensures DistinctNames([x] + names)
  {
  }

  lemma {:induction false} InsertDistinct(names: seq<Id>, name: Id)
    requires name !in names && DistinctNames(names)
    ensures DistinctNames(InsertId(names, name))
  {
    if names == [] || LexLess(name, names[0]) {
      ConsDistinct(name, names);
    } else {
      InsertDistinct(names[1..], name);
      var r := InsertId(names[1..], name);
      assert names[0] !in names[1..];
      assert names[0] !in r;
      ConsDistinct(names[0], r);
    }
  }

  lemma SyncKeepsOrder(st: Station, v: Vehicle)
    requires StationInv(st) && DistinctNames(st.order)
    ensures DistinctNames(SyncVehicle(st, v).order)
  {
    hide SyncVehicle, SyncBody, Outdated, WellFormedBody, GoodWorld, KitShaped, GoodKit, DistinctNames;
    SyncIsPut(st, v);
    if st.halted { HaltedStays(st, v); }
    else if v.id !in st.bodies { InsertDistinct(st.order, v.id); }
  }

  lemma ActKeepsOrder(st: Station, act: Act)
    requires StationInv(st) && DistinctNames(st.order) && Enabled(st, act)
    ensures DistinctNames(Do(st, act).order)
  {
    hide SyncVehicle, EmitBrake, EmitReject, EmitHold, Advanced, InstallPlan, ExtendOne, GoodWorld, DistinctNames;
    hide NaiveAnswer, PrefixEnds, WellFormedPlan, Asks, PlannerModel.Extends, KitShaped, Verified, GoodCandidate;
    if act.Sync? { SyncKeepsOrder(st, act.v); }
  }

  lemma TheAct(st: Station, st': Station) returns (act: Act)
    requires StationInv(st) && ActStep(st, st') && st' != st
    ensures Enabled(st, act) && Own(act) && st' == Do(st, act)
  {
    hide WellFormedBody, GoodWorld, KitShaped, GoodCandidate, Verified, Answered, PrefixesEnd, Do;
    act :| Enabled(st, act) && Own(act) && st' == Do(st, act);
  }

  lemma TheReport(vs: seq<Vehicle>, st: Station, st': Station) returns (k: nat)
    requires StationInv(st) && Acts(vs, st, st') && !ActStep(st, st')
    ensures k < |vs| && st' == SyncVehicle(st, vs[k])
  {
    hide WellFormedBody, GoodWorld, KitShaped, SyncVehicle, ActStep;
    k :| 0 <= k < |vs| && st' == SyncVehicle(st, vs[k]);
  }

  lemma {:induction false} RunKeepsOrder(vs: seq<Vehicle>, n: nat, st: Station, st': Station)
    requires Leads(vs, n, st, st') && DistinctNames(st.order)
    ensures DistinctNames(st'.order)
  {
    hide StationInv, DistinctNames, Enabled, Do, SyncVehicle, Acts, ActStep;
    if n > 0 {
      var mid :| Leads(vs, n - 1, st, mid) && StationInv(mid) && Acts(vs, mid, st');
      RunKeepsOrder(vs, n - 1, st, mid);
      if !ActStep(mid, st') {
        var k := TheReport(vs, mid, st');
        SyncKeepsOrder(mid, vs[k]);
      } else if st' != mid {
        var act := TheAct(mid, st');
        ActKeepsOrder(mid, act);
      }
    }
  }
}
