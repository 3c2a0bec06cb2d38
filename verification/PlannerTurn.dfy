/** One turn of the planner (reset_planner.cpp: advanceCursor, updateMovers, step) as folds over its
    bodies in id order. What the sweep verifier answered is part of the turn; that each answer is
    the right one for the state in which it was asked is said beside the fold. */
module PlannerTurn {
  import opened ResetProtocol
  import opened Geometry
  import opened Bodies
  import opened Sweep
  import opened PlannerModel
  import opened Reservations
  import opened PlannerOut
  import RouteModel
  import RouteSweeps

  datatype Clock = Clock(now: real, lastReplan: real, lastExtension: real, fleetProgress: real)

  /** What one question to the verifier brought, and the prefix ends that follow from it. */
  datatype Turn = Turn(answer: Violation, hi: seq<nat>)

  // ---------------------------------------------------------------- the cursor

  function Cost(kit: Kit, b: Body, q: Sample): real { kit.cost(b.pose, b.spec.model, q) }

  /** The first of the cheapest samples in [lo, hi). */
  function Best(kit: Kit, b: Body, pts: seq<Sample>, lo: nat, hi: nat): (r: nat)
    requires lo < hi <= |pts|
    ensures lo <= r < hi
    decreases hi
  {
    if hi == lo + 1 then lo
    else
      var r := Best(kit, b, pts, lo, hi - 1);
      if Cost(kit, b, pts[hi - 1]) < Cost(kit, b, pts[r]) then hi - 1 else r
  }

  lemma {:induction false} BestIsNearest(kit: Kit, b: Body, pts: seq<Sample>, lo: nat, hi: nat)
    requires lo < hi <= |pts|
    ensures var r := Best(kit, b, pts, lo, hi);
            && (forall i :: lo <= i < hi ==> Cost(kit, b, pts[r]) <= Cost(kit, b, pts[i]))
            && (forall i :: lo <= i < r ==> Cost(kit, b, pts[r]) < Cost(kit, b, pts[i]))
    decreases hi
  {
    if hi != lo + 1 { BestIsNearest(kit, b, pts, lo, hi - 1); }
  }

  function WindowEnd(pts: seq<Sample>, cursor: nat): nat {
    if cursor + K_WINDOW < |pts| then cursor + K_WINDOW else |pts|
  }

  function CursorFor(kit: Kit, b: Body, pts: seq<Sample>, cursor: nat): (r: nat)
    ensures cursor <= r && (r == cursor || (r < |pts| && r < cursor + K_WINDOW))
  {
    if cursor < WindowEnd(pts, cursor) then Best(kit, b, pts, cursor, WindowEnd(pts, cursor))
    else cursor
  }

  function Cursors(kit: Kit, b: Body, p: Plan): seq<nat>
    requires |p.cursor| == |p.sets|
  {
    seq(|p.sets|, w requires 0 <= w < |p.sets| => CursorFor(kit, b, p.sets[w].pts, p.cursor[w]))
  }

  // ---------------------------------------------------------------- movers

  /** Reservations pairwise disjoint, and the outbox in step with the permissions that are left. */
  ghost predicate Sound(base: Station, st: Station) {
    st.cfg.holdMargin > 0.000000001 && StationInv(st) && PairwiseDisjoint(st) && Speaks(base, st)
  }

  /** No body comes or goes, and the configuration stays. */
  ghost predicate SameFleet(st: Station, st': Station) {
    st'.cfg == st.cfg && st'.kit == st.kit && st'.world == st.world && st'.order == st.order
    && st'.bodies.Keys == st.bodies.Keys
  }

  predicate Advances(st: Station, id: Id) { id in st.bodies && st.bodies[id].ReceivedGo() }

  function AdvanceOne(st: Station, id: Id): Station {
    if Advances(st, id) && |st.bodies[id].reservation.plan.cursor| == |st.bodies[id].reservation.plan.sets|
    then st.Put(Advanced(st.At(id), Cursors(st.kit, st.bodies[id], st.bodies[id].reservation.plan)))
    else st
  }

  function AdvanceAll(st: Station, ids: seq<Id>): Station {
    if ids == [] then st else AdvanceOne(AdvanceAll(st, ids[..|ids| - 1]), ids[|ids| - 1])
  }

  /** Some vehicle left the pose of its last progress. */
  predicate AnyProgress(st: Station, ids: seq<Id>) {
    ids != []
    && (|| AnyProgress(st, ids[..|ids| - 1])
        || var mid := AdvanceAll(st, ids[..|ids| - 1]);
           !mid.halted && Advances(mid, ids[|ids| - 1]) && Progressed(mid.bodies[ids[|ids| - 1]]))
  }

  predicate AnyPlan(st: Station) { exists id :: id in st.bodies && st.bodies[id].HasPlan() }

  function ExtendTurn(st: Station, id: Id, turn: Turn): Station {
    if id in st.bodies
    then st.Put(ExtendOne(st.cfg, st.At(id), st.worldChanged, turn.answer, turn.hi)) else st
  }

  function ExtendAll(st: Station, ids: seq<Id>, turns: seq<Turn>): Station
    requires |turns| == |ids|
  {
    if ids == [] then st
    else ExtendTurn(ExtendAll(st, ids[..|ids| - 1], turns[..|ids| - 1]), ids[|ids| - 1],
                    turns[|ids| - 1])
  }

  /** Every answer is what the check of every sample would say in the state it was asked in. */
  ghost predicate TurnsRight(st: Station, ids: seq<Id>, turns: seq<Turn>)
    requires |turns| == |ids|
  {
    ids == []
    || (&& TurnsRight(st, ids[..|ids| - 1], turns[..|ids| - 1])
        && var mid := ExtendAll(st, ids[..|ids| - 1], turns[..|ids| - 1]);
        && StationInv(mid)
        && Enabled(mid, Extend(ids[|ids| - 1], turns[|ids| - 1].answer, turns[|ids| - 1].hi)))
  }

  const STALLED := "no vehicle advanced for 10 s"

  function StallOne(st: Station, id: Id): Station {
    if id in st.bodies && Stalls(st.bodies[id])
    then st.Put(EmitReject(st.At(id), Stalled, STALLED, st.bodies[id].blockers)) else st
  }

  function StallAll(st: Station, ids: seq<Id>): Station {
    if ids == [] then st else StallOne(StallAll(st, ids[..|ids| - 1]), ids[|ids| - 1])
  }

  predicate ExtensionDue(cfg: PlannerConfig, c: Clock) { c.now - c.lastExtension >= cfg.extensionPeriod }

  function ProgressAt(st: Station, c: Clock): real {
    if AnyProgress(st, st.order) || !AnyPlan(st) then c.now else c.fleetProgress
  }

  /** The fleet stands still although somebody holds a reservation. */
  predicate FleetStalled(st: Station, now: real, progress: real) {
    AnyPlan(st) && now - progress > st.cfg.stall
  }

  /** Extension and revocation in id order, then the stall check. */
  function ExtensionTurn(st: Station, now: real, progress: real, turns: seq<Turn>): Station
    requires |turns| == |st.order|
  {
    var st2 := ExtendAll(st, st.order, turns).(worldChanged := false);
    if FleetStalled(st2, now, progress) then StallAll(st2, st2.order).(dirty := true) else st2
  }

  function ProgressAfter(st: Station, now: real, progress: real, turns: seq<Turn>): real
    requires |turns| == |st.order|
  {
    var st2 := ExtendAll(st, st.order, turns).(worldChanged := false);
    if FleetStalled(st2, now, progress) then now else progress
  }

  /** updateMovers: the cursors, and in its own period the extension turn. */
  function MoversTurn(st: Station, c: Clock, turns: seq<Turn>): Station
    requires ExtensionDue(st.cfg, c) ==> |turns| == |AdvanceAll(st, st.order).order|
  {
    var st1 := AdvanceAll(st, st.order);
    if !ExtensionDue(st.cfg, c) then st1 else ExtensionTurn(st1, c.now, ProgressAt(st, c), turns)
  }

  function MoversClock(st: Station, c: Clock, turns: seq<Turn>): Clock
    requires ExtensionDue(st.cfg, c) ==> |turns| == |AdvanceAll(st, st.order).order|
  {
    var st1 := AdvanceAll(st, st.order);
    if !ExtensionDue(st.cfg, c) then c.(fleetProgress := ProgressAt(st, c))
    else c.(lastExtension := c.now, fleetProgress := ProgressAfter(st1, c.now, ProgressAt(st, c), turns))
  }

  // ---------------------------------------------------------------- brakes and admission

  predicate Movable(st: Station, id: Id) { id in st.bodies && st.bodies[id].LiveGrant().Some? }

  function BrakeOne(st: Station, id: Id): Station {
    if Movable(st, id)
    then st.Put(EmitBrake(st.At(id), SceneUnavailable, "new admissions unavailable", [])) else st
  }

  function BrakeAll(st: Station, ids: seq<Id>): Station {
    if ids == [] then st else BrakeOne(BrakeAll(st, ids[..|ids| - 1]), ids[|ids| - 1])
  }

  /** What admission, parking and the deadlock report may decide for one body; which of it they do
      decide is heuristic. */
  datatype Move =
    | TryMove(id: Id, choice: Choice)
    | HoldMove(id: Id, reason: Reason, detail: string, blockers: seq<Id>)
    | RejectMove(id: Id, reason: Reason, detail: string, blockers: seq<Id>)

  predicate TooShort(cfg: PlannerConfig, s: Reach) { s.At? && s.s - cfg.holdMargin < cfg.minPrefix }

  ghost predicate Tries(st: Station, move: Move) {
    && move.TryMove? && Shaped(st) && move.id in st.bodies && st.bodies[move.id].MayBeGranted()
    && Viable(st, move.id, move.choice)
  }

  /** A candidate is admitted if the verifier finds no hard conflict and a prefix worth a grant. */
  ghost predicate Admits(st: Station, move: Move, answer: Violation) {
    Tries(st, move) && !answer.hard && !TooShort(st.cfg, answer.s)
  }

  ghost function Candidate(st: Station, move: Move): Plan
    requires Tries(st, move)
  {
    PlanFor(st, move.id, move.choice)
  }

  ghost function AdmitOne(st: Station, move: Move, turn: Turn): Station {
    if Tries(st, move) then
      if !Admits(st, move, turn.answer) then st
      else st.Put(InstallPlan(st.At(move.id),
                              Candidate(st, move).(sLimit := Limit(st.cfg, turn.answer.s)), turn.hi))
    else if move.id !in st.bodies || st.bodies[move.id].HasPlan() then st
    else match move
         case TryMove(_, _) => st
         case HoldMove(id, reason, detail, blockers) =>
           st.Put(EmitHold(st.At(id), reason, detail, blockers))
         case RejectMove(id, reason, detail, blockers) =>
           st.Put(EmitReject(st.At(id), reason, detail, blockers))
  }

  /** What the verifier said of a candidate, and the prefix that follows if it is admitted. */
  ghost predicate AnswerRight(st: Station, id: Id, p: Plan, turn: Turn)
    requires StationInv(st) && id in st.bodies && GoodCandidate(st.kit, st.bodies[id], p)
  {
    && NaiveAnswer(st.Ask(id, p.certs), p.sets, Zeros(|p.sets|), turn.answer.hard, turn.answer.s)
    && (!turn.answer.hard && !TooShort(st.cfg, turn.answer.s) ==>
          PrefixesEnd(p, Limit(st.cfg, turn.answer.s), turn.hi))
  }

  ghost predicate MoveRight(st: Station, move: Move, turn: Turn)
    requires StationInv(st)
  {
    Tries(st, move) ==>
      (CandidateIsGood(st, move); AnswerRight(st, move.id, Candidate(st, move), turn))
  }

  /** The sweeps of a candidate are those of its route. */
  lemma CandidateIsGood(st: Station, move: Move)
    requires StationInv(st) && Tries(st, move)
    ensures GoodCandidate(st.kit, st.bodies[move.id], Candidate(st, move))
  {
    var b, c := st.bodies[move.id], move.choice;
    assert KitShaped(st.kit, b);
    var p := Candidate(st, move);
    SetsAreSweeps(st.kit, b, c);
    SetsAreSwept(st.kit, b, c, p);
    hide SetsFor, CertsFor, RouteFor, Swept, SweepOf, KitShaped, WellFormedBody;
    CandidateStarts(b, c);
  }

  lemma CandidateStarts(b: Body, c: Choice)
    ensures RouteFor(b, c).start == b.pose
  {
  }

  lemma SetsAreSweeps(kit: Kit, b: Body, c: Choice)
    requires RouteModel.GoodGauge(kit.gauge) && WellFormed(b.shape)
    ensures var sets := SetsFor(kit, b, c); forall w :: 0 <= w < |sets| ==> SweepOf(b.shape, sets[w])
  {
    hide SweepOf, RouteModel.MadeSweep;
    var sets := SetsFor(kit, b, c);
    forall w | 0 <= w < |sets| ensures SweepOf(b.shape, sets[w]) {
      RouteSweeps.MadeIsSweep(kit.gauge, b.shape, b.spec.model, RouteFor(b, c), Ells(b.spec.model, c)[w]);
    }
  }

  lemma SetsAreSwept(kit: Kit, b: Body, c: Choice, p: Plan)
    requires RouteModel.GoodGauge(kit.gauge) && WellFormed(b.shape)
    requires p.sets == SetsFor(kit, b, c) && p.route == RouteFor(b, c)
    ensures Swept(kit, b.shape, b.spec.model, p)
  {
    forall w: nat ensures SweptAt(kit, b.shape, b.spec.model, p, w) { MadeAt(kit, b, c, w); }
    MadeAt(kit, b, c, 0);
    MadeAt(kit, b, c, 1);
    hide SweptAt, SetsFor;
  }

  lemma MadeAt(kit: Kit, b: Body, c: Choice, w: nat)
    requires RouteModel.GoodGauge(kit.gauge) && WellFormed(b.shape)
    ensures w < |SetsFor(kit, b, c)| ==>
              var q := SetsFor(kit, b, c)[w];
              q.ell == Ells(b.spec.model, c)[w]
              && q == RouteModel.MadeSweep(kit.gauge, b.shape, b.spec.model, RouteFor(b, c), q.ell)
  {
    if w < |SetsFor(kit, b, c)| { EllOf(kit.gauge, b.shape, b.spec.model, RouteFor(b, c), Ells(b.spec.model, c)[w]); }
    hide RouteModel.MadeSweep;
  }

  lemma EllOf(g: RouteModel.Gauge, shape: Shape, model: Model, route: RouteDecl, ell: real)
    requires RouteModel.GoodGauge(g) && WellFormed(shape)
    ensures RouteModel.MadeSweep(g, shape, model, route, ell).ell == ell
  {
  }

  ghost function AdmitAll(st: Station, moves: seq<Move>, turns: seq<Turn>): Station
    requires |turns| == |moves|
  {
    if moves == [] then st
    else AdmitOne(AdmitAll(st, moves[..|moves| - 1], turns[..|moves| - 1]), moves[|moves| - 1],
                  turns[|moves| - 1])
  }

  ghost predicate MovesRight(st: Station, moves: seq<Move>, turns: seq<Turn>)
    requires |turns| == |moves|
  {
    moves == []
    || (&& MovesRight(st, moves[..|moves| - 1], turns[..|moves| - 1])
        && var mid := AdmitAll(st, moves[..|moves| - 1], turns[..|moves| - 1]);
        && StationInv(mid) && MoveRight(mid, moves[|moves| - 1], turns[|moves| - 1]))
  }

  predicate AdmissionDue(st: Station, c: Clock) {
    st.dirty || c.now - c.lastReplan >= st.cfg.replanPeriod
  }

  predicate AwaitsRoute(b: Body) {
    b.MayBeGranted() && (b.phase == Requesting || b.phase == Phase.Waiting)
  }

  predicate AnyWaiting(st: Station) { exists id :: id in st.bodies && AwaitsRoute(st.bodies[id]) }

  predicate Admission(st: Station, c: Clock) { AdmissionDue(st, c) && AnyWaiting(st) }

  /** The admission round: only when something changed or the period has passed. */
  ghost function AdmissionTurn(st: Station, c: Clock, moves: seq<Move>, turns: seq<Turn>): Station
    requires |turns| == |moves|
  {
    if !AdmissionDue(st, c) then st
    else if !AnyWaiting(st) then st.(dirty := false)
    else AdmitAll(st.(dirty := false), moves, turns)
  }

  // ---------------------------------------------------------------- reports

  function SyncAll(st: Station, vs: seq<Vehicle>): (r: Station)
    requires Shaped(st)
    ensures Shaped(r)
  {
    if vs == [] then st
    else
      var mid := SyncAll(st, vs[..|vs| - 1]);
      SyncKeepsShaped(mid, vs[|vs| - 1]);
      SyncVehicle(mid, vs[|vs| - 1])
  }

  lemma SyncKeepsShaped(st: Station, v: Vehicle)
    requires Shaped(st)
    ensures Shaped(SyncVehicle(st, v))
  {
    hide Touches, SyncBody, Outdated, SyncVehicle;
    SyncIsPut(st, v);
    if st.halted { HaltedStays(st, v); }
    else {
      var st1 := WithVehicle(st, v);
      var t := st1.At(v.id);
      assert KitShaped(st.kit, t.body);
      SyncNarrows(st.kit, t, v, v.id !in st.bodies);
      SyncKeepsKit(st, v);
    }
  }

  lemma SyncKeepsKit(st: Station, v: Vehicle)
    requires Shaped(st)
    ensures SyncVehicle(st, v).kit == st.kit && SyncVehicle(st, v).cfg == st.cfg
  {
    hide Touches, SyncBody, Outdated;
  }

  // ---------------------------------------------------------------- one update

  datatype Answers = Answers(movers: seq<Turn>, moves: seq<Turn>)

  function Braked(st: Station, admit: bool): Station {
    if admit then st else BrakeAll(st, st.order)
  }

  predicate Fits(st: Station, c: Clock, admit: bool, moves: seq<Move>, answers: Answers) {
    && (ExtensionDue(st.cfg, c) ==>
          |answers.movers| == |AdvanceAll(Braked(st, admit), Braked(st, admit).order).order|)
    && |answers.moves| == |moves| && Braked(st, admit).cfg == st.cfg
  }

  /** step: without admission first brake everybody; then the movers; then, if admitted, the round. */
  ghost function StepTurn(st: Station, c: Clock, admit: bool, moves: seq<Move>, answers: Answers): Station
    requires Fits(st, c, admit, moves, answers)
  {
    var st2 := MoversTurn(Braked(st, admit), c, answers.movers);
    if !admit then st2
    else AdmissionTurn(st2, MoversClock(Braked(st, admit), c, answers.movers), moves, answers.moves)
  }

  /** The answers of an update are right for the states they were asked in. */
  ghost predicate AnswersRight(st: Station, c: Clock, admit: bool, moves: seq<Move>, answers: Answers)
    requires Fits(st, c, admit, moves, answers)
  {
    var st1 := Braked(st, admit);
    var st2 := AdvanceAll(st1, st1.order);
    && (ExtensionDue(st.cfg, c) ==> TurnsRight(st2, st2.order, answers.movers))
    && var st3 := MoversTurn(st1, c, answers.movers);
    && (admit && Admission(st3, MoversClock(st1, c, answers.movers)) ==>
          MovesRight(st3.(dirty := false), moves, answers.moves))
  }

  // ---------------------------------------------------------------- no Go without admission

  /** Nobody has a live permission, or nothing is decided any more. */
  ghost predicate Still(st: Station) {
    st.halted || forall id :: id in st.bodies ==> st.bodies[id].LiveGrant().None?
  }

  lemma {:induction false} BrakeAllStills(st: Station, ids: seq<Id>)
    requires GoFree(st.out) && forall id :: id in st.bodies ==> LiveCertified(st.bodies[id])
    ensures var r := BrakeAll(st, ids);
            && GoFree(r.out) && r.bodies.Keys == st.bodies.Keys
            && (forall id :: id in r.bodies ==> LiveCertified(r.bodies[id]))
            && (forall id :: id in r.bodies && r.bodies[id].LiveGrant().Some? ==>
                  st.bodies[id].LiveGrant().Some? && (id !in ids || r.halted))
  {
    if ids != [] {
      BrakeAllStills(st, ids[..|ids| - 1]);
      var mid, id := BrakeAll(st, ids[..|ids| - 1]), ids[|ids| - 1];
      if Movable(mid, id) {
        BrakesStayGoFree(mid, id, SceneUnavailable, "new admissions unavailable", []);
        BrakeSays(mid.At(id), SceneUnavailable, "new admissions unavailable", []);
        BrakeStills(mid.At(id));
      }
      hide EmitBrake, LiveCertified;
    }
  }

  lemma BrakeStills(t: Desk)
    ensures var r := EmitBrake(t, SceneUnavailable, "new admissions unavailable", []);
            (r.halted || r.body.LiveGrant().None?) && (t.halted ==> r.halted)
  {
  }

  lemma {:induction false} AdvanceAllStill(st: Station, ids: seq<Id>)
    requires Still(st)
    ensures Still(AdvanceAll(st, ids)) && AdvanceAll(st, ids).out == st.out
  {
    if ids != [] {
      AdvanceAllStill(st, ids[..|ids| - 1]);
      AdvanceOneStill(AdvanceAll(st, ids[..|ids| - 1]), ids[|ids| - 1]);
    }
  }

  lemma AdvanceOneStill(st: Station, id: Id)
    requires Still(st)
    ensures Still(AdvanceOne(st, id)) && AdvanceOne(st, id).out == st.out
  {
    hide Progressed, Cursors;
  }

  lemma {:induction false} ExtendAllStill(st: Station, ids: seq<Id>, turns: seq<Turn>)
    requires Still(st) && |turns| == |ids|
    ensures Still(ExtendAll(st, ids, turns)) && ExtendAll(st, ids, turns).out == st.out
  {
    if ids != [] {
      var n := |ids| - 1;
      ExtendAllStill(st, ids[..n], turns[..n]);
      ExtendTurnStill(ExtendAll(st, ids[..n], turns[..n]), ids[n], turns[n]);
    }
  }

  lemma ExtendTurnStill(st: Station, id: Id, turn: Turn)
    requires Still(st)
    ensures Still(ExtendTurn(st, id, turn)) && ExtendTurn(st, id, turn).out == st.out
  {
    if id in st.bodies {
      ExtendOneStill(st.cfg, st.At(id), st.worldChanged, turn.answer, turn.hi);
      hide ExtendOne;
    }
  }

  lemma ExtendOneStill(cfg: PlannerConfig, t: Desk, worldChanged: bool, answer: Violation,
                       hi: seq<nat>)
    requires t.halted || t.body.LiveGrant().None?
    ensures var r := ExtendOne(cfg, t, worldChanged, answer, hi);
            r.out == t.out && r.halted == t.halted && (r.body.LiveGrant() == t.body.LiveGrant())
  {
  }

  lemma {:induction false} StallAllStill(st: Station, ids: seq<Id>)
    requires Still(st)
    ensures Still(StallAll(st, ids)) && StallAll(st, ids).out == st.out
  {
    if ids != [] {
      StallAllStill(st, ids[..|ids| - 1]);
      StallOneStill(StallAll(st, ids[..|ids| - 1]), ids[|ids| - 1]);
    }
  }

  lemma StallOneStill(st: Station, id: Id)
    requires Still(st)
    ensures Still(StallOne(st, id)) && StallOne(st, id).out == st.out
  {
  }

  /** While admission is off, the movers' turn says nothing at all. */
  lemma MoversTurnStill(st: Station, c: Clock, turns: seq<Turn>)
    requires ExtensionDue(st.cfg, c) ==> |turns| == |AdvanceAll(st, st.order).order|
    requires Still(st)
    ensures MoversTurn(st, c, turns).out == st.out && Still(MoversTurn(st, c, turns))
  {
    hide AdvanceAll, ExtendAll, StallAll, AnyProgress;
    var st1 := AdvanceAll(st, st.order);
    AdvanceAllStill(st, st.order);
    if ExtensionDue(st.cfg, c) {
      ExtendAllStill(st1, st1.order, turns);
      var st2 := ExtendAll(st1, st1.order, turns).(worldChanged := false);
      StallAllStill(st2, st2.order);
    }
  }

  /** In a step with admission off no decision is a Go. */
  lemma NoGoWithoutAdmission(base: Station, st: Station, c: Clock, moves: seq<Move>,
                             answers: Answers)
    requires Sound(base, st) && GoFree(st.out) && Fits(st, c, false, moves, answers)
    ensures GoFree(StepTurn(st, c, false, moves, answers).out)
    ensures Still(StepTurn(st, c, false, moves, answers))
  {
    hide PairwiseDisjoint, WellFormedBody, GoodKit, KitShaped, GoodWorld, BrakeAll, MoversTurn;
    BrakeAllStills(st, st.order);
    MoversTurnStill(Braked(st, false), c, answers.movers);
  }

  // ---------------------------------------------------------------- every turn is a run of acts

  /** What the planner does of itself: it hears nothing new, and the world stays. */
  predicate Own(act: Act) { !act.Flush? && !act.Sync? && !act.SetWorld? }

  /** One act of the planner's own, or nothing. */
  ghost predicate ActStep(st: Station, st': Station)
    requires StationInv(st)
  {
    st' == st || exists act :: Enabled(st, act) && Own(act) && st' == Do(st, act)
  }

  lemma ActIsSound(base: Station, st: Station, act: Act)
    requires Sound(base, st) && Enabled(st, act) && !act.Flush?
    ensures Sound(base, Do(st, act)) && (Own(act) ==> ActStep(st, Do(st, act)))
  {
    hide StationInv, PairwiseDisjoint, Enabled, Speaks, Do;
    ActKeepsDisjoint(st, act);
    ActSpeaks(base, st, act);
    ActKeepsConfig(st, act);
  }

  lemma PutSame(st: Station, t: Desk)
    requires t.id in st.bodies
    ensures SameFleet(st, st.Put(t))
  {
  }

  lemma AdvanceOneSound(base: Station, st: Station, id: Id)
    requires Sound(base, st)
    ensures Sound(base, AdvanceOne(st, id)) && SameFleet(st, AdvanceOne(st, id))
    ensures ActStep(st, AdvanceOne(st, id))
    ensures id in st.bodies && st.bodies[id].ReceivedGo() ==>
              |st.bodies[id].reservation.plan.cursor| == |st.bodies[id].reservation.plan.sets|
  {
    hide PairwiseDisjoint, Speaks, SweepOf, PrefixEnds, Advanced, KitShaped, Cursors, GoodKit;
    if Advances(st, id) {
      assert WellFormedBody(st.bodies[id]);
      var p := st.bodies[id].reservation.plan;
      var cursor := Cursors(st.kit, st.bodies[id], p);
      CursorsAhead(st.kit, st.bodies[id], p);
      PutSame(st, Advanced(st.At(id), cursor));
      ActIsSound(base, st, Advance(id, cursor));
    }
  }

  lemma CursorsAhead(kit: Kit, b: Body, p: Plan)
    requires |p.cursor| == |p.sets|
    ensures Ahead(p, Cursors(kit, b, p))
  {
  }

  lemma ExtendTurnSound(base: Station, st: Station, id: Id, turn: Turn)
    requires Sound(base, st) && Enabled(st, Extend(id, turn.answer, turn.hi))
    ensures Sound(base, ExtendTurn(st, id, turn)) && SameFleet(st, ExtendTurn(st, id, turn))
    ensures ActStep(st, ExtendTurn(st, id, turn))
  {
    hide StationInv, PairwiseDisjoint, Speaks, ExtendOne, Sound;
    ActIsSound(base, st, Extend(id, turn.answer, turn.hi));
    PutSame(st, ExtendOne(st.cfg, st.At(id), st.worldChanged, turn.answer, turn.hi));
  }

  lemma StallOneSound(base: Station, st: Station, id: Id)
    requires Sound(base, st)
    ensures Sound(base, StallOne(st, id)) && SameFleet(st, StallOne(st, id))
    ensures ActStep(st, StallOne(st, id))
  {
    hide PairwiseDisjoint, Speaks, WellFormedBody, GoodKit, KitShaped, EmitReject;
    if id in st.bodies && Stalls(st.bodies[id]) {
      ActIsSound(base, st, Rejects(id, Stalled, STALLED, st.bodies[id].blockers));
      PutSame(st, EmitReject(st.At(id), Stalled, STALLED, st.bodies[id].blockers));
    }
  }

  lemma BrakeOneSound(base: Station, st: Station, id: Id)
    requires Sound(base, st)
    ensures Sound(base, BrakeOne(st, id)) && SameFleet(st, BrakeOne(st, id))
    ensures ActStep(st, BrakeOne(st, id))
  {
    hide PairwiseDisjoint, Speaks, WellFormedBody, GoodKit, KitShaped, EmitBrake;
    if Movable(st, id) {
      ActIsSound(base, st, Brakes(id, SceneUnavailable, "new admissions unavailable", []));
      PutSame(st, EmitBrake(st.At(id), SceneUnavailable, "new admissions unavailable", []));
    }
  }

  lemma AdmitOneSound(base: Station, st: Station, move: Move, turn: Turn)
    requires Sound(base, st) && MoveRight(st, move, turn)
    ensures Sound(base, AdmitOne(st, move, turn)) && SameFleet(st, AdmitOne(st, move, turn))
    ensures ActStep(st, AdmitOne(st, move, turn))
  {
    hide PairwiseDisjoint, Speaks, WellFormedBody, KitShaped, EmitReject, EmitHold, InstallPlan;
    hide NaiveAnswer, PrefixEnds, SweepOf, GoodWorld;
    if Tries(st, move) {
      if Admits(st, move, turn.answer) {
        TryIsSound(base, st, move, turn);
      }
    } else if move.id in st.bodies && !st.bodies[move.id].HasPlan() {
      match move
      case TryMove(_, _) =>
      case HoldMove(id, reason, detail, blockers) =>
        ActIsSound(base, st, Holds(id, reason, detail, blockers));
        PutSame(st, EmitHold(st.At(id), reason, detail, blockers));
      case RejectMove(id, reason, detail, blockers) =>
        ActIsSound(base, st, Rejects(id, reason, detail, blockers));
        PutSame(st, EmitReject(st.At(id), reason, detail, blockers));
    }
  }

  lemma TryIsSound(base: Station, st: Station, move: Move, turn: Turn)
    requires Sound(base, st) && MoveRight(st, move, turn) && Admits(st, move, turn.answer)
    ensures Sound(base, AdmitOne(st, move, turn)) && SameFleet(st, AdmitOne(st, move, turn))
    ensures ActStep(st, AdmitOne(st, move, turn))
  {
    hide PairwiseDisjoint, Speaks, StationInv, InstallPlan, NaiveAnswer, PrefixesEnd, PlanFor, GoodCandidate;
    CandidateIsGood(st, move);
    CandidateIgnoresLimit(st.kit, st.bodies[move.id], Candidate(st, move), Limit(st.cfg, turn.answer.s));
    var p := Candidate(st, move).(sLimit := Limit(st.cfg, turn.answer.s));
    ActIsSound(base, st, Install(move.id, p, turn.answer.s, turn.hi));
    PutSame(st, InstallPlan(st.At(move.id), p, turn.hi));
  }

  lemma CandidateIgnoresLimit(kit: Kit, b: Body, p: Plan, limit: real)
    requires GoodCandidate(kit, b, p)
    ensures GoodCandidate(kit, b, p.(sLimit := limit))
    ensures forall x, hi :: PrefixesEnd(p, x, hi) == PrefixesEnd(p.(sLimit := limit), x, hi)
  {
    hide Swept, SweepOf, PrefixEnds;
    SweptSame(kit, b.shape, b.spec.model, p, p.(sLimit := limit));
  }

  lemma SyncIsSound(base: Station, st: Station, v: Vehicle)
    requires Sound(base, st)
    ensures Sound(base, SyncVehicle(st, v))
  {
    hide PairwiseDisjoint, Speaks, WellFormedBody, KitShaped, SyncVehicle, GoodKit, GoodWorld;
    ActIsSound(base, st, Sync(v));
  }

  lemma {:induction false} SyncAllSound(base: Station, st: Station, vs: seq<Vehicle>)
    requires Sound(base, st)
    ensures Sound(base, SyncAll(st, vs)) && (GoFree(st.out) ==> GoFree(SyncAll(st, vs).out))
    decreases |vs|
  {
    hide PairwiseDisjoint, WellFormedBody, GoodKit, KitShaped, GoodWorld, SyncVehicle, GoFree;
    if vs != [] {
      SyncAllSound(base, st, vs[..|vs| - 1]);
      var mid := SyncAll(st, vs[..|vs| - 1]);
      SyncIsSound(base, mid, vs[|vs| - 1]);
      SyncSpeaks(base, mid, vs[|vs| - 1]);
    }
  }

  /** An update starts with an empty outbox. */
  lemma FlushIsSound(base: Station, st: Station)
    requires Sound(base, st)
    ensures Sound(st.(out := []), st.(out := []))
  {
    hide PairwiseDisjoint, WellFormedBody, GoodKit, KitShaped, GoodWorld, SweepsDisjoint;
    PlainActKeeps(st, Flush);
  }
}
