/** When a run ends as Arrived, and how far a vehicle may stray while it moves (reset_executor.h:
    checkArrival, checkTube). What counts is said in coordinates: where the vehicle was, and that it
    stood still, at every control step of the time it has to stay. */
module ExecutorArrival {
  import opened ResetProtocol
  import opened Velocity
  import opened ExecutorModel
  import opened ExecutorRuns
  import opened ExecutorStop
  import opened Arithmetic

  // ---------------------------------------------------------------- at the target

  /** Within both tolerances of the target: the headings differ, up to whole turns, by no more. */
  ghost predicate NearTarget(t: Pose, p: Pose, position: real, yaw: real) {
    var dx, dy, dyaw := p.x - t.x, p.y - t.y, t.yaw - p.yaw;
    dx * dx + dy * dy <= position * position && WithinTurn(dyaw, yaw)
  }

  /** The window of poses is long enough, and over it the vehicle stood still. */
  ghost predicate Stands(v: Estimate, speed: real, rate: real) {
    v.valid && |v.history| >= 2 && StandsStill(v.history[0], v.history[|v.history| - 1], speed, rate)
  }

  /** On the final move, at its target, at rest. */
  ghost predicate AtGoal(e: Exec, m: Measurement) {
    && e.permission.Executing? && e.permission.motion.route.finalMove
    && NearTarget(e.header.target, m.pose, e.cfg.positionTolerance, e.cfg.yawTolerance)
    && Stands(e.sense.velocity, e.cfg.stopSpeed, e.cfg.stopYawRate)
  }

  lemma OneRepresentative(a: real, k: int)
    requires -K_PI <= Unwound(a, k) < K_PI
    ensures Unwound(a, k) == WrapAngle(a)
  {
    WrapAngleMeans(a);
    hide WrapAngle;
    var j: int :| WrapAngle(a) == Unwound(a, j);
    if j < k { WholeTurns(k, j); } else if k < j { WholeTurns(j, k); }
  }

  lemma WholeTurns(j: int, k: int)
    requires k < j
    ensures (j as real) * (2.0 * K_PI) - (k as real) * (2.0 * K_PI) >= 2.0 * K_PI
  {
  }

  lemma SmallTurnIs(a: real, most: real)
    ensures WithinTurn(a, most) <==> Abs(WrapAngle(a)) <= most
  {
    WrapAngleMeans(a);
    hide WrapAngle, Unwound;
    var j: int :| WrapAngle(a) == Unwound(a, j);
    if Abs(WrapAngle(a)) <= most { assert SmallTurn(Unwound(a, j), most); }
    forall k: int | SmallTurn(Unwound(a, k), most) ensures Abs(WrapAngle(a)) <= most {
      OneRepresentative(a, k);
    }
  }

  lemma NearTargetIs(e: Exec, p: Pose)
    ensures AtTarget(e, p) <==> NearTarget(e.header.target, p, e.cfg.positionTolerance, e.cfg.yawTolerance)
  {
    var t, dyaw := e.header.target, e.header.target.yaw - p.yaw;
    SmallTurnIs(dyaw, e.cfg.yawTolerance);
    hide WrapAngle, WithinTurn;
    assert Dist2(p.x, p.y, t.x, t.y) == (p.x - t.x) * (p.x - t.x) + (p.y - t.y) * (p.y - t.y);
  }

  lemma StandsIs(e: Exec)
    requires WindowInv(e.sense.velocity)
    ensures e.Slow() <==> Stands(e.sense.velocity, e.cfg.stopSpeed, e.cfg.stopYawRate)
  {
    var v := e.sense.velocity;
    if v.valid {
      hide Increasing;
      var first, last := v.history[0], v.history[|v.history| - 1];
      if e.Slow() { SlowStandsStill(v, first, last, e.cfg.stopSpeed, e.cfg.stopYawRate); }
      if Stands(v, e.cfg.stopSpeed, e.cfg.stopYawRate) {
        StillIsSlow(v, first, last, e.cfg.stopSpeed, e.cfg.stopYawRate);
      }
    }
  }

  lemma StillIsSlow(v: Estimate, first: Entry, last: Entry, speed: real, rate: real)
    requires ChordOf(v.speed2, v.yawRate, first, last) && first.t < last.t
    requires StandsStill(first, last, speed, rate)
    ensures v.speed2 <= speed * speed && Abs(v.yawRate) <= rate
  {
    var span := last.t - first.t;
    var dx, dy := last.pose.x - first.pose.x, last.pose.y - first.pose.y;
    NoFaster(v.speed2, dx * dx + dy * dy, speed, span);
    NoQuicker(v, first, last, rate);
  }

  lemma NoFaster(speed2: real, way2: real, speed: real, span: real)
    requires span > 0.0 && speed2 * (span * span) == way2 && way2 <= (speed * span) * (speed * span)
    ensures speed2 <= speed * speed
  {
    SquareUnscaled(speed2, speed, span, way2);
  }

  lemma NoQuicker(v: Estimate, first: Entry, last: Entry, rate: real)
    requires ChordOf(v.speed2, v.yawRate, first, last) && first.t < last.t
    requires WithinTurn(last.pose.yaw - first.pose.yaw, rate * (last.t - first.t))
    ensures Abs(v.yawRate) <= rate
  {
    hide WrapAngle, WithinTurn, ChordOf, Abs;
    TurnOfChord(v, first, last);
    SmallTurnIs(last.pose.yaw - first.pose.yaw, rate * (last.t - first.t));
    Rates(v.yawRate, rate, last.t - first.t, WrapAngle(last.pose.yaw - first.pose.yaw));
  }

  lemma Rates(a: real, b: real, t: real, turn: real)
    requires t > 0.0 && a * t == turn && Abs(turn) <= b * t
    ensures Abs(a) <= b
  {
    Unscaled(a, b, t);
    assert Times(-a, t) == -(a * t);
    Unscaled(-a, b, t);
  }

  lemma TurnOfChord(v: Estimate, first: Entry, last: Entry)
    requires ChordOf(v.speed2, v.yawRate, first, last)
    ensures v.yawRate * (last.t - first.t) == WrapAngle(last.pose.yaw - first.pose.yaw)
  {
    hide WrapAngle, Unwound;
    var span, dyaw := last.t - first.t, last.pose.yaw - first.pose.yaw;
    var j: int :| v.yawRate * span == Unwound(dyaw, j);
    OneRepresentative(dyaw, j);
  }

  // ---------------------------------------------------------------- what an observer keeps

  /** For how long the vehicle has stayed at its goal, over consecutive control steps of one motion,
      when the last of these was, and since when and from where it has not got on. */
  datatype Watch = Watch(time: real, last: Option<real>, since: real, from: Pose)

  /** A control step stands for the time since the one before, at least a millisecond and at most a
      tenth of a second; the first one for a period. */
  function Lasts(period: real, last: Option<real>, now: real): real {
    if last.None? || last.value < 0.0 then period
    else if now - last.value < 0.001 then 0.001
    else if now - last.value > 0.1 then 0.1 else now - last.value
  }

  /** A control step is taken: the run may drive, and the period has passed. */
  predicate Controls(p: Exec, last: Option<real>, m: Measurement) {
    p.Active() && Judge(p, m).Drives?
    && (last.None? || last.value < 0.0 || m.rosNow - last.value >= p.cfg.controlPeriod - 0.000000001)
  }

  /** The vehicle has got on: 3 cm, where a radian of turning counts for 30 cm; or it has no more than
      10 cm left to go. */
  ghost predicate GetsOn(p: Exec, w: Watch, m: Measurement, tr: TrackerReading) {
    p.permission.Executing? && (p.permission.motion.sLimit - tr.progress <= 0.1 || !Close(w.from, m.pose))
  }

  ghost predicate Close(a: Pose, b: Pose) {
    var dx, dy, dyaw := b.x - a.x, b.y - a.y, b.yaw - a.yaw;
    exists k: int, turn: real :: CloseBy(dx, dy, Unwound(dyaw, k), turn)
  }

  /** hypot(dx, dy) + 0.3 |yaw| <= 0.03, without the square root. */
  predicate CloseBy(dx: real, dy: real, yaw: real, turn: real) {
    && -K_PI <= yaw < K_PI && turn >= 0.0 && -turn <= yaw <= turn && 0.3 * turn <= 0.03
    && dx * dx + dy * dy <= (0.03 - 0.3 * turn) * (0.03 - 0.3 * turn)
  }

  lemma CloseIs(a: Pose, b: Pose)
    ensures Close(a, b) <==> !MovedSince(a, b)
  {
    var dx, dy, dyaw := b.x - a.x, b.y - a.y, b.yaw - a.yaw;
    var yaw := WrapAngle(dyaw);
    WrapAngleMeans(dyaw);
    hide WrapAngle, Unwound;
    if !MovedSince(a, b) {
      var k: int :| yaw == Unwound(dyaw, k);
      assert CloseBy(dx, dy, Unwound(dyaw, k), Abs(yaw));
    }
    forall k: int, turn: real | CloseBy(dx, dy, Unwound(dyaw, k), turn) ensures !MovedSince(a, b) {
      OneRepresentative(dyaw, k);
      Shrinks(0.03 - 0.3 * turn, 0.03 - 0.3 * Abs(yaw));
    }
  }

  lemma Shrinks(a: real, b: real)
    requires 0.0 <= a <= b
    ensures a * a <= b * b
  {
    TimesMore(b, a, a);
    TimesMore(b, a, b);
  }

  predicate Begins(e: Exec, m: Measurement) { !e.permission.Executing? && Poll(e, m).permission.Executing? }

  function Polled(w: Watch, e: Exec, m: Measurement): Watch {
    if Begins(e, m) then Watch(0.0, None, m.rosNow, m.pose) else w
  }

  ghost function Controlled(w: Watch, p: Exec, m: Measurement, tr: TrackerReading): Watch {
    var time := if AtGoal(p, m) then w.time + Lasts(p.cfg.controlPeriod, w.last, m.rosNow) else 0.0;
    if GetsOn(p, w, m, tr) then Watch(time, Some(m.rosNow), m.rosNow, m.pose)
    else Watch(time, Some(m.rosNow), w.since, w.from)
  }

  ghost function Noted(w: Watch, e: Exec, op: Op): Watch {
    match op
    case PollOp(m) => Polled(w, e, m)
    case StepOp(m, tr) =>
      var p, w0 := Poll(e, m), Polled(w, e, m);
      if Controls(p, w0.last, m) then Controlled(w0, p, m, tr) else w0
    case _ => w
  }

  ghost function WatchOf(e: Exec, ops: seq<Op>): Watch {
    if ops == [] then Watch(0.0, None, 0.0, Pose(0.0, 0.0, 0.0))
    else Noted(WatchOf(e, ops[..|ops| - 1]), After(e, ops[..|ops| - 1]), ops[|ops| - 1])
  }

  /** The clocks of a motion are those of the observer. */
  ghost predicate WatchInv(e: Exec, w: Watch) { e.permission.Executing? ==> Watched(e.permission.motion, w) }

  ghost predicate Watched(motion: Motion, w: Watch) {
    && motion.lastStepRos == (if w.last.None? then -1.0 else w.last.value)
    && motion.settle == (if motion.route.finalMove then w.time else 0.0)
    && motion.stallSince == w.since && motion.stallPose == w.from
  }

  // ---------------------------------------------------------------- what each operation leaves

  /** An operation that leaves a motion as far as its clocks go. */
  ghost predicate SameClocks(e: Exec, f: Exec) {
    f.permission.Executing? ==>
      e.permission.Executing? && SameMotion(e.permission.motion, f.permission.motion)
  }

  ghost predicate SameMotion(a: Motion, b: Motion) {
    && b.lastStepRos == a.lastStepRos && b.settle == a.settle && b.route == a.route
    && b.stallSince == a.stallSince && b.stallPose == a.stallPose
  }

  lemma OtherClocks(e: Exec, op: Op)
    requires LocalInv(e) && !op.PollOp? && !op.StepOp?
    ensures SameClocks(e, Apply(e, op))
  {
    hide Dist2, WrapAngle, SameRoute, SameDecision, ValidGo;
  }

  lemma PollWatch(e: Exec, w: Watch, m: Measurement)
    requires LocalInv(e) && WatchInv(e, w)
    ensures WatchInv(Poll(e, m), Polled(w, e, m)) && Poll(e, m).sense == e.sense
    ensures Poll(e, m).header == e.header && Poll(e, m).cfg == e.cfg
  {
    hide Exec.CausalStopped;
  }

  lemma SettledClocks(e: Exec, m: Measurement)
    requires e.permission.Executing? && e.Active()
    ensures SameClocks(e, Settled(e, m).0) && Settled(e, m).0.Active()
  {
    hide AtTarget, WholeRoute, AsksAgain, Exec.Slow, Exec.MovingNow;
  }

  /** How a control step ends the run, if it does. */
  ghost predicate Verdicts(f: Exec, strays: bool, stalls: bool, arrives: bool) {
    if strays then !f.Active() && f.slots.result.outcome == AbortedDeviation
    else if stalls then !f.Active() && f.slots.result.outcome == AbortedStalled
    else if arrives then !f.Active() && f.slots.result.outcome == Arrived
    else f.Active()
  }

  lemma CheckedVerdict(e: Exec, dt: real, m: Measurement)
    requires e.permission.Executing? && e.Active()
    ensures var f, g := Checked(e, dt, m).0, Guarded(e, e.permission.motion, dt, m);
            && Verdicts(f, !InTube(e, e.permission.motion.tracker),
                        !StallReset(e.permission.motion, m) && m.rosNow - e.permission.motion.stallSince >= e.cfg.stall,
                        g.route.finalMove && g.settle >= e.cfg.settleHold)
            && (f.permission.Executing? ==> f.Active() && SameMotion(g, f.permission.motion))
  {
    hide AtTarget, StallReset, InTube, Settled, Exec.Slow, Dist2, WrapAngle;
    SettledClocks(e.(permission := Executing(Guarded(e, e.permission.motion, dt, m))), m);
  }

  /** The guards of the source are the observer's. */
  lemma GuardedWatch(p: Exec, w: Watch, m: Measurement, tr: TrackerReading)
    requires p.permission.Executing? && WindowInv(p.sense.velocity) && WatchInv(p, w)
    ensures var motion := Stepped(p.permission.motion, m, tr);
            var e := p.(permission := Executing(motion));
            && (StallReset(motion, m) <==> GetsOn(p, w, m, tr))
            && Watched(Guarded(e, motion, StepDt(p, p.permission.motion, m), m), Controlled(w, p, m, tr))
  {
    var e := p.(permission := Executing(Stepped(p.permission.motion, m, tr)));
    NearTargetIs(e, m.pose);
    StandsIs(e);
    CloseIs(w.from, m.pose);
    hide MovedSince, Close, AtTarget, Exec.Slow, NearTarget, Stands, WindowInv;
  }

  /** The vehicle has left the tube about its route. */
  predicate Strays(p: Exec, tr: TrackerReading) {
    p.run.Some?
    && (tr.crossTrack > p.cfg.tubeCrossTrack + 2.0 * p.run.value.allowance
        || -tr.crossTrack > p.cfg.tubeCrossTrack + 2.0 * p.run.value.allowance)
  }

  /** It has been free to move for too long and has not got on. */
  ghost predicate Sticks(p: Exec, w: Watch, m: Measurement, tr: TrackerReading) {
    !GetsOn(p, w, m, tr) && m.rosNow - w.since >= p.cfg.stall
  }

  /** It has stayed at its goal for as long as it has to. */
  ghost predicate Stayed(p: Exec, w: Watch) {
    p.permission.Executing? && p.permission.motion.route.finalMove && w.time >= p.cfg.settleHold
  }

  lemma DriveWatch(p: Exec, w: Watch, m: Measurement, tr: TrackerReading)
    requires p.Active() && p.permission.Executing? && Judge(p, m).Drives?
    requires WindowInv(p.sense.velocity) && WatchInv(p, w)
    ensures var f, u := Drive(p, m, tr).0, Controlled(w, p, m, tr);
            if Controls(p, w.last, m)
            then Verdicts(f, Strays(p, tr), Sticks(p, w, m, tr), Stayed(p, u)) && WatchInv(f, u)
            else f.Active() && WatchInv(f, w)
  {
    GuardedWatch(p, w, m, tr);
    var motion := Stepped(p.permission.motion, m, tr);
    CheckedVerdict(p.(permission := Executing(motion)), StepDt(p, p.permission.motion, m), m);
    hide Judge, Checked, AtGoal, GetsOn, WindowInv, Exec.MovingNow, Guarded, Lasts, StallReset, Verdicts;
    assert Due(p, p.permission.motion, m) == Controls(p, w.last, m);
  }

  lemma JudgedEnd(p: Exec, m: Measurement)
    requires p.Active() && Judge(p, m).Ends?
    ensures Judge(p, m).outcome != Arrived && Judge(p, m).outcome != NoOutcome
  {
  }

  lemma RestWatch(p: Exec, w: Watch, m: Measurement, tr: TrackerReading)
    requires LocalInv(p) && WindowInv(p.sense.velocity) && WatchInv(p, w)
    ensures var f, u := StepRest(p, m, tr).0, Controlled(w, p, m, tr);
            if Controls(p, w.last, m)
            then Verdicts(f, Strays(p, tr), Sticks(p, w, m, tr), Stayed(p, u)) && WatchInv(f, u)
            else WatchInv(f, w)
                 && (p.Active() && !f.Active() ==>
                       Judge(p, m).Ends? && f.slots.result.outcome == Judge(p, m).outcome != Arrived)
  {
    hide Drive, AtGoal, WindowInv, Lasts, Dist2, WrapAngle, Verdicts, GetsOn, Judge;
    if p.Active() {
      if Judge(p, m).Drives? { DrivesExecuting(p, m); DriveWatch(p, w, m, tr); }
      if Judge(p, m).Ends? { JudgedEnd(p, m); }
    }
  }

  lemma DrivesExecuting(p: Exec, m: Measurement)
    requires p.Active() && Judge(p, m).Drives?
    ensures p.permission.Executing?
  {
  }

  lemma OpKeepsWatch(e: Exec, w: Watch, op: Op)
    requires LocalInv(e) && WindowInv(e.sense.velocity) && WatchInv(e, w)
    ensures WatchInv(Apply(e, op), Noted(w, e, op))
  {
    hide Poll, StepRest, OnGrant, AtGoal, Controls, WindowInv, Lasts, GetsOn, Controlled, Verdicts;
    match op
    case PollOp(m) => PollWatch(e, w, m);
    case StepOp(m, tr) =>
      PollWatch(e, w, m);
      PollForward(e, m);
      RestWatch(Poll(e, m), Polled(w, e, m), m, tr);
    case _ => OtherClocks(e, op);
  }

  // ---------------------------------------------------------------- over runs

  lemma {:induction false} RunKeepsWatch(cfg: ExecutorConfig, spec: VehicleSpec, ops: seq<Op>)
    requires AllAllowed(Fresh(cfg, spec), ops)
    ensures WatchInv(After(Fresh(cfg, spec), ops), WatchOf(Fresh(cfg, spec), ops))
  {
    hide WatchInv, LocalInv, StopInv, Noted, Apply, Allowed, WindowInv;
    var e := Fresh(cfg, spec);
    FreshIsLocal(cfg, spec);
    FreshIsWatched(cfg, spec);
    if ops != [] {
      var before := ops[..|ops| - 1];
      RunKeepsWatch(cfg, spec, before);
      RunForward(e, before, 0);
      RunKeepsStop(cfg, spec, before);
      StopHasWindow(After(e, before), AuditOf(e, before));
      OpKeepsWatch(After(e, before), WatchOf(e, before), ops[|ops| - 1]);
    }
  }

  lemma FreshIsWatched(cfg: ExecutorConfig, spec: VehicleSpec)
    ensures forall w :: WatchInv(Fresh(cfg, spec), w)
  {
  }

  lemma StopHasWindow(e: Exec, a: Audit)
    requires StopInv(e, a)
    ensures WindowInv(e.sense.velocity)
  {
  }

  /** In any run, every control step: it ends the run as a deviation exactly when the vehicle has left
      the tube; otherwise as stalled exactly when it was free to move for too long and did not get on;
      otherwise as arrived exactly when it is on its final move and has stayed at the target, at rest,
      for as long as it has to; and otherwise the run goes on. */
  lemma ControlStepEnds(cfg: ExecutorConfig, spec: VehicleSpec, ops: seq<Op>, m: Measurement,
                        tr: TrackerReading)
    requires AllAllowed(Fresh(cfg, spec), ops)
    ensures var e := After(Fresh(cfg, spec), ops);
            var p, f := Poll(e, m), Step(e, m, tr).0;
            var w := Polled(WatchOf(Fresh(cfg, spec), ops), e, m);
            var u := WatchOf(Fresh(cfg, spec), ops + [StepOp(m, tr)]);
            Controls(p, w.last, m) ==> Verdicts(f, Strays(p, tr), Sticks(p, w, m, tr), Stayed(p, u))
    ensures var e := After(Fresh(cfg, spec), ops);
            var p, f := Poll(e, m), Step(e, m, tr).0;
            var w := Polled(WatchOf(Fresh(cfg, spec), ops), e, m);
            !Controls(p, w.last, m) && p.Active() && !f.Active() ==> f.slots.result.outcome != Arrived
  {
    var e0 := Fresh(cfg, spec);
    var e := After(e0, ops);
    FreshIsLocal(cfg, spec);
    RunForward(e0, ops, 0);
    RunKeepsStop(cfg, spec, ops);
    StopHasWindow(e, AuditOf(e0, ops));
    RunKeepsWatch(cfg, spec, ops);
    PollWatch(e, WatchOf(e0, ops), m);
    PollForward(e, m);
    RestWatch(Poll(e, m), Polled(WatchOf(e0, ops), e, m), m, tr);
    assert (ops + [StepOp(m, tr)])[..|ops|] == ops;
    hide Poll, StepRest, AtGoal, Controls, LocalInv, StopInv, Lasts, WindowInv, Controlled, GetsOn;
  }

  /** In any run: a step that ends an active run as Arrived ends its final move, whose control steps at
      the target and at rest add up, without a break, to the time the vehicle has to stay; and if that
      time is positive, the vehicle is at its target and at rest now. */
  lemma ArrivedIsAtTarget(cfg: ExecutorConfig, spec: VehicleSpec, ops: seq<Op>, m: Measurement,
                          tr: TrackerReading)
    requires AllAllowed(Fresh(cfg, spec), ops) && After(Fresh(cfg, spec), ops).Active()
    requires var f := Step(After(Fresh(cfg, spec), ops), m, tr).0;
             !f.Active() && f.slots.result.outcome == Arrived
    ensures var e := After(Fresh(cfg, spec), ops);
            var p, f := Poll(e, m), Step(e, m, tr).0;
            && f.slots.pending && f.slots.result.session == e.header.session
            && p.permission.Executing? && p.permission.motion.route.finalMove
            && WatchOf(Fresh(cfg, spec), ops + [StepOp(m, tr)]).time >= e.cfg.settleHold
            && (e.cfg.settleHold > 0.0 ==>
                  && NearTarget(e.header.target, m.pose, e.cfg.positionTolerance, e.cfg.yawTolerance)
                  && Stands(e.sense.velocity, e.cfg.stopSpeed, e.cfg.stopYawRate))
  {
    var e0 := Fresh(cfg, spec);
    var e := After(e0, ops);
    ControlStepEnds(cfg, spec, ops, m, tr);
    FreshIsLocal(cfg, spec);
    RunForward(e0, ops, 0);
    PollFrame(e, m);
    StepFrames(e, m, tr);
    assert (ops + [StepOp(m, tr)])[..|ops|] == ops;
    hide Poll, Step, NearTarget, Stands, Controls, LocalInv, Lasts, GetsOn, Steady;
  }
}
