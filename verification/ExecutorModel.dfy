/** The vehicle's Reset executor (reset_executor.h) as functions on its state: one function for each
    operation, with the branches of the source. The class ResetExecutor (Executor.dfy) is proved
    equal to these functions step by step; what the executor promises is proved about them.

    The RouteTracker is a command source: what one tracker step answers (its command, cross-track,
    progress, end flags and route length) is a parameter of the step. */
module ExecutorModel {
  import opened ResetProtocol
  import opened Velocity

  datatype ExecutorConfig = ExecutorConfig(
    timeout: real, noTargetHold: real, noCoordinator: real, stall: real, controlPeriod: real,
    tubeCrossTrack: real, positionTolerance: real, yawTolerance: real, stopSpeed: real,
    stopYawRate: real, settleHold: real)

  datatype Measurement = Measurement(rosNow: real, wallNow: real, pose: Pose, poseStamp: real,
                                     healthy: bool, poseStampTrusted: bool,
                                     externalCommandZero: bool)

  /** What one step of the RouteTracker answers. */
  datatype TrackerReading = TrackerReading(command: Command, crossTrack: real, progress: real,
                                           atEnd: bool, finalStage: bool, length: real)

  const NEW_TRACKER := TrackerReading(ZERO_COMMAND, 0.0, 0.0, false, false, 0.0)

  datatype DeferredGo = DeferredGo(grant: Grant, deadline: real)

  datatype Motion = Motion(route: RouteDecl, tracker: TrackerReading, command: Command,
                           grantId: nat, sLimit: real, heartbeatDeadline: real, lastStepRos: real,
                           settle: real, stallSince: real, stallPose: Pose)

  datatype Permission =
    | NoPermission
    | AwaitBrake
    | AwaitZero
    | AwaitStopped(zeroRos: real)
    | AwaitGo(goZeroRos: real, certified: bool, deferred: Option<DeferredGo>)
    | Executing(motion: Motion)
    | Complete

  /** The part of a Run the executor decides on; `phase` is never Idle. */
  datatype Run = Run(phase: Phase, reported: bool, targetValid: bool, allowance: real,
                     enterRos: real, enterWall: real, lastMessageWall: real, heard: bool)

  datatype Header = Header(session: nat, target: Pose)

  datatype Published = Published(phase: Phase, session: nat, generation: nat, ack: nat,
                                 certified: bool, wall: real)

  datatype StepOutput = StepOutput(command: Command, ended: bool, phase: Phase)

  const NO_RESULT := Result(0, NoOutcome, NoReason, "", 0.0, 0.0, 0.0)

  /** The observation side: velocity window, its newest stamp, and the two monotone-clock fences. */
  datatype Sense = Sense(velocity: Estimate, velocityStamp: real, lastPoseStamp: Option<real>,
                         lastRosNow: Option<real>, clockInvalid: bool)

  /** The fence of accepted grants. */
  datatype Decisions = Decisions(lastId: nat, last: Option<Grant>, lastPublication: Option<nat>)

  /** The two result credits; `previous` is the older one. */
  datatype Slots = Slots(result: Result, previous: Result, pending: bool, previousPending: bool)

  datatype Exec = Exec(
    cfg: ExecutorConfig, spec: VehicleSpec, sense: Sense,
    run: Option<Run>, header: Header, permission: Permission,
    generation: nat, brakeId: nat, ackId: nat, fault: bool,
    decisions: Decisions, slots: Slots,
    published: Option<Published>, nextPublication: nat)
  {
    predicate Active() { run.Some? && run.value.phase != Phase.Done }

    function PhaseOf(): Phase { if run.Some? then run.value.phase else Idle }

    predicate PermissionPending() {
      !permission.NoPermission? && !permission.Executing? && !permission.Complete?
    }

    predicate StopCertified() { permission.AwaitGo? && permission.certified }

    function CommandNow(): Command {
      if permission.Executing? then permission.motion.command else ZERO_COMMAND
    }

    function PendingResults(): nat {
      (if slots.pending then 1 else 0) + (if slots.previousPending then 1 else 0)
    }

    function Credits(): nat { PendingResults() + (if Active() then 1 else 0) }

    predicate Slow() {
      var v := sense.velocity;
      v.valid && v.speed2 <= cfg.stopSpeed * cfg.stopSpeed && Abs(v.yawRate) <= cfg.stopYawRate
    }

    predicate StoppedNow(m: Measurement) {
      m.healthy && m.externalCommandZero && CommandNow().Zero() && Slow()
    }

    predicate CausalStopped(m: Measurement, zeroRos: real) {
      && !sense.clockInvalid && m.poseStampTrusted && m.poseStamp > zeroRos
      && m.poseStamp <= m.rosNow && m.poseStamp == sense.velocityStamp && StoppedNow(m)
    }

    predicate MovingNow() {
      var cmd, v := CommandNow(), sense.velocity;
      Abs(cmd.vx) > 0.005 || Abs(cmd.vy) > 0.005 || Abs(cmd.wz) > 0.005
      || (v.valid && (v.speed2 > cfg.stopSpeed * 1.5 * (cfg.stopSpeed * 1.5)
                      || Abs(v.yawRate) > cfg.stopYawRate * 1.5))
    }

    function WithPhase(p: Phase): Exec {
      if run.Some? then this.(run := Some(run.value.(phase := p))) else this
    }
  }

  function Fresh(cfg: ExecutorConfig, spec: VehicleSpec): Exec {
    Exec(cfg, spec, Sense(Velocity.EMPTY, -1.0, None, None, false),
         None, Header(0, Pose(0.0, 0.0, 0.0)), NoPermission, 0, 0, 0, false,
         Decisions(0, None, None), Slots(NO_RESULT, NO_RESULT, false, false), None, 0)
  }

  // ---------------------------------------------------------------- authority and results

  function RequestAuthority(e: Exec, terminal: bool): Exec {
    var e1 := e.(permission := AwaitBrake, brakeId := 0, ackId := 0);
    var e2 := if e.generation == UINT32_MAX then e1.(fault := true)
              else e1.(generation := e.generation + 1);
    if terminal then e2 else e2.WithPhase(Requesting)
  }

  /** The result of the ending run takes the slot; an undelivered one moves to `previous`. */
  function Recorded(e: Exec, outcome: Outcome, reason: Reason, detail: string, m: Measurement): Exec
    requires e.run.Some?
  {
    var t := e.header.target;
    var r := Result(e.header.session, outcome, reason, detail,
                    Dist2(m.pose.x, m.pose.y, t.x, t.y), Abs(WrapAngle(t.yaw - m.pose.yaw)),
                    m.rosNow - e.run.value.enterRos);
    var kept := if e.slots.pending then e.slots.(previous := e.slots.result, previousPending := true)
                else e.slots;
    e.(slots := kept.(result := r, pending := true),
       run := Some(e.run.value.(phase := Phase.Done, reported := false)))
  }

  function End(e: Exec, outcome: Outcome, reason: Reason, detail: string, m: Measurement): Exec {
    if !e.Active() then e else RequestAuthority(Recorded(e, outcome, reason, detail, m), true)
  }

  /** Admission: a Run, unless the counters or the two result credits are used up. */
  function Prepare(e: Exec, valid: bool, spread: real, m: Measurement): Option<Run> {
    if e.fault || e.generation >= UINT32_MAX - 2 || e.Credits() >= 2 then None
    else
      var allowance := if e.spec.model == Unicycle
                       then (if spread >= 0.0 then spread else e.spec.ellBound) else 0.0;
      Some(Run(Requesting, false, valid, allowance, m.rosNow, m.wallNow, m.wallNow, false))
  }

  function Finish(e: Exec): Exec {
    if e.run.None? then e
    else (if e.permission.Executing? then RequestAuthority(e, true) else e).(run := None)
  }

  function Install(e: Exec, run: Run, header: Header, m: Measurement): Exec {
    var e1 := Finish(End(e, Stopped, NoReason, "replaced by a new Reset", m));
    RequestAuthority(e1.(run := Some(run), header := header, permission := NoPermission), false)
  }

  function Abort(e: Exec, outcome: Outcome, detail: string, m: Measurement): Exec {
    End(e, outcome, NoReason, detail, m)
  }

  function SetSpec(e: Exec, spec: VehicleSpec): Exec {
    var e1 := e.(spec := spec);
    if e.spec != spec && !e.permission.NoPermission? && !e.permission.Complete?
    then RequestAuthority(e1, !e.Active()) else e1
  }

  // ---------------------------------------------------------------- the stop certificate

  /** The ROS clock: a step back invalidates it for good and voids a certificate. */
  function Clocked(e: Exec, m: Measurement): Exec {
    var back := e.sense.lastRosNow.Some? && m.rosNow < e.sense.lastRosNow.value - 0.000000001;
    e.(sense := e.sense.(clockInvalid := e.sense.clockInvalid || back,
                         lastRosNow := Some(m.rosNow)),
       permission := if back && e.permission.AwaitGo? then e.permission.(certified := false)
                     else e.permission)
  }

  predicate FreshPose(e: Exec, m: Measurement) {
    e.sense.lastPoseStamp.Some? ==> m.poseStamp > e.sense.lastPoseStamp.value
  }

  /** While a stop is being certified only trusted poses after the zero count. */
  predicate Counts(e: Exec, m: Measurement) {
    && !e.permission.AwaitZero? && !e.permission.AwaitBrake?
    && (ZeroSince(e.permission).Some? ==>
          && !e.sense.clockInvalid && m.poseStampTrusted
          && m.poseStamp > ZeroSince(e.permission).value
          && m.poseStamp <= m.rosNow + 0.000000001)
  }

  function Sampled(e: Exec, m: Measurement): Exec {
    if !FreshPose(e, m) then e
    else
      var s := e.sense.(lastPoseStamp := Some(m.poseStamp));
      e.(sense := if !Counts(e, m) then s
                  else s.(velocity := Added(s.velocity, m.poseStamp, m.pose),
                          velocityStamp := m.poseStamp))
  }

  function Observe(e: Exec, m: Measurement): Exec { Sampled(Clocked(e, m), m) }

  function ZeroSince(p: Permission): Option<real> {
    match p
    case AwaitStopped(z) => Some(z)
    case AwaitGo(z, _, _) => Some(z)
    case _ => None
  }

  function ZeroPublished(e: Exec, rosNow: real, generation: nat, brake: nat): Exec {
    if !e.permission.AwaitZero? || e.sense.clockInvalid || e.fault || !e.CommandNow().Zero()
       || (generation != 0 && generation != e.generation) || (brake != 0 && brake != e.brakeId)
    then e
    else e.(sense := e.sense.(velocity := Velocity.EMPTY, velocityStamp := -1.0),
            permission := AwaitStopped(rosNow))
  }

  // ---------------------------------------------------------------- grants

  predicate ValidGo(e: Exec, g: Grant) {
    g.sLimit >= 0.0 && |g.route.via| <= K_MAX_VIA
    && (g.route.finalMove ==> SamePose(g.route.goal, e.header.target))
  }

  /** The fences of onGrant: what must hold before a grant changes anything. */
  predicate Accepts(e: Exec, g: Grant) {
    && !e.fault && !e.permission.NoPermission? && g.session == e.header.session
    && g.generation == e.generation && e.generation != 0 && g.id != 0 && g.ttl > 0.0
    && (e.decisions.lastPublication.Some? ==> g.publication > e.decisions.lastPublication.value)
    && g.id >= e.decisions.lastId
    && (g.id == e.decisions.lastId
        ==> e.decisions.last.Some? && SameDecision(e.decisions.last.value, g))
    && match g.state
       case Go =>
         ValidGo(e, g)
         && (match e.permission
             case Executing(motion) =>
               SameRoute(motion.route, g.route) && !(g.sLimit + 0.000000001 < motion.sLimit)
             case AwaitGo(_, certified, deferred) =>
               e.Active() && certified && g.id > e.brakeId
               && (deferred.Some? ==> g.id == deferred.value.grant.id)
             case _ => false)
       case Hold =>
         e.permission.Executing? || (e.StopCertified() && g.id > e.brakeId)
         || (e.permission.Complete? && !e.Active() && g.id == e.ackId)
       case Brake => true
       case Reject => true
  }

  function RejectOutcome(r: Reason): Outcome {
    if r == BadSession || r == SceneChanged || r == SceneUnavailable || r == NonParticipantMoving
       || r == NoReason then RejectedByCoordinator else Infeasible
  }

  function Remembered(e: Exec, g: Grant, m: Measurement): Exec {
    var e1 := e.(decisions := Decisions(g.id, Some(g), Some(g.publication)));
    if e.run.Some? then e1.(run := Some(e.run.value.(lastMessageWall := m.wallNow, heard := true)))
    else e1
  }

  function OnGrant(e: Exec, g: Grant, m: Measurement): Exec {
    if !Accepts(e, g) then e
    else
      var e1 := Remembered(e, g, m);
      match g.state
      case Brake =>
        if e.permission.AwaitBrake?
        then e1.(brakeId := g.id, ackId := g.id, permission := AwaitZero)
        else if g.id != e.brakeId then RequestAuthority(e1, !e.Active()) else e1
      case Go =>
        if e.permission.Executing?
        then e1.(ackId := g.id,
                 permission := Executing(e.permission.motion.(
                   heartbeatDeadline := m.wallNow + g.ttl, grantId := g.id, sLimit := g.sLimit)))
        else if e.permission.AwaitGo?
        then e1.(permission := e.permission.(deferred := Some(DeferredGo(g, m.wallNow + g.ttl))))
        else e1
      case Hold =>
        if !e.Active() && e.permission.AwaitGo? then e1.(ackId := g.id, permission := Complete)
        else e1
      case Reject => End(e1, RejectOutcome(g.reason), g.reason, g.detail, m)
  }

  /** The route that is followed: an omnidirectional vehicle ignores the planned offset. */
  function Followed(spec: VehicleSpec, r: RouteDecl): RouteDecl {
    r.(ell := if spec.model == Unicycle then r.ell else 0.0)
  }

  function StartMotion(e: Exec, d: DeferredGo, m: Measurement): Motion {
    Motion(Followed(e.spec, d.grant.route), NEW_TRACKER, ZERO_COMMAND, d.grant.id, d.grant.sLimit,
           d.deadline, -1.0, 0.0, m.rosNow, m.pose)
  }

  function Certify(e: Exec, m: Measurement): Exec {
    match e.permission
    case AwaitStopped(z) =>
      if e.CausalStopped(m, z) then e.(permission := AwaitGo(z, true, None)) else e
    case AwaitGo(z, _, d) => e.(permission := AwaitGo(z, e.CausalStopped(m, z), d))
    case _ => e
  }

  predicate Starts(e: Exec, m: Measurement) {
    && e.permission.AwaitGo? && e.permission.deferred.Some? && e.permission.certified
    && e.Active() && !e.sense.clockInvalid && e.CausalStopped(m, e.permission.goZeroRos)
    && m.wallNow <= e.permission.deferred.value.deadline
  }

  function Begin(e: Exec, m: Measurement): Exec {
    if !Starts(e, m) then e
    else
      var d := e.permission.deferred.value;
      e.(ackId := d.grant.id, permission := Executing(StartMotion(e, d, m))).WithPhase(Waiting)
  }

  function ZeroMotion(e: Exec): Exec {
    if e.permission.Executing?
    then e.(permission := Executing(e.permission.motion.(command := ZERO_COMMAND))) else e
  }

  function Poll(e: Exec, m: Measurement): Exec {
    if e.fault then ZeroMotion(e) else Begin(Certify(e, m), m)
  }

  // ---------------------------------------------------------------- the control step

  function Held(e: Exec): (Exec, StepOutput) {
    var p := if e.PermissionPending() || e.PhaseOf() == Requesting then Requesting else Waiting;
    (e.WithPhase(p), StepOutput(ZERO_COMMAND, false, p))
  }

  function Finished(e: Exec): (Exec, StepOutput) {
    (if e.run.Some? then e.(run := Some(e.run.value.(reported := true))) else e,
     StepOutput(ZERO_COMMAND, true, Phase.Done))
  }

  predicate WholeRoute(t: TrackerReading, sLimit: real) { t.length <= sLimit + 0.000001 }

  predicate InTube(e: Exec, t: TrackerReading) {
    e.run.Some? && Abs(t.crossTrack) <= e.cfg.tubeCrossTrack + 2.0 * e.run.value.allowance
  }

  /** moved > 0.03 with moved = hypot(dx, dy) + 0.3 |dyaw|, written without the square root. */
  predicate MovedSince(anchor: Pose, p: Pose) {
    var rest := 0.03 - 0.3 * Abs(WrapAngle(p.yaw - anchor.yaw));
    rest < 0.0 || Dist2(p.x, p.y, anchor.x, anchor.y) > rest * rest
  }

  predicate StallReset(motion: Motion, m: Measurement) {
    !(motion.sLimit - motion.tracker.progress > 0.1) || MovedSince(motion.stallPose, m.pose)
  }

  predicate AtTarget(e: Exec, p: Pose) {
    var t := e.header.target;
    Dist2(p.x, p.y, t.x, t.y) <= e.cfg.positionTolerance * e.cfg.positionTolerance
    && Abs(WrapAngle(t.yaw - p.yaw)) <= e.cfg.yawTolerance
  }

  function StepDt(e: Exec, motion: Motion, m: Measurement): real {
    if motion.lastStepRos < 0.0 then e.cfg.controlPeriod
    else Clamp(m.rosNow - motion.lastStepRos, 0.001, 0.1)
  }

  predicate Due(e: Exec, motion: Motion, m: Measurement) {
    motion.lastStepRos < 0.0 || m.rosNow - motion.lastStepRos >= e.cfg.controlPeriod - 0.000000001
  }

  /** The progress anchor and the arrival clock after a tracker step. */
  function Guarded(e: Exec, motion: Motion, dt: real, m: Measurement): Motion {
    var m1 := if StallReset(motion, m) then motion.(stallSince := m.rosNow, stallPose := m.pose)
              else motion;
    if !m1.route.finalMove then m1
    else if AtTarget(e, m.pose) && e.Slow() then m1.(settle := m1.settle + dt)
    else m1.(settle := 0.0)
  }

  function Stepped(motion: Motion, m: Measurement, tr: TrackerReading): Motion {
    motion.(lastStepRos := m.rosNow, command := tr.command, tracker := tr)
  }

  /** Tube, stall and arrival: the checks that can end the run in a control step. */
  function Checked(e: Exec, dt: real, m: Measurement): (Exec, StepOutput)
    requires e.permission.Executing? && e.Active()
  {
    var motion := e.permission.motion;
    if !InTube(e, motion.tracker)
    then Finished(End(e, AbortedDeviation, NoReason, "left the route tube", m))
    else if !StallReset(motion, m) && !(m.rosNow - motion.stallSince < e.cfg.stall)
    then Finished(End(e, AbortedStalled, NoReason, "allowed to move but did not for 10 s", m))
    else
      var guarded := Guarded(e, motion, dt, m);
      var e1 := e.(permission := Executing(guarded));
      if guarded.route.finalMove && guarded.settle >= e.cfg.settleHold
      then Finished(End(e1, Arrived, NoReason, "", m))
      else Settled(e1, m)
  }

  /** The whole route is granted and driven but the vehicle must ask again: a parking move that
      ended, or a final one that ended outside the tolerance. */
  predicate AsksAgain(e: Exec, m: Measurement)
    requires e.permission.Executing?
  {
    var motion := e.permission.motion;
    && WholeRoute(motion.tracker, motion.sLimit) && e.StoppedNow(m)
    && ((!motion.route.finalMove && motion.tracker.atEnd)
        || (motion.route.finalMove && motion.tracker.finalStage && !AtTarget(e, m.pose)))
  }

  function Settled(e: Exec, m: Measurement): (Exec, StepOutput)
    requires e.permission.Executing?
  {
    var motion := e.permission.motion;
    var parked := WholeRoute(motion.tracker, motion.sLimit) && !motion.route.finalMove
                  && motion.tracker.atEnd && m.healthy && e.Slow();
    var e1 := if parked then ZeroMotion(e) else e;
    if AsksAgain(e1, m) then Held(RequestAuthority(e1, false)) else Output(e1)
  }

  function Drive(e: Exec, m: Measurement, tr: TrackerReading): (Exec, StepOutput)
    requires e.permission.Executing? && e.Active()
  {
    var motion := e.permission.motion;
    if !Due(e, motion, m) then Output(e)
    else Checked(e.(permission := Executing(Stepped(motion, m, tr))), StepDt(e, motion, m), m)
  }

  function Output(e: Exec): (Exec, StepOutput)
    requires e.permission.Executing?
  {
    var motion := e.permission.motion;
    var p := if motion.route.finalMove && motion.tracker.atEnd then Settling
             else if e.MovingNow() then Moving else Waiting;
    (e.WithPhase(p), StepOutput(motion.command, false, p))
  }

  /** What a control step of an active run decides before any tracker step, in source order. */
  datatype Verdict =
    | Ends(outcome: Outcome, reason: Reason, detail: string)
    | HoldsStopped
    | Holds
    | HoldsRevoked
    | Drives

  function Judge(e: Exec, m: Measurement): Verdict
    requires e.Active()
  {
    var r := e.run.value;
    if e.fault then Ends(RejectedByCoordinator, BadSession, "Reset authority counter exhausted")
    else if e.cfg.timeout > 0.0 && (m.rosNow - r.enterRos >= e.cfg.timeout
                                    || m.wallNow - r.enterWall >= e.cfg.timeout)
    then Ends(Timeout, NoReason, "the vehicle's own deadline")
    else if !m.healthy then HoldsStopped
    else if !r.targetValid then
      if m.wallNow - r.enterWall >= e.cfg.noTargetHold
      then Ends(RejectedNoTarget, NoReason,
                "no target: reset_pose cache and reset_initial_* missing")
      else Holds
    else if m.wallNow - r.lastMessageWall >= e.cfg.noCoordinator then
      if r.heard then Ends(AbortedCoordinatorLost, NoReason, "the coordinator stopped answering")
      else Ends(RejectedNoCoordinator, NoReason, "no coordinator answered")
    else if e.sense.clockInvalid then
      if e.permission.Executing? then HoldsRevoked else Holds
    else if !e.permission.Executing? then Holds
    else if m.wallNow > e.permission.motion.heartbeatDeadline then HoldsRevoked
    else Drives
  }

  function StepRest(e: Exec, m: Measurement, tr: TrackerReading): (Exec, StepOutput) {
    if e.run.Some? && e.run.value.phase == Phase.Done && !e.run.value.reported then Finished(e)
    else if !e.Active() then (e, StepOutput(ZERO_COMMAND, false, e.PhaseOf()))
    else
      match Judge(e, m)
      case Ends(outcome, reason, detail) => Finished(End(e, outcome, reason, detail, m))
      case HoldsStopped => Held(ZeroMotion(e))
      case Holds => Held(e)
      case HoldsRevoked => Held(RequestAuthority(e, false))
      case Drives => Drive(e, m, tr)
  }

  function Step(e: Exec, m: Measurement, tr: TrackerReading): (Exec, StepOutput) {
    StepRest(Poll(e, m), m, tr)
  }

  // ---------------------------------------------------------------- the Session and the results

  function MakeSession(e: Exec, m: Measurement): Session {
    Session(e.generation, e.ackId, e.StopCertified(), e.nextPublication, e.header.session,
            m.poseStamp, m.pose, e.header.target, e.PhaseOf(), e.spec, m.healthy)
  }

  predicate SessionDue(e: Exec, m: Measurement) {
    && !e.fault
    && (e.published.None?
        || var p := e.published.value;
           e.PhaseOf() != p.phase || e.header.session != p.session || e.generation != p.generation
           || e.ackId != p.ack || e.StopCertified() != p.certified
           || m.wallNow - p.wall >= K_SESSION_PERIOD - 0.000000001)
  }

  function MarkPublished(e: Exec, m: Measurement): Exec {
    var e1 := e.(published := Some(Published(e.PhaseOf(), e.header.session, e.generation, e.ackId,
                                             e.StopCertified(), m.wallNow)));
    if e.nextPublication == UINT32_MAX then e1.(fault := true)
    else e1.(nextPublication := e.nextPublication + 1)
  }

  function PeekResult(e: Exec): Option<Result> {
    if e.slots.previousPending then Some(e.slots.previous)
    else if e.slots.pending then Some(e.slots.result) else None
  }

  function CommitResult(e: Exec): Exec {
    e.(slots := if e.slots.previousPending then e.slots.(previousPending := false)
                else e.slots.(pending := false))
  }
}
