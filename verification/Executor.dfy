/** The executor as the source has it: one object whose methods update its fields in place, proved
    equal, method by method, to the functions of ExecutorModel. */
module Executor {
  import opened ResetProtocol
  import opened Velocity
  import opened ExecutorModel

  class ResetExecutor {
    var cfg: ExecutorConfig
    var spec: VehicleSpec
    var sense: Sense
    var run: Option<Run>
    var header: Header
    var permission: Permission
    var generation: nat
    var brakeId: nat
    var ackId: nat
    var fault: bool
    var decisions: Decisions
    var slots: Slots
    var published: Option<Published>
    var nextPublication: nat

    function View(): Exec
      reads this
    {
      Exec(cfg, spec, sense, run, header, permission, generation, brakeId, ackId, fault,
           decisions, slots, published, nextPublication)
    }

    constructor (cfg: ExecutorConfig, spec: VehicleSpec)
      ensures View() == Fresh(cfg, spec)
    {
      this.cfg, this.spec := cfg, spec;
      sense := Sense(Velocity.EMPTY, -1.0, None, None, false);
      run, header := None, Header(0, Pose(0.0, 0.0, 0.0));
      permission, generation, brakeId, ackId, fault := NoPermission, 0, 0, 0, false;
      decisions := Decisions(0, None, None);
      slots := Slots(NO_RESULT, NO_RESULT, false, false);
      published, nextPublication := None, 0;
    }

    method SetPhase(p: Phase)
      modifies this`run
      ensures View() == old(View()).WithPhase(p)
    {
      if run.Some? { run := Some(run.value.(phase := p)); }
    }

    method DoRequestAuthority(terminal: bool)
      modifies this
      ensures View() == RequestAuthority(old(View()), terminal)
    {
      permission := AwaitBrake;
      brakeId, ackId := 0, 0;
      if generation == UINT32_MAX {
        fault := true;
      } else {
        generation := generation + 1;
      }
      if !terminal && run.Some? { run := Some(run.value.(phase := Requesting)); }
    }

    method DoEnd(outcome: Outcome, reason: Reason, detail: string, m: Measurement)
      modifies this
      ensures View() == End(old(View()), outcome, reason, detail, m)
    {
      if !View().Active() { return; }
      RecordResult(outcome, reason, detail, m);
      DoRequestAuthority(true);
    }

    method RecordResult(outcome: Outcome, reason: Reason, detail: string, m: Measurement)
      requires run.Some?
      modifies this
      ensures View() == Recorded(old(View()), outcome, reason, detail, m)
    {
      if slots.pending {
        slots := slots.(previous := slots.result, previousPending := true);
      }
      var t := header.target;
      slots := slots.(
        result := Result(header.session, outcome, reason, detail,
                         Dist2(m.pose.x, m.pose.y, t.x, t.y), Abs(WrapAngle(t.yaw - m.pose.yaw)),
                         m.rosNow - run.value.enterRos),
        pending := true);
      run := Some(run.value.(phase := Phase.Done, reported := false));
    }

    method DoFinish()
      modifies this
      ensures View() == Finish(old(View()))
    {
      if run.Some? {
        if permission.Executing? { DoRequestAuthority(true); }
        run := None;
      }
    }

    method DoInstall(value: Run, h: Header, m: Measurement)
      modifies this
      ensures View() == Install(old(View()), value, h, m)
    {
      DoEnd(Stopped, NoReason, "replaced by a new Reset", m);
      DoFinish();
      run, header, permission := Some(value), h, NoPermission;
      DoRequestAuthority(false);
    }

    method DoAbort(outcome: Outcome, detail: string, m: Measurement)
      modifies this
      ensures View() == Abort(old(View()), outcome, detail, m)
    {
      DoEnd(outcome, NoReason, detail, m);
    }

    method DoSetSpec(newSpec: VehicleSpec)
      modifies this
      ensures View() == SetSpec(old(View()), newSpec)
    {
      var changed := spec != newSpec;
      spec := newSpec;
      if changed && !permission.NoPermission? && !permission.Complete? {
        DoRequestAuthority(!View().Active());
      }
    }

    method DoSetTimeout(seconds: real)
      modifies this`cfg
      ensures View() == old(View()).(cfg := old(cfg).(timeout := seconds))
    {
      cfg := cfg.(timeout := seconds);
    }

    method DoObserve(m: Measurement)
      modifies this
      ensures View() == Observe(old(View()), m)
    {
      if sense.lastRosNow.Some? && m.rosNow < sense.lastRosNow.value - 0.000000001 {
        sense := sense.(clockInvalid := true);
        if permission.AwaitGo? { permission := permission.(certified := false); }
      }
      sense := sense.(lastRosNow := Some(m.rosNow));
      assert View() == Clocked(old(View()), m);
      if sense.lastPoseStamp.Some? && m.poseStamp <= sense.lastPoseStamp.value { return; }
      sense := sense.(lastPoseStamp := Some(m.poseStamp));
      if permission.AwaitZero? || permission.AwaitBrake? { return; }
      var zero := ZeroSince(permission);
      if zero.Some? && (sense.clockInvalid || !m.poseStampTrusted || m.poseStamp <= zero.value
                        || m.poseStamp > m.rosNow + 0.000000001) {
        return;
      }
      sense := sense.(velocity := Added(sense.velocity, m.poseStamp, m.pose),
                      velocityStamp := m.poseStamp);
    }

    method DoZeroPublished(rosNow: real, g: nat, brake: nat)
      modifies this
      ensures View() == ZeroPublished(old(View()), rosNow, g, brake)
    {
      if !permission.AwaitZero? || sense.clockInvalid || fault || !View().CommandNow().Zero()
         || (g != 0 && g != generation) || (brake != 0 && brake != brakeId) {
        return;
      }
      sense := sense.(velocity := Velocity.EMPTY, velocityStamp := -1.0);
      permission := AwaitStopped(rosNow);
    }

    method DoOnGrant(g: Grant, m: Measurement)
      modifies this
      ensures View() == OnGrant(old(View()), g, m)
    {
      if !Accepts(View(), g) { return; }
      decisions := Decisions(g.id, Some(g), Some(g.publication));
      if run.Some? { run := Some(run.value.(lastMessageWall := m.wallNow, heard := true)); }
      match g.state {
        case Brake =>
          if permission.AwaitBrake? {
            brakeId, ackId := g.id, g.id;
            permission := AwaitZero;
          } else if g.id != brakeId {
            DoRequestAuthority(!View().Active());
          }
        case Go =>
          if permission.Executing? {
            ackId := g.id;
            permission := Executing(permission.motion.(
              heartbeatDeadline := m.wallNow + g.ttl, grantId := g.id, sLimit := g.sLimit));
          } else if permission.AwaitGo? {
            permission := permission.(deferred := Some(DeferredGo(g, m.wallNow + g.ttl)));
          }
        case Hold =>
          if !View().Active() && permission.AwaitGo? {
            ackId := g.id;
            permission := Complete;
          }
        case Reject =>
          DoEnd(RejectOutcome(g.reason), g.reason, g.detail, m);
      }
    }

    method DoPoll(m: Measurement)
      modifies this
      ensures View() == Poll(old(View()), m)
    {
      if fault {
        StopCommand();
        return;
      }
      if permission.AwaitStopped? {
        if View().CausalStopped(m, permission.zeroRos) {
          permission := AwaitGo(permission.zeroRos, true, None);
        }
      } else if permission.AwaitGo? {
        permission := permission.(certified := View().CausalStopped(m, permission.goZeroRos));
      }
      if Starts(View(), m) {
        var d := permission.deferred.value;
        ackId := d.grant.id;
        permission := Executing(StartMotion(View(), d, m));
        SetPhase(Waiting);
      }
    }

    method StopCommand()
      modifies this`permission
      ensures View() == ZeroMotion(old(View()))
    {
      if permission.Executing? {
        permission := Executing(permission.motion.(command := ZERO_COMMAND));
      }
    }

    method DoHeld() returns (out: StepOutput)
      modifies this
      ensures (View(), out) == Held(old(View()))
    {
      var p := if View().PermissionPending() || View().PhaseOf() == Requesting
               then Requesting else Waiting;
      SetPhase(p);
      out := StepOutput(ZERO_COMMAND, false, p);
    }

    method DoFinished() returns (out: StepOutput)
      modifies this
      ensures (View(), out) == Finished(old(View()))
    {
      if run.Some? { run := Some(run.value.(reported := true)); }
      out := StepOutput(ZERO_COMMAND, true, Phase.Done);
    }

    method EndNow(outcome: Outcome, reason: Reason, detail: string, m: Measurement)
      returns (out: StepOutput)
      modifies this
      ensures (View(), out) == Finished(End(old(View()), outcome, reason, detail, m))
    {
      DoEnd(outcome, reason, detail, m);
      out := DoFinished();
    }

    method DoStep(m: Measurement, tr: TrackerReading) returns (out: StepOutput)
      modifies this
      ensures (View(), out) == Step(old(View()), m, tr)
    {
      DoPoll(m);
      if run.Some? && run.value.phase == Phase.Done && !run.value.reported {
        out := DoFinished();
        return;
      }
      if !View().Active() { return StepOutput(ZERO_COMMAND, false, View().PhaseOf()); }
      var r := run.value;
      if fault {
        out := EndNow(RejectedByCoordinator, BadSession, "Reset authority counter exhausted", m);
      } else if cfg.timeout > 0.0 && (m.rosNow - r.enterRos >= cfg.timeout
                                      || m.wallNow - r.enterWall >= cfg.timeout) {
        out := EndNow(Timeout, NoReason, "the vehicle's own deadline", m);
      } else if !m.healthy {
        StopCommand();
        out := DoHeld();
      } else if !r.targetValid {
        if m.wallNow - r.enterWall >= cfg.noTargetHold {
          out := EndNow(RejectedNoTarget, NoReason,
                        "no target: reset_pose cache and reset_initial_* missing", m);
        } else {
          out := DoHeld();
        }
      } else if m.wallNow - r.lastMessageWall >= cfg.noCoordinator {
        if r.heard {
          out := EndNow(AbortedCoordinatorLost, NoReason, "the coordinator stopped answering", m);
        } else {
          out := EndNow(RejectedNoCoordinator, NoReason, "no coordinator answered", m);
        }
      } else if sense.clockInvalid {
        if permission.Executing? { DoRequestAuthority(false); }
        out := DoHeld();
      } else if !permission.Executing? {
        out := DoHeld();
      } else if m.wallNow > permission.motion.heartbeatDeadline {
        DoRequestAuthority(false);
        out := DoHeld();
      } else {
        out := DoDrive(m, tr);
      }
    }

    method DoDrive(m: Measurement, tr: TrackerReading) returns (out: StepOutput)
      requires View().Active() && permission.Executing?
      modifies this
      ensures (View(), out) == Drive(old(View()), m, tr)
    {
      if !Due(View(), permission.motion, m) {
        out := DoOutput();
        return;
      }
      var dt := StepDt(View(), permission.motion, m);
      permission := Executing(Stepped(permission.motion, m, tr));
      out := DoChecks(dt, m);
    }

    method DoChecks(dt: real, m: Measurement) returns (out: StepOutput)
      requires View().Active() && permission.Executing?
      modifies this
      ensures (View(), out) == Checked(old(View()), dt, m)
    {
      if !InTube(View(), permission.motion.tracker) {
        out := EndNow(AbortedDeviation, NoReason, "left the route tube", m);
        return;
      }
      if !StallReset(permission.motion, m)
         && !(m.rosNow - permission.motion.stallSince < cfg.stall) {
        out := EndNow(AbortedStalled, NoReason, "allowed to move but did not for 10 s", m);
        return;
      }
      UpdateGuards(dt, m);
      if permission.motion.route.finalMove && permission.motion.settle >= cfg.settleHold {
        out := EndNow(Arrived, NoReason, "", m);
        return;
      }
      out := DoSettled(m);
    }

    method UpdateGuards(dt: real, m: Measurement)
      requires permission.Executing?
      modifies this`permission
      ensures View() == old(View()).(
                permission := Executing(Guarded(old(View()), old(permission.motion), dt, m)))
    {
      if StallReset(permission.motion, m) {
        permission := Executing(permission.motion.(stallSince := m.rosNow, stallPose := m.pose));
      }
      if permission.motion.route.finalMove {
        var settle := if AtTarget(View(), m.pose) && View().Slow()
                      then permission.motion.settle + dt else 0.0;
        permission := Executing(permission.motion.(settle := settle));
      }
    }

    method DoSettled(m: Measurement) returns (out: StepOutput)
      requires permission.Executing?
      modifies this
      ensures (View(), out) == Settled(old(View()), m)
    {
      var motion := permission.motion;
      if WholeRoute(motion.tracker, motion.sLimit) && !motion.route.finalMove
         && motion.tracker.atEnd && m.healthy && View().Slow() {
        StopCommand();
      }
      if AsksAgain(View(), m) {
        DoRequestAuthority(false);
        out := DoHeld();
      } else {
        out := DoOutput();
      }
    }

    method DoOutput() returns (out: StepOutput)
      requires permission.Executing?
      modifies this
      ensures (View(), out) == Output(old(View()))
    {
      var motion := permission.motion;
      var p := if motion.route.finalMove && motion.tracker.atEnd then Settling
               else if View().MovingNow() then Moving else Waiting;
      SetPhase(p);
      out := StepOutput(motion.command, false, p);
    }

    method DoMarkPublished(m: Measurement)
      modifies this
      ensures View() == MarkPublished(old(View()), m)
    {
      published := Some(Published(View().PhaseOf(), header.session, generation, ackId,
                                  View().StopCertified(), m.wallNow));
      if nextPublication == UINT32_MAX {
        fault := true;
      } else {
        nextPublication := nextPublication + 1;
      }
    }

    method DoCommitResult()
      modifies this
      ensures View() == CommitResult(old(View()))
    {
      if slots.previousPending {
        slots := slots.(previousPending := false);
      } else {
        slots := slots.(pending := false);
      }
    }
  }
}
