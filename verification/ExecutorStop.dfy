/** The causal stop certificate (reset_executor.h: onGrant, onZeroPublished, observe, poll): a stop
    is certified only from poses that were taken after a zero command that was published after the
    Brake of this very generation was accepted. */
module ExecutorStop {
  import opened ResetProtocol
  import opened Velocity
  import opened ExecutorModel
  import opened ExecutorRuns

  /** What an operation adds to the log of the vehicle, one event for each operation. */
  datatype Event =
    | Braked(generation: nat, id: nat)
    | Zeroed(generation: nat, rosNow: real)
    | Seen(m: Measurement)
    | Other

  function EventOf(e: Exec, op: Op): Event {
    match op
    case GrantOp(g, _) =>
      if Accepts(e, g) && g.state.Brake? && e.permission.AwaitBrake?
      then Braked(e.generation, g.id) else Other
    case ZeroOp(rosNow, _, _) =>
      if e.permission.AwaitZero? && Apply(e, op).permission.AwaitStopped?
      then Zeroed(e.generation, rosNow) else Other
    case ObserveOp(m) => Seen(m)
    case _ => Other
  }

  /** The log, and where in it the Brake and the zero of the current generation stand. */
  datatype Audit = Audit(log: seq<Event>, braked: nat, zeroed: nat)

  ghost function AuditOf(e: Exec, ops: seq<Op>): Audit {
    if ops == [] then Audit([], 0, 0)
    else Noted(AuditOf(e, ops[..|ops| - 1]), EventOf(After(e, ops[..|ops| - 1]), ops[|ops| - 1]))
  }

  function Noted(a: Audit, ev: Event): Audit {
    Audit(a.log + [ev], if ev.Braked? then |a.log| else a.braked,
          if ev.Zeroed? then |a.log| else a.zeroed)
  }

  /** A pose of the window is one that was observed after the zero, with a trusted stamp. */
  ghost predicate Witnessed(a: Audit, entry: Entry, zeroRos: real) {
    && entry.t > zeroRos
    && exists k :: a.zeroed < k < |a.log| && SeenAs(a.log[k], entry)
  }

  predicate SeenAs(ev: Event, entry: Entry) {
    ev.Seen? && ev.m.poseStampTrusted && ev.m.poseStamp == entry.t && ev.m.pose == entry.pose
  }

  ghost predicate BrakeLogged(e: Exec, a: Audit) {
    a.braked < |a.log| && a.log[a.braked] == Braked(e.generation, e.brakeId)
  }

  ghost predicate ZeroLogged(e: Exec, a: Audit, zeroRos: real) {
    a.braked < a.zeroed < |a.log| && a.log[a.zeroed] == Zeroed(e.generation, zeroRos)
  }

  ghost predicate StopInv(e: Exec, a: Audit) {
    var h := e.sense.velocity.history;
    && WindowInv(e.sense.velocity)
    && (h != [] ==> e.sense.lastPoseStamp.Some? && h[|h| - 1].t <= e.sense.lastPoseStamp.value)
    && (Rank(e.permission) >= 2 ==> BrakeLogged(e, a))
    && (ZeroSince(e.permission).Some? ==>
          var z := ZeroSince(e.permission).value;
          && ZeroLogged(e, a, z)
          && (h != [] ==> h[|h| - 1].t == e.sense.velocityStamp)
          && forall i :: 0 <= i < |h| ==> Witnessed(a, h[i], z))
  }

  lemma NotingKeeps(e: Exec, a: Audit, ev: Event)
    requires StopInv(e, a) && (ev.Seen? || ev.Other?)
    ensures StopInv(e, Noted(a, ev))
  {
    var b := Noted(a, ev);
    var h := e.sense.velocity.history;
    if ZeroSince(e.permission).Some? {
      var z := ZeroSince(e.permission).value;
      forall i | 0 <= i < |h| ensures Witnessed(b, h[i], z) {
        var k :| a.zeroed < k < |a.log| && SeenAs(a.log[k], h[i]);
        assert b.log[k] == a.log[k];
      }
    }
  }

  lemma SteadyKeeps(e: Exec, f: Exec, a: Audit)
    requires StopInv(e, a) && f.sense == e.sense && Steady(e, f)
    ensures StopInv(f, a)
  {
  }

  lemma ObserveKeeps(e: Exec, a: Audit, m: Measurement)
    requires LocalInv(e) && StopInv(e, a)
    ensures StopInv(Observe(e, m), Noted(a, Seen(m)))
  {
    hide Added, WindowInv;
    var b := Noted(a, Seen(m));
    NotingKeeps(e, a, Seen(m));
    var c := Clocked(e, m);
    assert StopInv(c, b);
    if FreshPose(c, m) && Counts(c, m) { SampleKeeps(c, b, m); }
  }

  lemma SampleKeeps(c: Exec, b: Audit, m: Measurement)
    requires StopInv(c, b) && |b.log| > 0 && b.log[|b.log| - 1] == Seen(m)
    requires ZeroSince(c.permission).Some? ==> b.zeroed < |b.log| - 1
    requires FreshPose(c, m) && Counts(c, m)
    ensures StopInv(Sampled(c, m), b)
  {
    AddKeepsWindow(c.sense.velocity, m.poseStamp, m.pose);
    AddedWindow(c.sense.velocity, m.poseStamp, m.pose);
    hide WindowInv, Added;
    var h := c.sense.velocity.history;
    var r := Sampled(c, m).sense.velocity.history;
    if ZeroSince(c.permission).Some? {
      var z := ZeroSince(c.permission).value;
      forall i | 0 <= i < |r| ensures Witnessed(b, r[i], z) {
        if i < |r| - 1 {
          var k :| 0 <= k < |h| && h[k] == r[i];
          assert Witnessed(b, h[k], z);
        } else {
          assert SeenAs(b.log[|b.log| - 1], r[i]);
        }
      }
    }
  }

  lemma ZeroKeepsStop(e: Exec, a: Audit, op: Op)
    requires LocalInv(e) && StopInv(e, a) && op.ZeroOp? && Apply(e, op) != e
    ensures StopInv(Apply(e, op), Noted(a, EventOf(e, op)))
  {
    assert Apply(e, op).sense.velocity == Velocity.EMPTY;
  }

  lemma GrantKeepsStop(e: Exec, a: Audit, g: Grant, m: Measurement)
    requires LocalInv(e) && StopInv(e, a)
    ensures StopInv(OnGrant(e, g, m), Noted(a, EventOf(e, GrantOp(g, m))))
  {
    hide WindowInv, Dist2, WrapAngle, SameRoute, SameDecision, ValidGo;
    var f := OnGrant(e, g, m);
    if Accepts(e, g) && g.state.Brake? && e.permission.AwaitBrake? {
      assert f.sense == e.sense && f.permission.AwaitZero?;
    } else {
      NotingKeeps(e, a, Other);
      SteadyKeeps(e, f, Noted(a, Other));
    }
  }

  lemma OtherSteady(e: Exec, op: Op)
    requires LocalInv(e)
    requires op.InstallOp? || op.AbortOp? || op.FinishOp? || op.SpecOp? || op.TimeoutOp?
             || op.PublishOp? || op.CommitOp?
    ensures Steady(e, Apply(e, op)) && Apply(e, op).sense == e.sense
  {
    hide Dist2, WrapAngle;
  }

  lemma OpKeepsStop(e: Exec, a: Audit, op: Op)
    requires LocalInv(e) && Allowed(e, op) && StopInv(e, a)
    ensures StopInv(Apply(e, op), Noted(a, EventOf(e, op)))
  {
    hide StopInv, Step, Poll, SessionDue, Observe, ZeroPublished, OnGrant, Steady;
    var f, b := Apply(e, op), Noted(a, EventOf(e, op));
    match op
    case ObserveOp(m) => ObserveKeeps(e, a, m);
    case ZeroOp(_, _, _) =>
      if f == e { NotingKeeps(e, a, Other); } else { ZeroKeepsStop(e, a, op); }
    case StepOp(m, tr) => NotingKeeps(e, a, Other); StepFrames(e, m, tr); SteadyKeeps(e, f, b);
    case PollOp(m) => NotingKeeps(e, a, Other); PollFrame(e, m); SteadyKeeps(e, f, b);
    case GrantOp(g, m) => GrantKeepsStop(e, a, g, m);
    case _ => NotingKeeps(e, a, Other); OtherSteady(e, op); SteadyKeeps(e, f, b);
  }

  lemma {:induction false} RunKeepsStop(cfg: ExecutorConfig, spec: VehicleSpec, ops: seq<Op>)
    requires AllAllowed(Fresh(cfg, spec), ops)
    ensures StopInv(After(Fresh(cfg, spec), ops), AuditOf(Fresh(cfg, spec), ops))
    ensures |AuditOf(Fresh(cfg, spec), ops).log| == |ops|
  {
    var e := Fresh(cfg, spec);
    if ops != [] {
      var before := ops[..|ops| - 1];
      RunKeepsStop(cfg, spec, before);
      RunForward(e, before, 0);
      OpKeepsStop(After(e, before), AuditOf(e, before), ops[|ops| - 1]);
    }
  }

  /** A poll that certifies, or that starts motion on a certificate. A faulty executor's poll
      decides nothing (and it publishes no Session any more). */
  predicate Certifies(e: Exec, m: Measurement) {
    var f := Poll(e, m);
    !e.fault
    && (f.StopCertified() || (f.permission.Executing? && !e.permission.Executing?))
  }

  /** From one pose to the other the vehicle has gone no further than at `speed`, and has turned no
      further than at `rate`: there is a turn of at most half a circle between the two headings, and
      it is that small. */
  ghost predicate StandsStill(first: Entry, last: Entry, speed: real, rate: real) {
    var span := last.t - first.t;
    var dx, dy, dyaw := last.pose.x - first.pose.x, last.pose.y - first.pose.y, last.pose.yaw - first.pose.yaw;
    && dx * dx + dy * dy <= (speed * span) * (speed * span)
    && WithinTurn(dyaw, rate * span)
  }

  predicate SmallTurn(turn: real, most: real) { -K_PI <= turn < K_PI && -most <= turn <= most }

  /** The angle is no more than `most`, either way, up to whole turns. */
  ghost predicate WithinTurn(a: real, most: real) { exists k: int :: SmallTurn(Unwound(a, k), most) }

  lemma SlowStandsStill(v: Estimate, first: Entry, last: Entry, speed: real, rate: real)
    requires ChordOf(v.speed2, v.yawRate, first, last) && first.t < last.t
    requires v.speed2 <= speed * speed && Abs(v.yawRate) <= rate
    ensures StandsStill(first, last, speed, rate)
  {
    hide Unwound;
    var span := last.t - first.t;
    Scaled(v.speed2, speed * speed, span * span);
    assert speed * speed * (span * span) == (speed * span) * (speed * span);
    Scaled(v.yawRate, rate, span);
    Scaled(-rate, v.yawRate, span);
    var k: int :| v.yawRate * span == Unwound(last.pose.yaw - first.pose.yaw, k);
    var turn := Unwound(last.pose.yaw - first.pose.yaw, k);
    assert -rate * span == -(rate * span);
    assert SmallTurn(turn, rate * span);
  }

  lemma Scaled(a: real, b: real, f: real)
    requires a <= b && f >= 0.0
    ensures a * f <= b * f
  {
  }

  /** The evidence for a stop: the Brake of this generation was accepted, a zero was published after
      it, and every pose of the window, which spans at least MIN_SPAN and ends with the pose of `m`,
      was taken after that zero with a trusted stamp; over this window the vehicle stands still. */
  ghost predicate Evidence(e: Exec, a: Audit, m: Measurement) {
    var h := e.sense.velocity.history;
    && m.healthy && m.externalCommandZero && m.poseStampTrusted
    && BrakeLogged(e, a) && a.braked < a.zeroed < |a.log|
    && a.log[a.zeroed].Zeroed? && a.log[a.zeroed].generation == e.generation
    && |h| >= 2 && h[|h| - 1].t == m.poseStamp && h[|h| - 1].t - h[0].t >= MIN_SPAN
    && (forall i :: 0 <= i < |h| ==> Witnessed(a, h[i], a.log[a.zeroed].rosNow))
    && StandsStill(h[0], h[|h| - 1], e.cfg.stopSpeed, e.cfg.stopYawRate)
  }

  /** In any run, whenever `poll` certifies a stop or starts motion, that evidence exists. */
  lemma CertifiedStopIsCausal(cfg: ExecutorConfig, spec: VehicleSpec, ops: seq<Op>, m: Measurement)
    requires AllAllowed(Fresh(cfg, spec), ops)
    requires Certifies(After(Fresh(cfg, spec), ops), m)
    ensures Evidence(After(Fresh(cfg, spec), ops), AuditOf(Fresh(cfg, spec), ops), m)
  {
    var e := Fresh(cfg, spec);
    RunForward(e, ops, 0);
    RunKeepsStop(cfg, spec, ops);
    CertifiesCausally(After(e, ops), m);
    CausalGivesEvidence(After(e, ops), AuditOf(e, ops), m);
  }

  lemma CertifiesCausally(e: Exec, m: Measurement)
    requires LocalInv(e) && Certifies(e, m)
    ensures ZeroSince(e.permission).Some? && e.CausalStopped(m, ZeroSince(e.permission).value)
  {
    hide Exec.CausalStopped;
  }

  lemma CausalGivesEvidence(e: Exec, a: Audit, m: Measurement)
    requires LocalInv(e) && StopInv(e, a)
    requires ZeroSince(e.permission).Some? && e.CausalStopped(m, ZeroSince(e.permission).value)
    ensures Evidence(e, a, m)
  {
    hide ChordOf, StandsStill, Witnessed;
    var h := e.sense.velocity.history;
    SlowStandsStill(e.sense.velocity, h[0], h[|h| - 1], e.cfg.stopSpeed, e.cfg.stopYawRate);
  }
}
