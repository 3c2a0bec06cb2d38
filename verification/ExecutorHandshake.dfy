/** The handshake succeeds (reset_executor.h: onGrant, onZeroPublished, observe, poll): a healthy
    vehicle that stands still after its Brake is certified, and then moves on the station's Go. The
    other proofs about the executor say that nothing less is enough; this one, that this is. */
module ExecutorHandshake {
  import opened ResetProtocol
  import opened Velocity
  import opened ExecutorModel

  /** A request that waits for its Brake. */
  predicate Asks(e: Exec) {
    && e.permission.AwaitBrake? && e.Active() && !e.fault && !e.sense.clockInvalid
    && e.generation != 0 && e.cfg.stopSpeed >= 0.0 && e.cfg.stopYawRate >= 0.0
  }

  /** A measurement of a vehicle that stands still at `pose`, newer than `zero`. */
  predicate Still(m: Measurement, pose: Pose, zero: real) {
    m.healthy && m.externalCommandZero && m.poseStampTrusted && m.pose == pose && zero < m.poseStamp <= m.rosNow
  }

  /** The ROS clock has not gone back and the pose is a new one. */
  predicate Newer(e: Exec, m: Measurement) {
    && (e.sense.lastRosNow.Some? ==> m.rosNow >= e.sense.lastRosNow.value) && FreshPose(e, m)
  }

  lemma NoTurn()
    ensures WrapAngle(0.0) == 0.0
  {
    var x := K_PI / (2.0 * K_PI);
    assert x == 0.5;
    assert x.Floor == 0;
  }

  lemma FirstPose(e: Exec, m: Measurement, zero: real)
    requires e.permission == AwaitStopped(zero) && e.sense.velocity == EMPTY && !e.sense.clockInvalid
    requires Still(m, m.pose, zero) && Newer(e, m)
    ensures var f := Observe(e, m);
            f == e.(sense := e.sense.(velocity := EMPTY.(history := [Entry(m.poseStamp, m.pose)]),
                                      velocityStamp := m.poseStamp, lastPoseStamp := Some(m.poseStamp),
                                      lastRosNow := Some(m.rosNow)))
  {
  }

  lemma SecondPose(e: Exec, m: Measurement, m': Measurement, zero: real)
    requires e.permission == AwaitStopped(zero) && !e.sense.clockInvalid
    requires e.sense.velocity == EMPTY.(history := [Entry(m.poseStamp, m.pose)])
    requires e.sense.lastPoseStamp == Some(m.poseStamp)
    requires Still(m', m.pose, zero) && Newer(e, m') && m.poseStamp + MIN_SPAN <= m'.poseStamp
    ensures var f := Observe(e, m');
            && f == e.(sense := f.sense) && !f.sense.clockInvalid && f.sense.velocityStamp == m'.poseStamp
            && f.sense.velocity.valid && f.sense.velocity.speed2 == 0.0 && f.sense.velocity.yawRate == 0.0
  {
    hide WrapAngle;
    NoTurn();
    var h := [Entry(m.poseStamp, m.pose)] + [Entry(m'.poseStamp, m'.pose)];
    assert Trim(h, m'.poseStamp) == h;
    assert h[0] == Entry(m.poseStamp, m.pose);
    StandsStill(h[0], Entry(m'.poseStamp, m'.pose));
    hide ChordSpeed2, ChordYawRate;
  }

  lemma StandsStill(first: Entry, last: Entry)
    requires first.t < last.t && first.pose == last.pose && WrapAngle(0.0) == 0.0
    ensures ChordSpeed2(first, last) == 0.0 && ChordYawRate(first, last) == 0.0
  {
    hide WrapAngle;
    assert last.pose.yaw - first.pose.yaw == 0.0;
    var d, t := Dist2(last.pose.x, last.pose.y, first.pose.x, first.pose.y), last.t - first.t;
    assert d == 0.0 && d / t == 0.0 && 0.0 / t == 0.0;
  }

  /** The certificate looks at the window, the limits and the command only. */
  lemma SameStop(a: Exec, b: Exec, m: Measurement, zero: real)
    requires a.sense == b.sense && a.cfg == b.cfg && a.CommandNow() == b.CommandNow()
    ensures a.CausalStopped(m, zero) == b.CausalStopped(m, zero)
  {
  }

  lemma IsSlow(e: Exec)
    requires e.sense.velocity.valid && e.sense.velocity.speed2 == 0.0 && e.sense.velocity.yawRate == 0.0
    requires e.cfg.stopSpeed >= 0.0 && e.cfg.stopYawRate >= 0.0
    ensures e.Slow()
  {
    var s := e.cfg.stopSpeed;
    assert s * s >= 0.0;
  }

  /** Brake, zero, two poses at rest, 0.2 s apart, and a poll: the stop is certified. */
  lemma StandingIsCertified(e: Exec, brake: Grant, at: Measurement, zero: real, m: Measurement, m': Measurement)
    requires Asks(e) && brake.state.Brake? && Accepts(e, brake)
    requires Still(m, m.pose, zero) && Newer(e, m)
    requires Still(m', m.pose, zero) && m'.rosNow >= m.rosNow && m.poseStamp + MIN_SPAN <= m'.poseStamp
    ensures var f := Poll(Observe(Observe(ZeroPublished(OnGrant(e, brake, at), zero, 0, 0), m), m'), m');
            && f.permission == AwaitGo(zero, true, None) && f.Active() && f.brakeId == brake.id
            && f.CausalStopped(m', zero)
            && f.decisions == Decisions(brake.id, Some(brake), Some(brake.publication))
            && f.generation == e.generation && f.header == e.header && !f.fault && !f.sense.clockInvalid
            && f.spec == e.spec
  {
    hide Observe, WrapAngle, Trim, Accepts, Exec.Slow;
    var e1 := OnGrant(e, brake, at);
    var e2 := ZeroPublished(e1, zero, 0, 0);
    assert e2.permission == AwaitStopped(zero);
    FirstPose(e2, m, zero);
    var e3 := Observe(e2, m);
    SecondPose(e3, m, m', zero);
    var e4 := Observe(e3, m');
    IsSlow(e4);
    SameStop(e4, Poll(e4, m'), m', zero);
  }

  /** And then a valid Go that arrives starts the motion: on its route, up to its limit, and until its
      time to live has passed. */
  lemma HandshakeMoves(e: Exec, brake: Grant, at: Measurement, zero: real, m: Measurement, m': Measurement,
                       go: Grant)
    requires Asks(e) && brake.state.Brake? && Accepts(e, brake)
    requires Still(m, m.pose, zero) && Newer(e, m)
    requires Still(m', m.pose, zero) && m'.rosNow >= m.rosNow && m.poseStamp + MIN_SPAN <= m'.poseStamp
    requires go.state.Go? && go.session == e.header.session && go.generation == e.generation
    requires go.id > brake.id && go.publication > brake.publication && go.ttl > 0.0 && ValidGo(e, go)
    ensures var c := Poll(Observe(Observe(ZeroPublished(OnGrant(e, brake, at), zero, 0, 0), m), m'), m');
            var f := Poll(OnGrant(c, go, m'), m');
            && f.Active() && f.generation == e.generation && f.ackId == go.id && f.permission.Executing?
            && f.permission.motion.route == Followed(e.spec, go.route)
            && f.permission.motion.sLimit == go.sLimit && f.permission.motion.grantId == go.id
            && f.permission.motion.heartbeatDeadline == m'.wallNow + go.ttl
  {
    StandingIsCertified(e, brake, at, zero, m, m');
    hide Observe, ZeroPublished, Asks, Still, Newer;
    var c := Poll(Observe(Observe(ZeroPublished(OnGrant(e, brake, at), zero, 0, 0), m), m'), m');
    GoStarts(c, go, m', zero);
  }

  lemma GoStarts(c: Exec, go: Grant, m: Measurement, zero: real)
    requires c.permission == AwaitGo(zero, true, None) && c.Active() && c.CausalStopped(m, zero)
    requires !c.fault && !c.sense.clockInvalid && Accepts(c, go) && go.state.Go?
    ensures var f := Poll(OnGrant(c, go, m), m);
            && f.Active() && f.generation == c.generation && f.ackId == go.id && f.permission.Executing?
            && f.permission.motion == StartMotion(c, DeferredGo(go, m.wallNow + go.ttl), m)
  {
    hide Exec.CausalStopped, ValidGo;
    assert go.ttl > 0.0;
    var d := OnGrant(c, go, m);
    SameStop(c, d, m, zero);
    SameStop(c, Certify(d, m), m, zero);
  }
}
