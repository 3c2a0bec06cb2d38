/** The motion lease (reset_executor.h: onGrant, poll, step): no command without a Go that was
    accepted in this session and generation, and only until its time to live has passed. */
module ExecutorLease {
  import opened ResetProtocol
  import opened ExecutorModel
  import opened ExecutorRuns
  import ExecutorStop

  /** The last Go that was accepted, with the wall clock of its acceptance. */
  datatype Permit = Permit(generation: nat, session: nat, id: nat, accepted: real, ttl: real)

  /** What an observer knows: the last permit and the generation that was last certified. */
  datatype Lease = Lease(permit: Option<Permit>, certified: Option<nat>)

  function Updated(l: Lease, e: Exec, op: Op): Lease {
    match op
    case GrantOp(g, m) =>
      if Accepts(e, g) && g.state.Go?
      then l.(permit := Some(Permit(g.generation, g.session, g.id, m.wallNow, g.ttl))) else l
    case PollOp(m) => Noted(l, e, m)
    case StepOp(m, _) => Noted(l, e, m)
    case _ => l
  }

  function Noted(l: Lease, e: Exec, m: Measurement): Lease {
    if ExecutorStop.Certifies(e, m) then l.(certified := Some(e.generation)) else l
  }

  ghost function LeaseOf(e: Exec, ops: seq<Op>): Lease {
    if ops == [] then Lease(None, None)
    else
      var before, op := ops[..|ops| - 1], ops[|ops| - 1];
      Updated(LeaseOf(e, before), After(e, before), op)
  }

  /** The permit that covers decision `id` until `deadline` in the current generation. */
  predicate Covers(l: Lease, e: Exec, id: nat, deadline: real) {
    && l.certified == Some(e.generation) && l.permit.Some?
    && l.permit.value.generation == e.generation && l.permit.value.session == e.header.session
    && l.permit.value.id == id && deadline == l.permit.value.accepted + l.permit.value.ttl
  }

  ghost predicate LeaseInv(e: Exec, l: Lease) {
    match e.permission
    case AwaitGo(_, certified, deferred) =>
      && (certified ==> l.certified == Some(e.generation))
      && (deferred.Some? ==> Covers(l, e, deferred.value.grant.id, deferred.value.deadline))
    case Executing(motion) => Covers(l, e, motion.grantId, motion.heartbeatDeadline)
    case _ => true
  }

  /** The permission is no further than before, and on the same terms. */
  ghost predicate SameTerms(e: Exec, f: Exec) {
    || (!f.permission.AwaitGo? && !f.permission.Executing?)
    || (&& f.generation == e.generation && f.header.session == e.header.session
        && (f.permission.AwaitGo? ==>
              e.permission.AwaitGo? && (f.permission.certified ==> e.permission.certified)
              && f.permission.deferred == e.permission.deferred)
        && (f.permission.Executing? ==>
              && e.permission.Executing?
              && f.permission.motion.grantId == e.permission.motion.grantId
              && f.permission.motion.heartbeatDeadline == e.permission.motion.heartbeatDeadline
              && f.permission.motion.sLimit == e.permission.motion.sLimit))
  }

  lemma SettledTerms(e: Exec, m: Measurement)
    requires e.permission.Executing? && e.Active()
    ensures SameTerms(e, Settled(e, m).0)
  {
    hide AtTarget, WholeRoute, AsksAgain, Exec.Slow, Exec.MovingNow;
  }

  lemma CheckedTerms(e: Exec, dt: real, m: Measurement)
    requires e.permission.Executing? && e.Active()
    ensures SameTerms(e, Checked(e, dt, m).0)
  {
    hide AtTarget, StallReset, InTube, Settled, Dist2, WrapAngle;
    SettledTerms(e.(permission := Executing(Guarded(e, e.permission.motion, dt, m))), m);
  }

  lemma StepRestTerms(e: Exec, m: Measurement, tr: TrackerReading)
    ensures SameTerms(e, StepRest(e, m, tr).0)
  {
    hide Checked, Exec.MovingNow, StepDt, Due, Recorded, Judge;
    if e.Active() {
      match Judge(e, m)
      case Drives =>
        JudgedToDrive(e, m);
        var motion := e.permission.motion;
        CheckedTerms(e.(permission := Executing(Stepped(motion, m, tr))), StepDt(e, motion, m), m);
      case _ =>
    }
  }

  lemma JudgedToDrive(e: Exec, m: Measurement)
    requires e.Active() && Judge(e, m).Drives?
    ensures e.permission.Executing?
  {
  }

  lemma PollKeepsLease(e: Exec, l: Lease, m: Measurement)
    requires LocalInv(e) && LeaseInv(e, l)
    ensures LeaseInv(Poll(e, m), Noted(l, e, m))
  {
    hide Exec.CausalStopped;
  }

  lemma OtherTerms(e: Exec, op: Op)
    requires LocalInv(e) && !op.GrantOp? && !op.PollOp? && !op.StepOp?
    ensures SameTerms(e, Apply(e, op))
  {
    hide Dist2, WrapAngle;
  }

  lemma GrantKeepsLease(e: Exec, l: Lease, g: Grant, m: Measurement)
    requires LocalInv(e) && LeaseInv(e, l)
    ensures LeaseInv(OnGrant(e, g, m), Updated(l, e, GrantOp(g, m)))
  {
    hide SameRoute, SameDecision, ValidGo, Dist2, WrapAngle;
  }

  lemma OpKeepsLease(e: Exec, l: Lease, op: Op)
    requires LocalInv(e) && LeaseInv(e, l)
    ensures LeaseInv(Apply(e, op), Updated(l, e, op))
  {
    hide Poll, StepRest, OnGrant, ExecutorStop.Certifies;
    match op
    case GrantOp(g, m) => GrantKeepsLease(e, l, g, m);
    case PollOp(m) => PollKeepsLease(e, l, m);
    case StepOp(m, tr) => PollKeepsLease(e, l, m); StepRestTerms(Poll(e, m), m, tr);
    case _ => OtherTerms(e, op);
  }

  lemma {:induction false} RunKeepsLease(cfg: ExecutorConfig, spec: VehicleSpec, ops: seq<Op>)
    requires AllAllowed(Fresh(cfg, spec), ops)
    ensures LeaseInv(After(Fresh(cfg, spec), ops), LeaseOf(Fresh(cfg, spec), ops))
  {
    var e := Fresh(cfg, spec);
    if ops != [] {
      var before := ops[..|ops| - 1];
      RunKeepsLease(cfg, spec, before);
      RunForward(e, before, 0);
      OpKeepsLease(After(e, before), LeaseOf(e, before), ops[|ops| - 1]);
    }
  }

  /** A control step that commands motion judged the run driveable just before. */
  lemma MovesOnlyWhenDriving(e: Exec, m: Measurement, tr: TrackerReading)
    requires !StepRest(e, m, tr).1.command.Zero()
    ensures e.Active() && Judge(e, m).Drives?
    ensures var f := StepRest(e, m, tr).0; f.Active() && f.permission.Executing?
  {
    hide StallReset, InTube, AtTarget, WholeRoute, Exec.MovingNow, Guarded, Due, Dist2, WrapAngle;
    hide Exec.Slow, Exec.StoppedNow, StepDt;
  }

  /** In any run: a step that returns a nonzero command at wall time w has behind it a Go that was
      accepted in this session and generation not longer than its time to live ago, after a stop
      certified in the same generation; the run is active and healthy, both clocks are inside the
      session's deadline. */
  lemma MotionIsLeased(cfg: ExecutorConfig, spec: VehicleSpec, ops: seq<Op>, m: Measurement,
                       tr: TrackerReading)
    requires AllAllowed(Fresh(cfg, spec), ops)
    requires !Step(After(Fresh(cfg, spec), ops), m, tr).1.command.Zero()
    ensures var e := After(Fresh(cfg, spec), ops);
            var l := LeaseOf(Fresh(cfg, spec), ops + [StepOp(m, tr)]);
            var f := Step(e, m, tr).0;
            && f.Active() && f.permission.Executing? && m.healthy && !f.fault
            && l.certified == Some(f.generation) && l.permit.Some?
            && l.permit.value.generation == f.generation
            && l.permit.value.session == f.header.session
            && l.permit.value.id == f.permission.motion.grantId
            && m.wallNow <= l.permit.value.accepted + l.permit.value.ttl
            && (f.cfg.timeout > 0.0 ==> m.rosNow - f.run.value.enterRos < f.cfg.timeout
                                        && m.wallNow - f.run.value.enterWall < f.cfg.timeout)
  {
    var e0 := Fresh(cfg, spec);
    var e := After(e0, ops);
    var p := Poll(e, m);
    var l := LeaseOf(e0, ops);
    RunForward(e0, ops, 0);
    RunKeepsLease(cfg, spec, ops);
    PollKeepsLease(e, l, m);
    PollForward(e, m);
    PollFrame(e, m);
    assert (ops + [StepOp(m, tr)])[..|ops|] == ops;
    MovesOnlyWhenDriving(p, m, tr);
    StepRestFrame(p, m, tr);
    StepRestTerms(p, m, tr);
    StepForward(p, m, tr);
    hide Poll, StepRest, Certify;
  }
}
