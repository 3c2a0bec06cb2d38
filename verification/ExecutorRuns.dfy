/** What the executor keeps over whole runs: any sequence of the owner's operations, in any order,
    with any grants, clocks, poses and tracker answers. */
module ExecutorRuns {
  import opened ResetProtocol
  import opened Velocity
  import opened ExecutorModel

  datatype Op =
    | ObserveOp(m: Measurement)
    | ZeroOp(rosNow: real, generation: nat, brake: nat)
    | GrantOp(g: Grant, m: Measurement)
    | PollOp(m: Measurement)
    | StepOp(m: Measurement, tr: TrackerReading)
    | InstallOp(run: Run, header: Header, m: Measurement)
    | AbortOp(outcome: Outcome, detail: string, m: Measurement)
    | FinishOp
    | SpecOp(spec: VehicleSpec)
    | TimeoutOp(seconds: real)
    | PublishOp(m: Measurement)
    | CommitOp

  /** What the owner is held to: a Run comes from `prepare`, so it is new and a result credit is
      free; an abort names its outcome; a Session is published only when it is due. */
  predicate Allowed(e: Exec, op: Op) {
    match op
    case InstallOp(run, _, _) => e.Credits() < 2 && run.phase == Requesting && !run.reported
    case AbortOp(outcome, _, _) => outcome != NoOutcome
    case PublishOp(m) => SessionDue(e, m)
    case _ => true
  }

  function Apply(e: Exec, op: Op): Exec {
    match op
    case ObserveOp(m) => Observe(e, m)
    case ZeroOp(rosNow, generation, brake) => ZeroPublished(e, rosNow, generation, brake)
    case GrantOp(g, m) => OnGrant(e, g, m)
    case PollOp(m) => Poll(e, m)
    case StepOp(m, tr) => Step(e, m, tr).0
    case InstallOp(run, header, m) => Install(e, run, header, m)
    case AbortOp(outcome, detail, m) => Abort(e, outcome, detail, m)
    case FinishOp => Finish(e)
    case SpecOp(spec) => SetSpec(e, spec)
    case TimeoutOp(seconds) => e.(cfg := e.cfg.(timeout := seconds))
    case PublishOp(m) => MarkPublished(e, m)
    case CommitOp => CommitResult(e)
  }

  ghost predicate AllAllowed(e: Exec, ops: seq<Op>) {
    ops == [] || (AllAllowed(e, ops[..|ops| - 1])
                  && Allowed(After(e, ops[..|ops| - 1]), ops[|ops| - 1]))
  }

  ghost function After(e: Exec, ops: seq<Op>): Exec {
    if ops == [] then e else Apply(After(e, ops[..|ops| - 1]), ops[|ops| - 1])
  }

  // ---------------------------------------------------------------- generations and permissions

  function Rank(p: Permission): nat {
    match p
    case NoPermission => 0
    case AwaitBrake => 1
    case AwaitZero => 2
    case AwaitStopped(_) => 3
    case AwaitGo(_, _, _) => 4
    case Executing(_) => 5
    case Complete => 5
  }

  /** The counter is exhausted: no grant is accepted any more and the permission is withdrawn. */
  predicate Exhausted(e: Exec) {
    e.fault && e.generation == UINT32_MAX && e.permission.AwaitBrake?
  }

  ghost predicate Forward(e: Exec, f: Exec) {
    && e.generation <= f.generation
    && (e.fault ==> f.fault)
    && (Exhausted(e) ==> Exhausted(f))
    && (e.generation == f.generation && !Exhausted(f) ==>
          && Rank(e.permission) <= Rank(f.permission)
          && (e.permission.Executing? ==>
                f.permission.Executing? && e.permission.motion.route == f.permission.motion.route
                && e.permission.motion.grantId <= f.permission.motion.grantId)
          && (e.permission.Complete? ==> f.permission.Complete?)
          && e.header.session == f.header.session)
    && e.decisions.lastId <= f.decisions.lastId
  }

  ghost predicate LocalInv(e: Exec) {
    && (e.permission.NoPermission? <==> e.generation == 0)
    && e.generation <= UINT32_MAX && (e.generation == 0 ==> e.run.None?)
    && (e.run.Some? ==> e.run.value.phase != Idle)
    && (e.permission.AwaitBrake? ==> e.brakeId == 0 && e.ackId == 0)
    && (Rank(e.permission) >= 2 ==> 0 < e.brakeId <= e.decisions.lastId)
    && (2 <= Rank(e.permission) <= 4 ==> e.ackId == e.brakeId)
    && (e.permission.AwaitGo? && e.permission.deferred.Some? ==>
          var g := e.permission.deferred.value.grant;
          && g.generation == e.generation && g.session == e.header.session && g.state.Go?
          && e.brakeId < g.id <= e.decisions.lastId)
    && (e.permission.Executing? ==>
          e.ackId == e.permission.motion.grantId
          && e.brakeId < e.permission.motion.grantId <= e.decisions.lastId)
  }

  lemma RequestForward(e: Exec, terminal: bool)
    requires LocalInv(e) && e.generation > 0
    ensures var f := RequestAuthority(e, terminal); LocalInv(f) && Forward(e, f)
  {
  }

  lemma EndForward(e: Exec, outcome: Outcome, reason: Reason, detail: string, m: Measurement)
    requires LocalInv(e)
    ensures var f := End(e, outcome, reason, detail, m); LocalInv(f) && Forward(e, f)
  {
    if e.Active() {
      RequestForward(Recorded(e, outcome, reason, detail, m), true);
    }
  }

  lemma InstallForward(e: Exec, run: Run, header: Header, m: Measurement)
    requires LocalInv(e) && Allowed(e, InstallOp(run, header, m))
    ensures var f := Install(e, run, header, m); LocalInv(f) && Forward(e, f)
  {
    EndForward(e, Stopped, NoReason, "replaced by a new Reset", m);
    var e1 := End(e, Stopped, NoReason, "replaced by a new Reset", m);
    assert Forward(e1, Finish(e1));
  }

  lemma GrantForward(e: Exec, g: Grant, m: Measurement)
    requires LocalInv(e)
    ensures var f := OnGrant(e, g, m); LocalInv(f) && Forward(e, f)
  {
    if Accepts(e, g) {
      var e1 := Remembered(e, g, m);
      assert LocalInv(e1) && Forward(e, e1);
      match g.state
      case Brake =>
      case Go =>
      case Hold =>
      case Reject => EndForward(e1, RejectOutcome(g.reason), g.reason, g.detail, m);
    }
  }

  lemma PollForward(e: Exec, m: Measurement)
    requires LocalInv(e)
    ensures var f := Poll(e, m); LocalInv(f) && Forward(e, f)
  {
    if !e.fault {
      var c := Certify(e, m);
      assert LocalInv(c) && Forward(e, c);
    }
  }

  lemma DriveForward(e: Exec, m: Measurement, tr: TrackerReading)
    requires LocalInv(e) && e.permission.Executing? && e.Active()
    ensures var f := Drive(e, m, tr).0; LocalInv(f) && Forward(e, f)
  {
    var motion := e.permission.motion;
    if Due(e, motion, m) {
      var e1 := e.(permission := Executing(Stepped(motion, m, tr)));
      assert LocalInv(e1) && Forward(e, e1);
      CheckedForward(e1, StepDt(e, motion, m), m);
    }
  }

  lemma CheckedForward(e: Exec, dt: real, m: Measurement)
    requires LocalInv(e) && e.permission.Executing? && e.Active()
    ensures var f := Checked(e, dt, m).0; LocalInv(f) && Forward(e, f)
  {
    hide AtTarget, StallReset, InTube, Settled, End;
    var motion := e.permission.motion;
    if !InTube(e, motion.tracker) {
      EndForward(e, AbortedDeviation, NoReason, "left the route tube", m);
    } else if !StallReset(motion, m) && !(m.rosNow - motion.stallSince < e.cfg.stall) {
      EndForward(e, AbortedStalled, NoReason, "allowed to move but did not for 10 s", m);
    } else {
      var e1 := e.(permission := Executing(Guarded(e, motion, dt, m)));
      assert LocalInv(e1) && Forward(e, e1);
      if e1.permission.motion.route.finalMove && e1.permission.motion.settle >= e.cfg.settleHold {
        EndForward(e1, Arrived, NoReason, "", m);
      } else {
        SettledForward(e1, m);
      }
    }
  }

  lemma SettledForward(e: Exec, m: Measurement)
    requires LocalInv(e) && e.permission.Executing? && e.Active()
    ensures var f := Settled(e, m).0; LocalInv(f) && Forward(e, f)
  {
    RequestForward(e, false);
    RequestForward(ZeroMotion(e), false);
  }

  lemma StepForward(e: Exec, m: Measurement, tr: TrackerReading)
    requires LocalInv(e)
    ensures var f := StepRest(e, m, tr).0; LocalInv(f) && Forward(e, f)
  {
    if e.Active() {
      match Judge(e, m)
      case Ends(outcome, reason, detail) => EndForward(e, outcome, reason, detail, m);
      case HoldsStopped =>
      case Holds =>
      case HoldsRevoked => RequestForward(e, false);
      case Drives => DriveForward(e, m, tr);
    }
  }

  lemma SpecForward(e: Exec, spec: VehicleSpec)
    requires LocalInv(e)
    ensures var f := SetSpec(e, spec); LocalInv(f) && Forward(e, f)
  {
    if e.generation > 0 { RequestForward(e.(spec := spec), !e.Active()); }
  }

  lemma FinishForward(e: Exec)
    requires LocalInv(e)
    ensures LocalInv(Finish(e)) && Forward(e, Finish(e))
  {
    if e.generation > 0 { RequestForward(e, true); }
  }

  /** One operation never takes a permission back inside a generation: the only way down is a new
      generation, or the exhausted counter, which accepts nothing any more. */
  lemma OpForward(e: Exec, op: Op)
    requires LocalInv(e) && Allowed(e, op)
    ensures LocalInv(Apply(e, op)) && Forward(e, Apply(e, op))
  {
    hide Poll, StepRest, OnGrant, Install, End, SetSpec, Finish, Added, SessionDue;
    match op
    case ObserveOp(m) =>
    case ZeroOp(_, _, _) =>
    case GrantOp(g, m) => GrantForward(e, g, m);
    case PollOp(m) => PollForward(e, m);
    case StepOp(m, tr) => PollForward(e, m); StepForward(Poll(e, m), m, tr);
    case InstallOp(run, header, m) => InstallForward(e, run, header, m);
    case AbortOp(outcome, detail, m) => EndForward(e, outcome, NoReason, detail, m);
    case FinishOp => FinishForward(e);
    case SpecOp(spec) => SpecForward(e, spec);
    case TimeoutOp(_) =>
    case PublishOp(_) =>
    case CommitOp =>
  }

  lemma ForwardTransitive(a: Exec, b: Exec, c: Exec)
    requires Forward(a, b) && Forward(b, c)
    ensures Forward(a, c)
  {
  }

  lemma FreshIsLocal(cfg: ExecutorConfig, spec: VehicleSpec)
    ensures LocalInv(Fresh(cfg, spec))
  {
  }

  /** Over any run, between any two of its moments. */
  lemma {:induction false} RunForward(e: Exec, ops: seq<Op>, i: nat)
    requires LocalInv(e) && AllAllowed(e, ops) && i <= |ops|
    ensures LocalInv(After(e, ops)) && Forward(After(e, ops[..i]), After(e, ops))
  {
    var n := |ops|;
    if i == n {
      assert ops[..i] == ops;
      if n > 0 { RunForward(e, ops[..n - 1], n - 1); OpForward(After(e, ops[..n - 1]), ops[n - 1]); }
    } else {
      assert ops[..n - 1][..i] == ops[..i];
      RunForward(e, ops[..n - 1], i);
      OpForward(After(e, ops[..n - 1]), ops[n - 1]);
      ForwardTransitive(After(e, ops[..i]), After(e, ops[..n - 1]), After(e, ops));
    }
  }

  // ---------------------------------------------------------------- what a control step changes

  /** The permission is withdrawn, or it is of the same generation, Brake and zero. */
  ghost predicate Steady(e: Exec, f: Exec) {
    || f.permission.AwaitBrake?
    || (&& f.generation == e.generation && f.brakeId == e.brakeId
        && f.permission.NoPermission? == e.permission.NoPermission?
        && (Rank(f.permission) >= 2 ==> Rank(e.permission) >= 2)
        && (ZeroSince(f.permission).Some? ==> ZeroSince(f.permission) == ZeroSince(e.permission)))
  }

  /** Observation, fences, header and publication are untouched by a control step; and either the
      run goes on with its result slots, or it has just ended with a result of its own. */
  ghost predicate StepFrame(e: Exec, f: Exec) {
    && f.cfg == e.cfg && f.spec == e.spec && f.sense == e.sense && f.header == e.header
    && f.decisions == e.decisions && f.published == e.published
    && f.nextPublication == e.nextPublication && f.run.Some? == e.run.Some? && Steady(e, f)
    && (if f.Active() then e.Active() && f.slots == e.slots
                           && f.run.value == e.run.value.(phase := f.run.value.phase)
        else if e.Active() then EndedOnce(e, f) else f.slots == e.slots)
  }

  /** The result slots after the active run of `e` has ended. */
  ghost predicate EndedOnce(e: Exec, f: Exec) {
    && f.slots.pending && f.slots.result.session == e.header.session
    && f.slots.result.outcome != NoOutcome
    && f.slots.previousPending == (e.slots.pending || e.slots.previousPending)
    && (e.slots.pending ==> f.slots.previous == e.slots.result)
    && (!e.slots.pending ==> f.slots.previous == e.slots.previous)
  }

  lemma OutputFrame(e: Exec)
    requires e.permission.Executing? && e.Active()
    ensures StepFrame(e, Output(e).0) && StepFrame(e, Output(ZeroMotion(e)).0)
  {
    hide Exec.MovingNow;
  }

  lemma WithdrawFrame(e: Exec)
    requires e.permission.Executing? && e.Active()
    ensures StepFrame(e, Held(RequestAuthority(e, false)).0)
    ensures StepFrame(e, Held(RequestAuthority(ZeroMotion(e), false)).0)
  {
  }

  lemma SettledFrame(e: Exec, m: Measurement)
    requires e.permission.Executing? && e.Active()
    ensures StepFrame(e, Settled(e, m).0)
  {
    hide AtTarget, WholeRoute, AsksAgain, Exec.Slow, Exec.MovingNow, Output, Held, RequestAuthority;
    hide StepFrame;
    OutputFrame(e);
    WithdrawFrame(e);
  }

  lemma EndFrame(e: Exec, outcome: Outcome, reason: Reason, detail: string, m: Measurement)
    requires e.Active() && outcome != NoOutcome
    ensures StepFrame(e, End(e, outcome, reason, detail, m))
    ensures StepFrame(e, Finished(End(e, outcome, reason, detail, m)).0)
  {
    hide Dist2, WrapAngle, Abs;
  }

  lemma CheckedFrame(e: Exec, dt: real, m: Measurement)
    requires e.permission.Executing? && e.Active()
    ensures StepFrame(e, Checked(e, dt, m).0)
  {
    hide AtTarget, StallReset, InTube, Settled, Guarded, End, Finished;
    EndFrame(e, AbortedDeviation, NoReason, "left the route tube", m);
    EndFrame(e, AbortedStalled, NoReason, "allowed to move but did not for 10 s", m);
    var e1 := e.(permission := Executing(Guarded(e, e.permission.motion, dt, m)));
    EndFrame(e1, Arrived, NoReason, "", m);
    SettledFrame(e1, m);
  }

  lemma StepRestFrame(e: Exec, m: Measurement, tr: TrackerReading)
    requires LocalInv(e)
    ensures StepFrame(e, StepRest(e, m, tr).0)
  {
    hide Checked, Exec.MovingNow, StepDt, Due, End;
    if e.Active() {
      match Judge(e, m)
      case Ends(outcome, reason, detail) =>
        EndFrame(e, outcome, reason, detail, m);
      case Drives =>
        var motion := e.permission.motion;
        CheckedFrame(e.(permission := Executing(Stepped(motion, m, tr))), StepDt(e, motion, m), m);
      case _ =>
    }
  }

  lemma PollFrame(e: Exec, m: Measurement)
    requires LocalInv(e)
    ensures StepFrame(e, Poll(e, m)) && Poll(e, m).generation == e.generation
    ensures Poll(e, m).Active() == e.Active()
  {
    hide Exec.CausalStopped;
  }

  lemma StepFrames(e: Exec, m: Measurement, tr: TrackerReading)
    requires LocalInv(e)
    ensures StepFrame(e, Step(e, m, tr).0)
  {
    PollFrame(e, m);
    PollForward(e, m);
    StepRestFrame(Poll(e, m), m, tr);
  }

  // ---------------------------------------------------------------- session ids

  /** The owner numbers its sessions on: a Run is installed under a later id than the one before. */
  predicate NumbersOn(e: Exec, op: Op) { op.InstallOp? ==> e.header.session < op.header.session }

  /** Only an installation names another session. */
  lemma HeaderAfter(e: Exec, op: Op)
    requires LocalInv(e)
    ensures Apply(e, op).header == if op.InstallOp? then op.header else e.header
  {
    hide Step, Poll, Accepts, Dist2, WrapAngle;
    match op
    case StepOp(m, tr) => StepFrames(e, m, tr);
    case PollOp(m) => PollFrame(e, m);
    case _ =>
  }

  // ---------------------------------------------------------------- accepted grants

  predicate Takes(e: Exec, op: Op) { op.GrantOp? && Accepts(e, op.g) }

  ghost function Accepted(e: Exec, ops: seq<Op>): seq<Grant> {
    if ops == [] then []
    else
      var before := ops[..|ops| - 1];
      var op := ops[|ops| - 1];
      Accepted(e, before) + (if Takes(After(e, before), op) then [op.g] else [])
  }

  lemma OpKeepsDecisions(e: Exec, op: Op)
    requires LocalInv(e)
    ensures !Takes(e, op) ==> Apply(e, op).decisions == e.decisions
    ensures Takes(e, op) ==>
              Apply(e, op).decisions == Decisions(op.g.id, Some(op.g), Some(op.g.publication))
  {
    hide Step, Poll, Added;
    match op
    case StepOp(m, tr) => StepFrames(e, m, tr);
    case PollOp(m) => PollFrame(e, m);
    case _ =>
  }

  /** Under any delivery order, loss and duplication, the grants a vehicle accepts are in
      publication order, their decision ids never go back, and a repeated id repeats its decision. */
  lemma {:induction false} AcceptedInOrder(cfg: ExecutorConfig, spec: VehicleSpec, ops: seq<Op>)
    requires AllAllowed(Fresh(cfg, spec), ops)
    ensures var a := Accepted(Fresh(cfg, spec), ops);
            var d := After(Fresh(cfg, spec), ops).decisions;
            && (a == [] ==> d == Decisions(0, None, None))
            && (a != [] ==> var g := a[|a| - 1]; d == Decisions(g.id, Some(g), Some(g.publication)))
            && (forall i, j :: 0 <= i < j < |a| ==>
                  a[i].publication < a[j].publication && a[i].id <= a[j].id)
            && (forall i :: 0 < i < |a| && a[i].id == a[i - 1].id ==> SameDecision(a[i - 1], a[i]))
  {
    var e := Fresh(cfg, spec);
    if ops != [] {
      var before, op := ops[..|ops| - 1], ops[|ops| - 1];
      AcceptedInOrder(cfg, spec, before);
      RunForward(e, before, 0);
      OpKeepsDecisions(After(e, before), op);
    }
  }
}
