/** The executor takes part in the link: each of its operations is a step of the vehicle's side. */
module LinkVehicle {
  import opened ResetProtocol
  import opened ExecutorModel
  import opened ExecutorRuns
  import L = Link

  const NO_SPEC := VehicleSpec(Unicycle, Footprint(0.0, 0.0, 0.0, 0.0), 0.0, 0.0, 0.0, 0.0, 0.0, 0.0)

  function StageOf(p: Permission): L.Stage {
    match p
    case NoPermission => L.NotAsked
    case AwaitBrake => L.WantsBrake
    case AwaitZero => L.Stopping
    case AwaitStopped(_) => L.Stopping
    case AwaitGo(_, certified, deferred) =>
      L.Ready(certified, match deferred
                         case None => None
                         case Some(d) => Some(L.Offer(d.grant.id, d.grant.route, d.grant.sLimit)))
    case Executing(m) => L.Running(m.grantId, m.route, m.sLimit)
    case Complete => L.Stage.Finished
  }

  /** An exhausted counter counts as one generation more: nothing of the old one is valid. */
  function CoreOf(e: Exec): L.Core {
    if Exhausted(e)
    then L.Core(0, UINT32_MAX + 1, 0, 0, L.WantsBrake, NO_SPEC, e.decisions.lastId)
    else L.Core(e.header.session, e.generation, e.brakeId, e.ackId, StageOf(e.permission), e.spec,
                e.decisions.lastId)
  }

  function WordOf(g: Grant): L.Word { L.Word(g.state, g.generation, g.id, g.route, g.sLimit) }

  /** The same authority, or a new generation. */
  ghost predicate KeptOrBumped(e: Exec, f: Exec) {
    CoreOf(f).lastId == CoreOf(e).lastId
    && (CoreOf(f) == CoreOf(e) || L.Bumps(CoreOf(e), CoreOf(f)))
  }

  lemma WithdrawalBumps(e: Exec, terminal: bool)
    requires LocalInv(e)
    ensures KeptOrBumped(e, RequestAuthority(e, terminal))
    ensures Exhausted(e) || L.Bumps(CoreOf(e), CoreOf(RequestAuthority(e, terminal)))
  {
  }

  lemma EndBumps(e: Exec, outcome: Outcome, reason: Reason, detail: string, m: Measurement)
    requires LocalInv(e)
    ensures KeptOrBumped(e, End(e, outcome, reason, detail, m))
  {
    hide Dist2, WrapAngle, Abs, RequestAuthority;
    if e.Active() {
      WithdrawalBumps(Recorded(e, outcome, reason, detail, m), true);
    }
  }

  lemma SettledBumps(e: Exec, m: Measurement)
    requires LocalInv(e) && e.permission.Executing? && e.Active()
    ensures KeptOrBumped(e, Settled(e, m).0)
  {
    hide AtTarget, WholeRoute, AsksAgain, Exec.Slow, Exec.MovingNow, RequestAuthority;
    WithdrawalBumps(e, false);
    WithdrawalBumps(ZeroMotion(e), false);
  }

  lemma CheckedBumps(e: Exec, dt: real, m: Measurement)
    requires LocalInv(e) && e.permission.Executing? && e.Active()
    ensures KeptOrBumped(e, Checked(e, dt, m).0)
  {
    hide AtTarget, StallReset, InTube, Settled, End, Exec.Slow;
    EndBumps(e, AbortedDeviation, NoReason, "left the route tube", m);
    EndBumps(e, AbortedStalled, NoReason, "allowed to move but did not for 10 s", m);
    var e1 := e.(permission := Executing(Guarded(e, e.permission.motion, dt, m)));
    EndBumps(e1, Arrived, NoReason, "", m);
    SettledBumps(e1, m);
  }

  lemma StepRestBumps(e: Exec, m: Measurement, tr: TrackerReading)
    requires LocalInv(e)
    ensures KeptOrBumped(e, StepRest(e, m, tr).0)
  {
    hide Checked, Exec.MovingNow, StepDt, Due, End, RequestAuthority;
    if e.Active() {
      match Judge(e, m)
      case Ends(outcome, reason, detail) => EndBumps(e, outcome, reason, detail, m);
      case HoldsRevoked => WithdrawalBumps(e, false);
      case Drives =>
        var motion := e.permission.motion;
        CheckedBumps(e.(permission := Executing(Stepped(motion, m, tr))), StepDt(e, motion, m), m);
      case _ =>
    }
  }

  lemma InstallBumps(e: Exec, run: Run, header: Header, m: Measurement)
    requires LocalInv(e) && Allowed(e, InstallOp(run, header, m))
    ensures KeptOrBumped(e, Install(e, run, header, m))
  {
    hide End, RequestAuthority;
    var e1 := End(e, Stopped, NoReason, "replaced by a new Reset", m);
    EndBumps(e, Stopped, NoReason, "replaced by a new Reset", m);
    EndForward(e, Stopped, NoReason, "replaced by a new Reset", m);
    FinishBumps(e1);
    FinishForward(e1);
    InstalledBumps(Finish(e1), run, header);
  }

  lemma InstalledBumps(e: Exec, run: Run, header: Header)
    requires LocalInv(e)
    ensures var e1 := e.(run := Some(run), header := header, permission := NoPermission);
            KeptOrBumped(e, RequestAuthority(e1, false))
            && (Exhausted(e) || L.Bumps(CoreOf(e), CoreOf(RequestAuthority(e1, false))))
  {
  }

  lemma FinishBumps(e: Exec)
    requires LocalInv(e)
    ensures KeptOrBumped(e, Finish(e))
  {
    hide RequestAuthority;
    WithdrawalBumps(e, true);
  }

  /** Operations that carry no decision. */
  ghost predicate Plain(e: Exec, op: Op) {
    !op.GrantOp? && !op.PollOp? && !op.StepOp?
  }

  lemma SpecSteps(e: Exec, spec: VehicleSpec)
    requires LocalInv(e)
    ensures var f := SetSpec(e, spec);
            KeptOrBumped(e, f) || L.Respecs(CoreOf(e), CoreOf(f))
  {
    hide RequestAuthority;
    var e1 := e.(spec := spec);
    if e.spec != spec && !e.permission.NoPermission? && !e.permission.Complete? {
      SpecBumps(e, spec);
    }
  }

  lemma SpecBumps(e: Exec, spec: VehicleSpec)
    requires LocalInv(e)
    ensures KeptOrBumped(e, RequestAuthority(e.(spec := spec), !e.Active()))
  {
  }

  lemma PlainSteps(e: Exec, op: Op, words: set<L.Word>, next: nat)
    requires LocalInv(e) && Allowed(e, op) && Plain(e, op) && CoreOf(e).lastId < next
    ensures L.VehicleStep(CoreOf(e), CoreOf(Apply(e, op)), words, next)
  {
    hide End, RequestAuthority;
    var c, d := CoreOf(e), CoreOf(Apply(e, op));
    match op
    case ObserveOp(m) => assert L.Quiet(c, d, words);
    case ZeroOp(_, _, _) => assert L.Quiet(c, d, words);
    case InstallOp(run, header, m) => InstallBumps(e, run, header, m);
    case AbortOp(outcome, detail, m) => EndBumps(e, outcome, NoReason, detail, m);
    case FinishOp => FinishBumps(e);
    case SpecOp(spec) => SpecSteps(e, spec);
    case TimeoutOp(_) => assert L.Quiet(c, d, words);
    case PublishOp(m) => assert L.Quiet(c, d, words) || L.Bumps(c, d);
    case CommitOp => assert L.Quiet(c, d, words);
  }

  lemma PollSteps(e: Exec, m: Measurement, words: set<L.Word>)
    requires LocalInv(e)
    ensures L.Quiet(CoreOf(e), CoreOf(Poll(e, m)), words)
    ensures CoreOf(Poll(e, m)).lastId == CoreOf(e).lastId
  {
    hide Exec.CausalStopped;
  }

  lemma BrakeSteps(e: Exec, g: Grant, m: Measurement, words: set<L.Word>)
    requires LocalInv(e) && Accepts(e, g) && g.state.Brake? && WordOf(g) in words
    ensures var c, d := CoreOf(e), CoreOf(OnGrant(e, g, m));
            d.lastId == g.id && (L.Bumps(c, d) || L.TakesBrake(c, d, words) || L.Quiet(c, d, words))
  {
    hide SameDecision, SameRoute, ValidGo;
    assert WordOf(g).id == g.id;
  }

  lemma GoSteps(e: Exec, g: Grant, m: Measurement, words: set<L.Word>)
    requires LocalInv(e) && Accepts(e, g) && g.state.Go? && WordOf(g) in words
    ensures var c, d := CoreOf(e), CoreOf(OnGrant(e, g, m));
            d.lastId == g.id && (L.Renews(c, d, words) || L.TakesOffer(c, d, words))
  {
    hide SameDecision, SameRoute, ValidGo;
    assert WordOf(g).id == g.id && WordOf(g).limit == g.sLimit;
  }

  lemma HoldSteps(e: Exec, g: Grant, m: Measurement, words: set<L.Word>)
    requires LocalInv(e) && Accepts(e, g) && g.state == GrantState.Hold && WordOf(g) in words
    ensures var c, d := CoreOf(e), CoreOf(OnGrant(e, g, m));
            d.lastId == g.id && (L.TakesHold(c, d, words) || L.Quiet(c, d, words))
  {
    hide SameDecision, SameRoute, ValidGo;
    assert WordOf(g).id == g.id && WordOf(g).state == GrantState.Hold;
  }

  lemma RejectSteps(e: Exec, g: Grant, m: Measurement, words: set<L.Word>)
    requires LocalInv(e) && Accepts(e, g) && g.state.Reject? && WordOf(g) in words
    ensures var c, d := CoreOf(e), CoreOf(OnGrant(e, g, m));
            d.lastId == g.id && (L.Bumps(c, d) || L.Quiet(c, d, words))
  {
    hide SameDecision, SameRoute, ValidGo, End, RejectOutcome;
    var e1 := Remembered(e, g, m);
    assert WordOf(g).id == g.id;
    RememberedIsLocal(e, g, m);
    EndBumps(e1, RejectOutcome(g.reason), g.reason, g.detail, m);
  }

  lemma RememberedIsLocal(e: Exec, g: Grant, m: Measurement)
    requires LocalInv(e) && Accepts(e, g)
    ensures LocalInv(Remembered(e, g, m))
    ensures CoreOf(Remembered(e, g, m)) == CoreOf(e).(lastId := g.id) && CoreOf(e).lastId <= g.id
  {
    hide SameDecision, SameRoute, ValidGo;
  }

  /** A decision that is accepted is a step on a word that was said. */
  lemma GrantSteps(e: Exec, g: Grant, m: Measurement, words: set<L.Word>, next: nat)
    requires LocalInv(e) && CoreOf(e).lastId < next
    requires WordOf(g) in words && forall w :: w in words ==> w.id < next
    ensures L.VehicleStep(CoreOf(e), CoreOf(OnGrant(e, g, m)), words, next)
  {
    hide Accepts, CoreOf, L.Quiet, L.Bumps, L.TakesBrake, L.Renews, L.TakesOffer, L.TakesHold;
    if Accepts(e, g) {
      match g.state
      case Brake => BrakeSteps(e, g, m, words);
      case Go => GoSteps(e, g, m, words);
      case Hold => HoldSteps(e, g, m, words);
      case Reject => RejectSteps(e, g, m, words);
    } else {
      NothingIsQuiet(CoreOf(e), words);
      assert OnGrant(e, g, m) == e;
    }
  }

  lemma NothingIsQuiet(c: L.Core, words: set<L.Word>)
    ensures L.Quiet(c, c, words)
  {
  }

  /** The Session a vehicle publishes is the note of its core. */
  lemma SessionIsNote(e: Exec, m: Measurement)
    requires LocalInv(e) && SessionDue(e, m)
    ensures var s := MakeSession(e, m);
            L.NoteOf(CoreOf(e)) == L.Note(s.generation, s.session, s.ack, s.certified, s.spec)
  {
  }
}
