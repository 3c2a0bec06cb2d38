/** Why the vehicle moves (unicycle_ugv_controller.cpp: turn, cmdVel): over any run, a published
    velocity that is not zero belongs either to a Reset that is executing its permission, or to the
    tracking mode while no permission is asked for or held. And what becomes of the mode when the
    vehicle is no longer healthy. */
module ControllerMotion {
  import opened ResetProtocol
  import opened ExecutorModel
  import opened ExecutorRuns
  import opened ControllerModel
  import Velocity
  import Keeps = ControllerRuns
  import opened ExecutorArrival

  // ---------------------------------------------------------------- only an active run executes

  predicate RunsOnly(e: Exec) { e.permission.Executing? ==> e.Active() }

  lemma DriveRuns(e: Exec, m: Measurement, tr: TrackerReading)
    requires e.Active() && e.permission.Executing?
    ensures RunsOnly(Drive(e, m, tr).0)
  {
    hide Checked, Exec.MovingNow, StepDt, Due, Verdicts;
    var on := e.(permission := Executing(Stepped(e.permission.motion, m, tr)));
    CheckedVerdict(on, StepDt(e, e.permission.motion, m), m);
  }

  lemma StepRuns(e: Exec, m: Measurement, tr: TrackerReading)
    requires LocalInv(e) && RunsOnly(e)
    ensures RunsOnly(StepRest(e, m, tr).0)
  {
    hide Drive, Judge, Dist2, WrapAngle;
    if e.Active() && Judge(e, m).Drives? {
      DrivesExecuting(e, m);
      DriveRuns(e, m, tr);
    }
  }

  lemma PollRuns(e: Exec, m: Measurement)
    requires LocalInv(e) && RunsOnly(e)
    ensures RunsOnly(Poll(e, m))
  {
    hide Exec.CausalStopped;
  }

  lemma OpRuns(e: Exec, op: Op)
    requires LocalInv(e) && RunsOnly(e)
    ensures RunsOnly(Apply(e, op))
  {
    hide Poll, StepRest, Accepts, Dist2, WrapAngle, SessionDue;
    match op
    case StepOp(m, tr) => PollRuns(e, m); PollForward(e, m); StepRuns(Poll(e, m), m, tr);
    case PollOp(m) => PollRuns(e, m);
    case _ =>
  }

  lemma {:induction false} CallsRun(cfg: ExecutorConfig, spec: VehicleSpec, calls: seq<Op>)
    requires AllAllowed(Fresh(cfg, spec), calls)
    ensures RunsOnly(ExecutorRuns.After(Fresh(cfg, spec), calls))
  {
    hide Apply, Allowed, LocalInv;
    var e := Fresh(cfg, spec);
    FreshIsLocal(cfg, spec);
    if calls != [] {
      var before := calls[..|calls| - 1];
      CallsRun(cfg, spec, before);
      RunForward(e, before, 0);
      OpRuns(ExecutorRuns.After(e, before), calls[|calls| - 1]);
    }
  }

  // ---------------------------------------------------------------- commands outside motion

  predicate MayCommand(m: Mode) { m.Resetting? || m.Custom1? }

  /** Only Reset and the tracking mode hold a command. */
  predicate HoldsStill(c: Control) { !MayCommand(c.mode) ==> c.command.Zero() }

  lemma TransitionHolds(c: Control, i: Inputs, change: Change)
    requires HoldsStill(c)
    ensures HoldsStill(Transition(c, i, change).0)
  {
    hide Apply;
  }

  lemma StagesHold(c: Control, i: Inputs, input: Option<OperatorCommand>, health: Option<bool>, finished: bool)
    requires HoldsStill(c)
    ensures HoldsStill(OperatorStage(c, i, input, health).0) && HoldsStill(LaterStages(c, i, health, finished))
  {
    hide Transition, OnOperator, OnHealth;
    if input.Some? { TransitionHolds(c, i, OnOperator(c, i, input.value, health).0); }
    TransitionHolds(c, i, Enter(Ready));
    if health.Some? {
      TransitionHolds(c, i, OnHealth(c, health.value));
      TransitionHolds(Transition(c, i, OnHealth(c, health.value)).0, i, Enter(Ready));
    }
  }

  lemma TurnHolds(c: Control, i: Inputs)
    requires HoldsStill(c)
    ensures HoldsStill(Turn(c, i).0)
  {
    var c0 := Observed(c.(outputs := []), i.sight);
    var health := if i.sight.healthy != c0.lastHealth then Some(i.sight.healthy) else None;
    var (c1, finished) := Tick(c0.(lastHealth := i.sight.healthy), i);
    assert HoldsStill(c1) by { TickHolds(c0.(lastHealth := i.sight.healthy), i); }
    hide Observed, Tick, OperatorStage, LaterStages, HoldsStill;
    StagesHold(c1, i, InputOf(c0, i), health, finished);
    StagesHold(OperatorStage(c1, i, InputOf(c0, i), health).0, i, None, health, finished);
  }

  lemma TickHolds(c: Control, i: Inputs)
    requires HoldsStill(c)
    ensures HoldsStill(Tick(c, i).0)
  {
    hide Apply, Step, Measured;
  }

  lemma {:induction false} RunHolds(cfg: ExecutorConfig, spec: VehicleSpec, start: nat, evs: seq<Event>)
    ensures HoldsStill(Reached(Started(cfg, spec, start), evs))
  {
    hide Turn, Apply, Measured, SessionDue;
    if evs != [] {
      var c := Reached(Started(cfg, spec, start), evs[..|evs| - 1]);
      RunHolds(cfg, spec, start, evs[..|evs| - 1]);
      match evs[|evs| - 1]
      case TurnEvent(i) => TurnHolds(c, i);
      case _ =>
    }
  }

  // ---------------------------------------------------------------- why it moves

  /** In any run, at any moment: if the velocity that would be published is not zero, there is no
      protocol fault and the clock has not gone back, and either a Reset is active and executes its
      permission, or the controller tracks, no run is installed, and no permission is asked for, held
      or waited for. */
  lemma MotionHasACause(cfg: ExecutorConfig, spec: VehicleSpec, start: nat, evs: seq<Event>)
    ensures var c := Reached(Started(cfg, spec, start), evs);
            !CmdVel(c).Zero() ==>
              && !c.exec.fault && !c.exec.sense.clockInvalid
              && match c.mode
                 case Resetting =>
                   c.exec.run.Some? && (c.exec.permission.Executing? ==> c.exec.Active())
                 case Custom1 =>
                   c.exec.run.None? && (c.exec.permission.NoPermission? || c.exec.permission.Complete?)
                 case _ => false
  {
    var c := Reached(Started(cfg, spec, start), evs);
    Keeps.ReachedKeeps(cfg, spec, start, evs);
    RunHolds(cfg, spec, start, evs);
    OwnedRuns(cfg, spec, start, c);
    hide Reached, Keeps.Inv, LocalInv;
  }

  lemma OwnedRuns(cfg: ExecutorConfig, spec: VehicleSpec, start: nat, c: Control)
    requires Keeps.Inv(cfg, spec, start, c)
    ensures RunsOnly(c.exec) && (c.mode.Resetting? <==> c.exec.run.Some?)
  {
    CallsRun(cfg, spec, c.calls);
    hide Keeps.Numbered, Keeps.Quiet, RunsOnly, AllAllowed, ExecutorRuns.After;
  }

  // ---------------------------------------------------------------- loss of health

  /** A turn in which the vehicle is found not healthy ends in the self-check, unless an operator's
      command is applied in that very turn. */
  lemma UnhealthyTurn(c: Control, i: Inputs)
    requires (c.mode.SelfCheck? || c.lastHealth) && !i.sight.healthy
    ensures Turn(c, i).0.mode.SelfCheck? <==> Turn(c, i).1 != Applied
  {
    hide Apply, Observed, Tick, OperatorStage, LaterStages, InputOf;
    var c0 := Observed(c.(outputs := []), i.sight);
    ObservedSame(c.(outputs := []), i.sight);
    var (c1, finished) := Tick(c0.(lastHealth := false), i);
    TickSame(c0.(lastHealth := false), i);
    StageOfUnhealthy(c1, i, InputOf(c0, i), if c0.lastHealth then Some(false) else None, finished);
  }

  lemma ObservedSame(c: Control, s: Sight)
    ensures Observed(c, s).mode == c.mode && Observed(c, s).lastHealth == c.lastHealth
  {
    hide Apply, Measured;
  }

  lemma TickSame(c: Control, i: Inputs)
    ensures var (d, finished) := Tick(c, i);
            d.mode == c.mode && d.lastHealth == c.lastHealth && (finished ==> c.mode.Resetting?)
  {
    hide Apply, Measured, Step;
  }

  lemma StageOfUnhealthy(c: Control, i: Inputs, input: Option<OperatorCommand>, health: Option<bool>, finished: bool)
    requires (c.mode.SelfCheck? && (health.Some? ==> !health.value)) || health == Some(false)
    ensures var (d, changed, reply) := OperatorStage(c, i, input, health);
            var e := if changed then d else LaterStages(d, i, health, finished);
            (c.mode.SelfCheck? ==> !finished) ==> (e.mode.SelfCheck? <==> reply != Applied)
  {
    hide Apply, Prepare, Measured, Leave;
  }

  /** Nothing was ever asked of the executor. */
  predicate Untouched(c: Control) { c.exec.permission.NoPermission? && c.exec.run.None? }

  lemma ObservedUntouched(c: Control, s: Sight)
    requires Untouched(c)
    ensures Untouched(Observed(c, s))
  {
    hide Velocity.Added;
  }

  lemma TickUntouched(c: Control, i: Inputs)
    requires Untouched(c) && !c.mode.Resetting?
    ensures Untouched(Tick(c, i).0) && !Tick(c, i).1 && Tick(c, i).0.mode == c.mode
  {
  }

  lemma QuietTurn(c: Control, i: Inputs)
    requires Untouched(c) && !c.mode.Resetting? && i.command != Some(AskReset)
    ensures var d := Turn(c, i).0;
            && Untouched(d) && d.lastHealth == i.sight.healthy
            && (c.mode.SelfCheck? && !c.lastHealth && i.sight.healthy && i.command.None? ==> d.mode.Ready?)
            && (c.mode.Ready? && i.command == Some(AskCustom1) ==> d.mode.Custom1?)
            && (c.mode.Custom1? && c.lastHealth == i.sight.healthy && i.command.None? ==> d.mode.Custom1?)
  {
    var c0 := Observed(c.(outputs := []), i.sight);
    ObservedUntouched(c.(outputs := []), i.sight);
    ObservedSame(c.(outputs := []), i.sight);
    TickUntouched(c0.(lastHealth := i.sight.healthy), i);
    TickSame(c0.(lastHealth := i.sight.healthy), i);
    hide Observed, Tick, Prepare, Apply;
  }

  /** It happens: the command to track, in the turn in which health is lost, is applied; and without
      another command the controller keeps tracking for as long as the vehicle is not healthy. */
  lemma UnhealthyTrackingHappens(cfg: ExecutorConfig, spec: VehicleSpec, a: Inputs, b: Inputs, later: seq<Event>)
    requires a.sight.healthy && a.command.None? && !b.sight.healthy && b.command == Some(AskCustom1)
    requires forall k :: 0 <= k < |later| ==>
               later[k].TurnEvent? && later[k].i.command.None? && !later[k].i.sight.healthy
    ensures Reached(Started(cfg, spec, 0), [TurnEvent(a), TurnEvent(b)] + later).mode.Custom1?
  {
    var c := TracksOn(cfg, spec, a, b, later);
  }

  lemma {:induction false} TracksOn(cfg: ExecutorConfig, spec: VehicleSpec, a: Inputs, b: Inputs, later: seq<Event>)
    returns (c: Control)
    requires a.sight.healthy && a.command.None? && !b.sight.healthy && b.command == Some(AskCustom1)
    requires forall k :: 0 <= k < |later| ==>
               later[k].TurnEvent? && later[k].i.command.None? && !later[k].i.sight.healthy
    ensures c == Reached(Started(cfg, spec, 0), [TurnEvent(a), TurnEvent(b)] + later)
    ensures c.mode.Custom1? && Untouched(c) && !c.lastHealth
    decreases |later|
  {
    hide Turn;
    var c0, start := Started(cfg, spec, 0), [TurnEvent(a), TurnEvent(b)];
    if later == [] {
      assert start[..1] == [TurnEvent(a)] && start[..1][..0] == [] && start + later == start;
      assert Reached(c0, []) == c0;
      assert Reached(c0, [TurnEvent(a)]) == Turn(c0, a).0;
      QuietTurn(c0, a);
      QuietTurn(Turn(c0, a).0, b);
      c := Turn(Turn(c0, a).0, b).0;
    } else {
      var n := |later| - 1;
      assert (start + later)[..|start + later| - 1] == start + later[..n];
      var d := TracksOn(cfg, spec, a, b, later[..n]);
      QuietTurn(d, later[n].i);
      c := Turn(d, later[n].i).0;
    }
  }
}
