/** The controller as the source has it: one object that owns the executor and changes its mode, its
    held command and its counter in place, proved equal to the functions of ControllerModel. */
module Controller {
  import opened ResetProtocol
  import opened ExecutorModel
  import opened ExecutorRuns
  import opened ControllerModel
  import opened Executor

  class UnicycleUgvController {
    const executor: ResetExecutor
    var mode: Mode
    var held: Wheel
    var counter: nat
    var everStarted: bool
    var lastHealth: bool
    var outputs: seq<Output>
    ghost var calls: seq<Op>

    ghost function View(): Control
      reads this, executor
    {
      Control(executor.View(), mode, held, counter, everStarted, lastHealth, outputs, calls)
    }

    constructor (cfg: ExecutorConfig, spec: VehicleSpec, counter: nat)
      ensures View() == Started(cfg, spec, counter) && fresh(executor)
    {
      executor := new ResetExecutor(cfg, spec);
      mode, held, this.counter := SelfCheck, STILL, counter;
      everStarted, lastHealth, outputs, calls := false, false, [], [];
    }

    method SetCommand(w: Wheel)
      modifies `held
      ensures View() == WithCommand(old(View()), w)
    {
      held := if RequiresZero(executor.View()) then STILL else w;
    }

    method Measure(s: Sight) returns (m: Measurement)
      ensures m == Measured(View(), s)
    {
      m := Measurement(s.rosNow, s.wallNow, s.pose, s.poseStamp, s.healthy, s.trusted, held.Zero());
    }

    method ObserveInputs(s: Sight)
      modifies `calls, executor
      ensures View() == Observed(old(View()), s)
    {
      var m := Measure(s);
      if s.received {
        executor.DoObserve(m);
        calls := calls + [ObserveOp(m)];
      }
      executor.DoPoll(m);
      calls := calls + [PollOp(m)];
    }

    method EmitResetZero(out: bool)
      modifies `held, `outputs
      ensures View() == ResetZero(old(View()), out)
    {
      held := STILL;
      if out { outputs := outputs + [PublishZero]; }
    }

    method ActCustom(does: Custom)
      modifies `held
      ensures View() == CustomDoes(old(View()), does)
    {
      match does {
        case Silent =>
        case Clears => held := STILL;
        case Commands(w) => SetCommand(w);
      }
    }

    method TickReset(i: Inputs) returns (finished: bool)
      modifies `held, `outputs, `calls, executor
      ensures (View(), finished) == ResetTick(old(View()), i)
    {
      hide Step;
      var m := Measure(i.sight);
      var step := executor.DoStep(m, i.tracker);
      calls := calls + [StepOp(m, i.tracker)];
      assert View() == Call(old(View()), StepOp(m, i.tracker));
      if step.ended {
        EmitResetZero(i.due);
        return true;
      }
      if !i.sight.healthy {
        EmitResetZero(i.due);
        return false;
      }
      SetCommand(Wheel(true, step.command.vx, step.command.wz));
      if i.due { outputs := outputs + [PublishCommand]; }
      finished := false;
    }

    method DispatchTick(i: Inputs) returns (finished: bool)
      modifies `held, `outputs, `calls, executor
      ensures (View(), finished) == Tick(old(View()), i)
    {
      hide ResetTick;
      finished := false;
      match mode {
        case Resetting => finished := TickReset(i);
        case Custom1 => ActCustom(i.custom);
        case _ => if i.idleDue { outputs := outputs + [PublishZero]; }
      }
    }

    method Exit(i: Inputs)
      modifies `held, `outputs, `calls, executor
      ensures View() == Leave(old(View()), i)
    {
      hide Abort, Finish;
      match mode {
        case Resetting =>
          if executor.View().Active() {
            var m := Measure(i.sight);
            var healthy := i.sight.healthy;
            var outcome := if healthy then Stopped else AbortedUnhealthy;
            var detail := if healthy then "stop command"
                          else "the vehicle state is lost or outside the fence";
            executor.DoAbort(outcome, detail, m);
            calls := calls + [AbortOp(outcome, detail, m)];
          }
          executor.DoFinish();
          calls := calls + [FinishOp];
          EmitResetZero(true);
        case Custom1 => EmitResetZero(i.idleDue);
        case _ =>
      }
    }

    method EnterResetMode(i: Inputs, run: Run)
      modifies `mode, `held, `counter, `everStarted, `outputs, `calls, executor
      ensures View() == InstallReset(old(View()), i, run)
    {
      hide Install;
      held := STILL;
      counter, everStarted := counter + 1, true;
      var m := Measure(i.sight);
      executor.DoInstall(run, Header(counter, i.target), m);
      calls := calls + [InstallOp(run, Header(counter, i.target), m)];
      EmitResetZero(true);
      mode := Resetting;
    }

    /** apply: nothing for Stay; otherwise exit the old alternative, enter the new one. */
    method DoApply(i: Inputs, change: Change) returns (changed: bool)
      modifies `mode, `held, `counter, `everStarted, `outputs, `calls, executor
      ensures (View(), changed) == Transition(old(View()), i, change)
    {
      hide Leave, InstallReset;
      match change {
        case Stay => return false;
        case Enter(to) =>
          Exit(i);
          held, mode := STILL, to;
        case EnterReset(run) =>
          Exit(i);
          EnterResetMode(i, run);
      }
      changed := true;
    }

    method DispatchOperator(i: Inputs, input: Option<OperatorCommand>, health: Option<bool>)
      returns (changed: bool, reply: Reply)
      modifies `mode, `held, `counter, `everStarted, `outputs, `calls, executor
      ensures (View(), changed, reply) == OperatorStage(old(View()), i, input, health)
    {
      hide Transition, OnOperator;
      if input.None? { return false, Unmatched; }
      var e := executor.View();
      if input == Some(AskCustom1) && (e.PermissionPending() || e.Active()) {
        return false, PermissionActive;
      }
      var c := Control(e, mode, held, counter, everStarted, lastHealth, outputs, []);
      OperatorIgnoresCalls(View(), c, i, input.value, health);
      var (change, answer) := OnOperator(c, i, input.value, health);
      changed := DoApply(i, change);
      reply := answer;
    }

    method DispatchLater(i: Inputs, health: Option<bool>, finished: bool)
      modifies `mode, `held, `counter, `everStarted, `outputs, `calls, executor
      ensures View() == LaterStages(old(View()), i, health, finished)
    {
      hide Transition;
      var changed := false;
      if health.Some? {
        var c := Control(executor.View(), mode, held, counter, everStarted, lastHealth, outputs, []);
        assert OnHealth(c, health.value) == OnHealth(View(), health.value);
        changed := DoApply(i, OnHealth(c, health.value));
      }
      if !changed {
        if finished {
          var _ := DoApply(i, Enter(Ready));
        } else if mode.Custom1? {
          ActCustom(i.completion);
        }
      }
    }

    /** turn: one wake of the controller, with at most one operator command. */
    method TakeTurn(i: Inputs) returns (reply: Reply)
      modifies this, executor
      ensures (View(), reply) == Turn(old(View()), i)
    {
      hide Observed, Tick, OperatorStage, LaterStages, InputOf;
      ghost var before := View();
      outputs := [];
      ObserveInputs(i.sight);
      ghost var c0 := View();
      assert c0 == Observed(before.(outputs := []), i.sight);
      var input := ChooseInput(i);
      var health := if i.sight.healthy != lastHealth then Some(i.sight.healthy) else None;
      lastHealth := i.sight.healthy;
      var finished := DispatchTick(i);
      ghost var c1 := View();
      assert (c1, finished) == Tick(c0.(lastHealth := i.sight.healthy), i);
      var changed;
      changed, reply := DispatchOperator(i, input, health);
      ghost var c2 := View();
      assert (c2, changed, reply) == OperatorStage(c1, i, input, health);
      if !changed { DispatchLater(i, health, finished); }
    }

    /** The operator's command, or the automatic start of tracking. */
    method ChooseInput(i: Inputs) returns (input: Option<OperatorCommand>)
      ensures input == InputOf(View(), i)
    {
      input := if i.command.None? && !everStarted && !executor.View().PermissionPending()
                  && i.autoStart && i.sight.healthy && mode.Ready?
               then Some(AskCustom1) else i.command;
    }

    method OnResetGrant(g: Grant, s: Sight)
      modifies `held, `calls, executor
      ensures View() == GrantArrives(old(View()), g, s)
    {
      hide OnGrant;
      var m := Measure(s);
      executor.DoOnGrant(g, m);
      calls := calls + [GrantOp(g, m)];
      if RequiresZero(executor.View()) { held := STILL; }
    }

    method ResetSessionPublished(s: Sight)
      modifies `calls, executor
      ensures View() == SessionPublished(old(View()), s)
    {
      hide MarkPublished, SessionDue;
      var m := Measure(s);
      if SessionDue(executor.View(), m) {
        executor.DoMarkPublished(m);
        calls := calls + [PublishOp(m)];
      }
    }

    method ResetResultPublished()
      modifies `calls, executor
      ensures View() == Call(old(View()), CommitOp)
    {
      executor.DoCommitResult();
      calls := calls + [CommitOp];
    }

    method ApplyResetSpec(spec: VehicleSpec, timeout: real)
      modifies `calls, executor
      ensures View() == Configured(old(View()), spec, timeout)
    {
      hide SetSpec;
      executor.DoSetSpec(spec);
      executor.DoSetTimeout(timeout);
      calls := calls + [SpecOp(spec), TimeoutOp(timeout)];
      assert calls == old(calls) + [SpecOp(spec)] + [TimeoutOp(timeout)];
    }

    method NotifyResetZeroPublished(rosNow: real, generation: nat, brake: nat)
      modifies `calls, executor
      ensures View() == ZeroIsPublished(old(View()), rosNow, generation, brake)
    {
      hide ZeroPublished;
      if held.Zero() {
        executor.DoZeroPublished(rosNow, generation, brake);
        calls := calls + [ZeroOp(rosNow, generation, brake)];
      }
    }
  }

  /** The handlers look at the state, not at the record of the calls. */
  lemma OperatorIgnoresCalls(c: Control, d: Control, i: Inputs, command: OperatorCommand, health: Option<bool>)
    requires d == c.(calls := d.calls)
    ensures OnOperator(c, i, command, health) == OnOperator(d, i, command, health)
  {
    hide Prepare;
  }
}
