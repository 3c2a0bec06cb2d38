/** The vehicle's owner of the executor (unicycle_ugv_controller.cpp): one machine of four modes, one
    turn per wake, in which the executor is observed, stepped, aborted, finished and installed.

    What the tracking mode commands (the flatness law, the NMPC solver) and the rate gates are
    parameters of the turn; `calls` records the executor's operations in the order they were made. */
module ControllerModel {
  import opened ResetProtocol
  import opened ExecutorModel
  import opened ExecutorRuns

  datatype Mode = SelfCheck | Ready | Custom1 | Resetting
  datatype OperatorCommand = AskReset | AskStop | AskCustom1
  datatype Reply = Unmatched | Applied | PermissionActive | CreditUnavailable
  datatype Output = PublishZero | PublishCommand

  /** The command the controller holds for publication. */
  datatype Wheel = Wheel(valid: bool, vx: real, wz: real)
  {
    predicate Zero() { vx == 0.0 && wz == 0.0 }
  }

  const STILL := Wheel(false, 0.0, 0.0)

  /** The vehicle state at a wake. */
  datatype Sight = Sight(rosNow: real, wallNow: real, pose: Pose, poseStamp: real, healthy: bool,
                         trusted: bool, received: bool)

  /** What the tracking mode does with the held command. */
  datatype Custom = Silent | Clears | Commands(wheel: Wheel)

  datatype Inputs = Inputs(sight: Sight, command: Option<OperatorCommand>, autoStart: bool, target: Pose,
                           targetReady: bool, spread: real, tracker: TrackerReading, due: bool,
                           idleDue: bool, custom: Custom, completion: Custom)

  datatype Change = Stay | Enter(mode: Mode) | EnterReset(run: Run)

  datatype Control = Control(exec: Exec, mode: Mode, command: Wheel, counter: nat, everStarted: bool,
                             lastHealth: bool, outputs: seq<Output>, calls: seq<Op>)

  function Started(cfg: ExecutorConfig, spec: VehicleSpec, counter: nat): Control {
    Control(Fresh(cfg, spec), SelfCheck, STILL, counter, false, false, [], [])
  }

  predicate RequiresZero(e: Exec) { e.fault || e.sense.clockInvalid || e.PermissionPending() }

  /** cmdVel, before the chassis limits: what is published as the velocity command. */
  function CmdVel(c: Control): Wheel {
    if RequiresZero(c.exec) || !c.command.valid then STILL else c.command
  }

  function Call(c: Control, op: Op): Control {
    c.(exec := Apply(c.exec, op), calls := c.calls + [op])
  }

  function WithCommand(c: Control, w: Wheel): Control {
    c.(command := if RequiresZero(c.exec) then STILL else w)
  }

  function Measured(c: Control, s: Sight): Measurement {
    Measurement(s.rosNow, s.wallNow, s.pose, s.poseStamp, s.healthy, s.trusted, c.command.Zero())
  }

  function Observed(c: Control, s: Sight): Control {
    var c1 := if s.received then Call(c, ObserveOp(Measured(c, s))) else c;
    Call(c1, PollOp(Measured(c1, s)))
  }

  function ResetZero(c: Control, out: bool): Control {
    c.(command := STILL, outputs := if out then c.outputs + [PublishZero] else c.outputs)
  }

  function CustomDoes(c: Control, does: Custom): Control {
    match does
    case Silent => c
    case Clears => c.(command := STILL)
    case Commands(w) => WithCommand(c, w)
  }

  /** The control tick of Reset: a step of the executor, whose command is held for publication. */
  function ResetTick(c: Control, i: Inputs): (Control, bool) {
    var m := Measured(c, i.sight);
    var out := Step(c.exec, m, i.tracker).1;
    var c1 := Call(c, StepOp(m, i.tracker));
    if out.ended then (ResetZero(c1, i.due), true)
    else if !i.sight.healthy then (ResetZero(c1, i.due), false)
    else
      var c2 := WithCommand(c1, Wheel(true, out.command.vx, out.command.wz));
      (c2.(outputs := if i.due then c2.outputs + [PublishCommand] else c2.outputs), false)
  }

  function Tick(c: Control, i: Inputs): (Control, bool) {
    match c.mode
    case Resetting => ResetTick(c, i)
    case Custom1 => (CustomDoes(c, i.custom), false)
    case _ => (c.(outputs := if i.idleDue then c.outputs + [PublishZero] else c.outputs), false)
  }

  function AbortOnLeaving(c: Control, i: Inputs): Op {
    AbortOp(if i.sight.healthy then Stopped else AbortedUnhealthy,
            if i.sight.healthy then "stop command" else "the vehicle state is lost or outside the fence",
            Measured(c, i.sight))
  }

  /** The Exit handlers: leaving Reset aborts an active run before it finishes it. */
  function Leave(c: Control, i: Inputs): Control {
    match c.mode
    case Resetting =>
      var c1 := if c.exec.Active() then Call(c, AbortOnLeaving(c, i)) else c;
      ResetZero(Call(c1, FinishOp), true)
    case Custom1 => ResetZero(c, i.idleDue)
    case _ => c
  }

  function InstallReset(c: Control, i: Inputs, run: Run): Control {
    var c1 := c.(command := STILL, counter := c.counter + 1, everStarted := true);
    var c2 := Call(c1, InstallOp(run, Header(c1.counter, i.target), Measured(c1, i.sight)));
    ResetZero(c2, true).(mode := Resetting)
  }

  function Transition(c: Control, i: Inputs, change: Change): (Control, bool) {
    match change
    case Stay => (c, false)
    case Enter(mode) => (Leave(c, i).(command := STILL, mode := mode), true)
    case EnterReset(run) => (InstallReset(Leave(c, i), i, run), true)
  }

  function PrepareReset(c: Control, i: Inputs): (Change, Reply) {
    if c.counter == UINT32_MAX then (Stay, CreditUnavailable)
    else
      match Prepare(c.exec, i.targetReady, i.spread, Measured(c, i.sight))
      case None => (Stay, CreditUnavailable)
      case Some(run) => (EnterReset(run), Applied)
  }

  /** The Operator handlers; `health` is given when it changed in this turn. */
  function OnOperator(c: Control, i: Inputs, command: OperatorCommand, health: Option<bool>): (Change, Reply) {
    if c.mode.SelfCheck? then (Stay, Unmatched)
    else if command.AskReset? then PrepareReset(c, i)
    else
      match c.mode
      case Ready => if command.AskCustom1? then (Enter(Custom1), Applied) else (Stay, Unmatched)
      case Custom1 =>
        if health == Some(false) then (Enter(SelfCheck), Unmatched)
        else if command.AskStop? then (Enter(Ready), Applied) else (Stay, Unmatched)
      case _ => if command.AskStop? then (Enter(Ready), Applied) else (Stay, Unmatched)
  }

  function OnHealth(c: Control, ready: bool): Change {
    if c.mode.SelfCheck? then (if ready then Enter(Ready) else Stay)
    else if !ready then Enter(SelfCheck) else Stay
  }

  /** The command of a turn: the operator's, or the automatic start of tracking. */
  function InputOf(c: Control, i: Inputs): Option<OperatorCommand> {
    if i.command.None? && !c.everStarted && !c.exec.PermissionPending() && i.autoStart
       && i.sight.healthy && c.mode.Ready?
    then Some(AskCustom1) else i.command
  }

  function OperatorStage(c: Control, i: Inputs, input: Option<OperatorCommand>, health: Option<bool>):
    (Control, bool, Reply)
  {
    if input.None? then (c, false, Unmatched)
    else if input == Some(AskCustom1) && (c.exec.PermissionPending() || c.exec.Active())
    then (c, false, PermissionActive)
    else
      var (change, reply) := OnOperator(c, i, input.value, health);
      var (c1, changed) := Transition(c, i, change);
      (c1, changed, reply)
  }

  function LaterStages(c: Control, i: Inputs, health: Option<bool>, finished: bool): Control {
    var (c1, changed) := if health.Some? then Transition(c, i, OnHealth(c, health.value)) else (c, false);
    if changed then c1
    else if finished then Transition(c1, i, Enter(Ready)).0
    else if c1.mode.Custom1? then CustomDoes(c1, i.completion)
    else c1
  }

  /** turn: observe, tick, then the first stage that changes the mode. */
  function Turn(c: Control, i: Inputs): (Control, Reply) {
    var c0 := Observed(c.(outputs := []), i.sight);
    var input := InputOf(c0, i);
    var health := if i.sight.healthy != c0.lastHealth then Some(i.sight.healthy) else None;
    var (c1, finished) := Tick(c0.(lastHealth := i.sight.healthy), i);
    var (c2, changed, reply) := OperatorStage(c1, i, input, health);
    (if changed then c2 else LaterStages(c2, i, health, finished), reply)
  }

  // ---------------------------------------------------------------- between the turns

  function GrantArrives(c: Control, g: Grant, s: Sight): Control {
    var c1 := Call(c, GrantOp(g, Measured(c, s)));
    if RequiresZero(c1.exec) then c1.(command := STILL) else c1
  }

  function ZeroIsPublished(c: Control, rosNow: real, generation: nat, brake: nat): Control {
    if c.command.Zero() then Call(c, ZeroOp(rosNow, generation, brake)) else c
  }

  function SessionPublished(c: Control, s: Sight): Control {
    if SessionDue(c.exec, Measured(c, s)) then Call(c, PublishOp(Measured(c, s))) else c
  }

  function Configured(c: Control, spec: VehicleSpec, timeout: real): Control {
    Call(Call(c, SpecOp(spec)), TimeoutOp(timeout))
  }

  datatype Event =
    | TurnEvent(i: Inputs)
    | GrantEvent(g: Grant, s: Sight)
    | ZeroEvent(rosNow: real, generation: nat, brake: nat)
    | SessionEvent(s: Sight)
    | ResultEvent
    | ConfigEvent(spec: VehicleSpec, timeout: real)

  function Next(c: Control, ev: Event): Control {
    match ev
    case TurnEvent(i) => Turn(c, i).0
    case GrantEvent(g, s) => GrantArrives(c, g, s)
    case ZeroEvent(rosNow, generation, brake) => ZeroIsPublished(c, rosNow, generation, brake)
    case SessionEvent(s) => SessionPublished(c, s)
    case ResultEvent => Call(c, CommitOp)
    case ConfigEvent(spec, timeout) => Configured(c, spec, timeout)
  }

  ghost function Reached(c: Control, evs: seq<Event>): Control {
    if evs == [] then c else Next(Reached(c, evs[..|evs| - 1]), evs[|evs| - 1])
  }
}
