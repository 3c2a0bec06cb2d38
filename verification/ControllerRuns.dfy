/** What every run of the controller keeps: it uses the executor as the executor asks to be used, it
    is in Reset exactly while a run is installed, and every Reset it enters ends with exactly one
    result under its own session id. */
module ControllerRuns {
  import opened ResetProtocol
  import opened ExecutorModel
  import opened ExecutorRuns
  import opened ExecutorResults
  import opened ControllerModel
  import opened ExecutorLease

  /** The sessions installed so far, in order. */
  ghost function Installed(calls: seq<Op>): seq<nat> {
    if calls == [] then []
    else
      var op := calls[|calls| - 1];
      Installed(calls[..|calls| - 1]) + if op.InstallOp? then [op.header.session] else []
  }

  /** The controller has used the executor as it may be used, and is where the executor is. */
  ghost predicate Owns(cfg: ExecutorConfig, spec: VehicleSpec, c: Control) {
    && c.exec == ExecutorRuns.After(Fresh(cfg, spec), c.calls)
    && AllAllowed(Fresh(cfg, spec), c.calls) && AbortsFirst(Fresh(cfg, spec), c.calls)
  }

  /** An ended run that is still installed has not been reported by a step. */
  predicate Quiet(e: Exec) { e.run.Some? && !e.Active() ==> !e.run.value.reported }

  /** The sessions are numbered on from where the counter started. */
  ghost predicate Numbered(start: nat, c: Control) {
    var s := Installed(c.calls);
    start + |s| == c.counter && forall k :: 0 <= k < |s| ==> s[k] == start + 1 + k
  }

  ghost predicate Inv(cfg: ExecutorConfig, spec: VehicleSpec, start: nat, c: Control) {
    Owns(cfg, spec, c) && Numbered(start, c) && Quiet(c.exec) && (c.mode.Resetting? <==> c.exec.run.Some?)
  }

  // ---------------------------------------------------------------- one call

  lemma CallOwns(cfg: ExecutorConfig, spec: VehicleSpec, c: Control, op: Op)
    requires Owns(cfg, spec, c) && Allowed(c.exec, op) && (op.FinishOp? ==> !c.exec.Active())
    ensures Owns(cfg, spec, Call(c, op)) && LocalInv(c.exec) && LocalInv(Call(c, op).exec)
  {
    hide Apply, Allowed, LocalInv;
    var calls := c.calls + [op];
    assert calls[..|calls| - 1] == c.calls;
    FreshIsLocal(cfg, spec);
    RunForward(Fresh(cfg, spec), c.calls, 0);
    OpForward(c.exec, op);
  }

  lemma CallNumbers(start: nat, c: Control, op: Op)
    requires Numbered(start, c) && !op.InstallOp?
    ensures Numbered(start, Call(c, op))
  {
    hide Apply;
    var calls := c.calls + [op];
    assert calls[..|calls| - 1] == c.calls;
  }

  lemma InstallNumbers(start: nat, c: Control, run: Run, target: Pose, m: Measurement)
    requires Numbered(start, c)
    ensures var c1 := c.(counter := c.counter + 1);
            Numbered(start, Call(c1, InstallOp(run, Header(c1.counter, target), m)))
  {
    hide Apply;
    var c1 := c.(counter := c.counter + 1);
    var op := InstallOp(run, Header(c1.counter, target), m);
    var calls := c.calls + [op];
    assert calls[..|calls| - 1] == c.calls;
  }

  /** Everything but step, install and finish leaves the run installed as it is, or ends it unreported. */
  predicate Passive(op: Op) { !op.StepOp? && !op.InstallOp? && !op.FinishOp? }

  lemma PassiveIsQuiet(e: Exec, op: Op)
    requires Passive(op) && Quiet(e)
    ensures Quiet(Apply(e, op)) && Apply(e, op).run.Some? == e.run.Some?
  {
    hide Accepts, Dist2, WrapAngle, Exec.CausalStopped;
  }

  lemma PassiveKeeps(cfg: ExecutorConfig, spec: VehicleSpec, start: nat, c: Control, op: Op)
    requires Inv(cfg, spec, start, c) && Passive(op) && Allowed(c.exec, op)
    ensures Inv(cfg, spec, start, Call(c, op))
  {
    hide Owns, Numbered, Quiet;
    CallOwns(cfg, spec, c, op);
    CallNumbers(start, c, op);
    PassiveIsQuiet(c.exec, op);
  }

  // ---------------------------------------------------------------- the step

  /** A step answers `ended` exactly when the installed run is over. */
  lemma StepReports(e: Exec, m: Measurement, tr: TrackerReading)
    requires LocalInv(e) && e.run.Some? && Quiet(e)
    ensures var (f, out) := Step(e, m, tr); f.run.Some? && (out.ended <==> !f.Active())
  {
    hide Poll, StepRest, Apply;
    PassiveIsQuiet(e, PollOp(m));
    assert Apply(e, PollOp(m)) == Poll(e, m) by { AppliesPoll(e, m); }
    RestReports(Poll(e, m), m, tr);
  }

  lemma AppliesPoll(e: Exec, m: Measurement)
    ensures Apply(e, PollOp(m)) == Poll(e, m)
  {
    hide Poll;
  }

  lemma RestReports(p: Exec, m: Measurement, tr: TrackerReading)
    requires p.run.Some? && Quiet(p)
    ensures var (f, out) := StepRest(p, m, tr); f.run.Some? && (out.ended <==> !f.Active())
  {
    hide Drive, Judge, Dist2, WrapAngle;
    if p.Active() && Judge(p, m).Drives? {
      JudgedToDrive(p, m);
      DriveReports(p, m, tr);
    }
  }

  lemma DriveReports(p: Exec, m: Measurement, tr: TrackerReading)
    requires p.permission.Executing? && p.Active()
    ensures var (f, out) := Drive(p, m, tr); f.run.Some? && (out.ended <==> !f.Active())
  {
    hide Checked, Due, StepDt, Exec.MovingNow;
    var motion := p.permission.motion;
    CheckedReports(p.(permission := Executing(Stepped(motion, m, tr))), StepDt(p, motion, m), m);
  }

  lemma CheckedReports(e: Exec, dt: real, m: Measurement)
    requires e.permission.Executing? && e.Active()
    ensures var (f, out) := Checked(e, dt, m); f.run.Some? && (out.ended <==> !f.Active())
  {
    hide InTube, StallReset, Guarded, Settled, Dist2, WrapAngle;
    SettledReports(e.(permission := Executing(Guarded(e, e.permission.motion, dt, m))), m);
  }

  lemma SettledReports(e: Exec, m: Measurement)
    requires e.permission.Executing? && e.Active()
    ensures var (f, out) := Settled(e, m); f.run.Some? && !out.ended && f.Active()
  {
    hide AsksAgain, WholeRoute, Exec.Slow, Exec.MovingNow;
  }

  // ---------------------------------------------------------------- leaving and entering

  /** While a run is active at most one earlier result waits. */
  lemma SlotsFit(cfg: ExecutorConfig, spec: VehicleSpec, c: Control)
    requires Owns(cfg, spec, c)
    ensures c.exec.Active() ==> !c.exec.slots.previousPending
  {
    OneResultPerSession(cfg, spec, c.calls);
  }

  /** Within a turn, after the tick: as `Inv`, but a run that just ended may be reported already. */
  ghost predicate Ticked(cfg: ExecutorConfig, spec: VehicleSpec, start: nat, c: Control, finished: bool) {
    && Owns(cfg, spec, c) && Numbered(start, c) && (c.mode.Resetting? <==> c.exec.run.Some?)
    && (finished <==> c.mode.Resetting? && !c.exec.Active())
  }

  lemma LeaveEnds(cfg: ExecutorConfig, spec: VehicleSpec, start: nat, c: Control, i: Inputs, finished: bool)
    requires Ticked(cfg, spec, start, c, finished)
    ensures var l := Leave(c, i);
            Owns(cfg, spec, l) && Numbered(start, l) && l.exec.run.None? && l.counter == c.counter
            && l.exec.Credits() == c.exec.Credits() && l.mode == c.mode
  {
    hide Owns, Numbered, Apply, Exec.Active, Exec.Credits, AbortOnLeaving;
    SlotsFit(cfg, spec, c);
    if c.mode.Resetting? {
      var op := AbortOnLeaving(c, i);
      OutcomeNamed(c, i);
      var a := if c.exec.Active() then Call(c, op) else c;
      AbortEnds(c.exec, op.outcome, op.detail, op.m);
      if c.exec.Active() {
        CallOwns(cfg, spec, c, op);
        CallNumbers(start, c, op);
      }
      FinishClears(a.exec);
      CallOwns(cfg, spec, a, FinishOp);
      CallNumbers(start, a, FinishOp);
      var f := Call(a, FinishOp);
      OwnsIsOfCalls(cfg, spec, f, ResetZero(f, true));
      NumberedIsOfCalls(start, f, ResetZero(f, true));
    } else {
      OwnsIsOfCalls(cfg, spec, c, Leave(c, i));
      NumberedIsOfCalls(start, c, Leave(c, i));
    }
  }

  lemma OutcomeNamed(c: Control, i: Inputs)
    ensures var op := AbortOnLeaving(c, i);
            op.AbortOp? && op.outcome != NoOutcome && Apply(c.exec, op) == Abort(c.exec, op.outcome, op.detail, op.m)
  {
    hide Abort;
  }

  lemma AbortEnds(e: Exec, outcome: Outcome, detail: string, m: Measurement)
    requires e.run.Some? && (e.Active() ==> !e.slots.previousPending)
    ensures var a := Abort(e, outcome, detail, m); a.run.Some? && !a.Active() && a.Credits() == e.Credits()
    ensures var a := Abort(e, outcome, detail, m);
            e.Active() && !e.fault && e.generation < UINT32_MAX ==>
              !a.fault && a.generation == e.generation + 1 && a.permission.AwaitBrake?
  {
    hide Dist2, WrapAngle;
  }

  lemma FinishClears(e: Exec)
    requires !e.Active()
    ensures var f := Finish(e); f == Apply(e, FinishOp) && f.run.None? && f.Credits() == e.Credits()
    ensures var f := Finish(e);
            !e.fault && e.generation < UINT32_MAX ==>
              !f.fault && e.generation <= f.generation <= e.generation + 1
              && (!e.permission.Executing? ==> f.generation == e.generation)
  {
  }

  /** A Reset that is admitted is entered: the executor starts a session under the next id, on the
      credit that admission saw, and does not run out of generations on the way. */
  lemma EnterStarts(cfg: ExecutorConfig, spec: VehicleSpec, start: nat, c: Control, i: Inputs,
                    finished: bool, run: Run)
    requires Ticked(cfg, spec, start, c, finished) && PrepareReset(c, i).0 == EnterReset(run)
    ensures var e := Transition(c, i, EnterReset(run)).0;
            && Inv(cfg, spec, start, e) && e.mode.Resetting? && e.exec.Active()
            && e.exec.header == Header(c.counter + 1, i.target) && !e.exec.fault
            && c.exec.generation < e.exec.generation < UINT32_MAX && e.exec.permission.AwaitBrake?
  {
    hide Owns, Numbered, ExecutorRuns.After, Leave, Install;
    SlotsFit(cfg, spec, c);
    LeaveEnds(cfg, spec, start, c, i, finished);
    LeaveSpends(c, i);
    var l := Leave(c, i);
    var l1 := l.(command := STILL, counter := l.counter + 1, everStarted := true);
    var op := InstallOp(run, Header(l1.counter, i.target), Measured(l1, i.sight));
    OwnsIsOfCalls(cfg, spec, l, l1);
    CallOwns(cfg, spec, l1, op);
    var l2 := Call(l1, op);
    NumberedIsOfCalls(start, Call(l.(counter := l.counter + 1), op), l2);
    InstallNumbers(start, l, run, i.target, Measured(l1, i.sight));
    var e := ResetZero(l2, true).(mode := Resetting);
    OwnsIsOfCalls(cfg, spec, l2, e);
    NumberedIsOfCalls(start, l2, e);
    InstallBegins(l1.exec, run, op.header, op.m);
  }

  lemma InstallBegins(e: Exec, run: Run, header: Header, m: Measurement)
    requires e.run.None? && !e.fault && e.generation < UINT32_MAX - 1 && run.phase == Requesting
    ensures var f := Install(e, run, header, m);
            f.Active() && f.header == header && !f.fault && f.generation == e.generation + 1
            && f.permission.AwaitBrake?
  {
  }

  lemma OwnsIsOfCalls(cfg: ExecutorConfig, spec: VehicleSpec, c: Control, d: Control)
    requires c.exec == d.exec && c.calls == d.calls
    ensures Owns(cfg, spec, c) == Owns(cfg, spec, d)
  {
  }

  lemma NumberedIsOfCalls(start: nat, c: Control, d: Control)
    requires c.counter == d.counter && c.calls == d.calls
    ensures Numbered(start, c) == Numbered(start, d)
  {
  }

  /** Leaving costs the executor at most one generation. */
  lemma LeaveSpends(c: Control, i: Inputs)
    requires !c.exec.fault && c.exec.generation < UINT32_MAX - 2
    requires c.mode.Resetting? <==> c.exec.run.Some?
    requires c.exec.Active() ==> !c.exec.slots.previousPending
    ensures var l := Leave(c, i).exec;
            !l.fault && c.exec.generation <= l.generation <= c.exec.generation + 1
  {
    hide Abort, Finish;
    if c.mode.Resetting? {
      var op := AbortOnLeaving(c, i);
      if c.exec.Active() {
        AbortEnds(c.exec, op.outcome, op.detail, op.m);
        FinishClears(Abort(c.exec, op.outcome, op.detail, op.m));
      } else {
        FinishClears(c.exec);
      }
    }
  }

  /** Between two wakes: the invariant, and Reset is where a run is active. */
  ghost predicate Rests(cfg: ExecutorConfig, spec: VehicleSpec, start: nat, c: Control) {
    Inv(cfg, spec, start, c) && (c.mode.Resetting? <==> c.exec.Active())
  }

  /** Only what admission prepared is entered as a Reset. */
  predicate Sound(c: Control, i: Inputs, change: Change) {
    match change
    case Stay => true
    case Enter(mode) => !mode.Resetting?
    case EnterReset(run) => PrepareReset(c, i).0 == change
  }

  lemma TransitionRests(cfg: ExecutorConfig, spec: VehicleSpec, start: nat, c: Control, i: Inputs,
                        finished: bool, change: Change)
    requires Ticked(cfg, spec, start, c, finished) && Sound(c, i, change)
    ensures var (d, changed) := Transition(c, i, change);
            changed == !change.Stay? && (changed ==> Rests(cfg, spec, start, d))
  {
    hide Owns, Numbered, Leave, PrepareReset;
    match change
    case Stay =>
    case Enter(mode) =>
      LeaveEnds(cfg, spec, start, c, i, finished);
      var l := Leave(c, i);
      OwnsIsOfCalls(cfg, spec, l, l.(command := STILL, mode := mode));
      NumberedIsOfCalls(start, l, l.(command := STILL, mode := mode));
    case EnterReset(run) => EnterStarts(cfg, spec, start, c, i, finished, run);
  }

  lemma SameCalls(cfg: ExecutorConfig, spec: VehicleSpec, start: nat, c: Control, d: Control)
    requires c.exec == d.exec && c.calls == d.calls && c.counter == d.counter && c.mode == d.mode
    ensures Inv(cfg, spec, start, c) == Inv(cfg, spec, start, d)
    ensures forall b: bool :: Ticked(cfg, spec, start, c, b) == Ticked(cfg, spec, start, d, b)
  {
    hide Owns, Numbered;
    OwnsIsOfCalls(cfg, spec, c, d);
    NumberedIsOfCalls(start, c, d);
  }

  lemma ObserveKeeps(cfg: ExecutorConfig, spec: VehicleSpec, start: nat, c: Control, s: Sight)
    requires Inv(cfg, spec, start, c)
    ensures Inv(cfg, spec, start, Observed(c, s)) && Observed(c, s).mode == c.mode
  {
    hide Inv, Apply;
    var c1 := c;
    if s.received {
      PassiveKeeps(cfg, spec, start, c, ObserveOp(Measured(c, s)));
      c1 := Call(c, ObserveOp(Measured(c, s)));
    }
    PassiveKeeps(cfg, spec, start, c1, PollOp(Measured(c1, s)));
  }

  lemma TickKeeps(cfg: ExecutorConfig, spec: VehicleSpec, start: nat, c: Control, i: Inputs)
    requires Inv(cfg, spec, start, c)
    ensures var (d, finished) := Tick(c, i); Ticked(cfg, spec, start, d, finished) && d.mode == c.mode
  {
    hide Owns, Numbered, Quiet, Step, ExecutorRuns.After;
    var d := Tick(c, i).0;
    if c.mode.Resetting? {
      var op := StepOp(Measured(c, i.sight), i.tracker);
      CallOwns(cfg, spec, c, op);
      CallNumbers(start, c, op);
      StepReports(c.exec, op.m, i.tracker);
      OwnsIsOfCalls(cfg, spec, Call(c, op), d);
      NumberedIsOfCalls(start, Call(c, op), d);
    } else {
      OwnsIsOfCalls(cfg, spec, c, d);
      NumberedIsOfCalls(start, c, d);
    }
  }

  lemma OperatorKeeps(cfg: ExecutorConfig, spec: VehicleSpec, start: nat, c: Control, i: Inputs,
                      finished: bool, input: Option<OperatorCommand>, health: Option<bool>)
    requires Ticked(cfg, spec, start, c, finished)
    ensures var (d, changed, reply) := OperatorStage(c, i, input, health);
            if changed then Rests(cfg, spec, start, d) else d == c
  {
    hide Ticked, Rests, Transition, Prepare;
    if input.Some? {
      var change := OnOperator(c, i, input.value, health).0;
      assert Sound(c, i, change);
      TransitionRests(cfg, spec, start, c, i, finished, change);
      if change.Stay? { StayStays(c, i); }
    }
  }

  lemma StayStays(c: Control, i: Inputs)
    ensures Transition(c, i, Stay) == (c, false)
  {
  }

  lemma LaterKeep(cfg: ExecutorConfig, spec: VehicleSpec, start: nat, c: Control, i: Inputs,
                  health: Option<bool>, finished: bool)
    requires Ticked(cfg, spec, start, c, finished)
    ensures Rests(cfg, spec, start, LaterStages(c, i, health, finished))
  {
    hide Transition, Owns, Numbered;
    StayStays(c, i);
    if health.Some? { TransitionRests(cfg, spec, start, c, i, finished, OnHealth(c, health.value)); }
    if finished { TransitionRests(cfg, spec, start, c, i, finished, Enter(Ready)); }
    if c.mode.Custom1? { SameCalls(cfg, spec, start, c, CustomDoes(c, i.completion)); }
  }

  /** After every turn the controller is in Reset exactly when a run is active: a run that ended, by
      whatever event, is left in the turn that reports it. */
  lemma TurnRests(cfg: ExecutorConfig, spec: VehicleSpec, start: nat, c: Control, i: Inputs)
    requires Inv(cfg, spec, start, c)
    ensures Rests(cfg, spec, start, Turn(c, i).0)
  {
    hide Inv, Ticked, Rests, Observed, Tick, OperatorStage, LaterStages;
    SameCalls(cfg, spec, start, c, c.(outputs := []));
    ObserveKeeps(cfg, spec, start, c.(outputs := []), i.sight);
    var c0 := Observed(c.(outputs := []), i.sight);
    var healthy := c0.(lastHealth := i.sight.healthy);
    SameCalls(cfg, spec, start, c0, healthy);
    TickKeeps(cfg, spec, start, healthy, i);
    var (c1, finished) := Tick(healthy, i);
    var health := if i.sight.healthy != c0.lastHealth then Some(i.sight.healthy) else None;
    OperatorKeeps(cfg, spec, start, c1, i, finished, InputOf(c0, i), health);
    LaterKeep(cfg, spec, start, c1, i, health, finished);
  }

  lemma EventKeeps(cfg: ExecutorConfig, spec: VehicleSpec, start: nat, c: Control, ev: Event)
    requires Inv(cfg, spec, start, c)
    ensures Inv(cfg, spec, start, Next(c, ev))
  {
    hide Inv, Turn, Apply, SessionDue;
    match ev
    case TurnEvent(i) => TurnRests(cfg, spec, start, c, i); RestsKeeps(cfg, spec, start, Turn(c, i).0);
    case GrantEvent(g, s) =>
      PassiveKeeps(cfg, spec, start, c, GrantOp(g, Measured(c, s)));
      SameCalls(cfg, spec, start, Call(c, GrantOp(g, Measured(c, s))), Next(c, ev));
    case ZeroEvent(rosNow, generation, brake) =>
      PassiveKeeps(cfg, spec, start, c, ZeroOp(rosNow, generation, brake));
    case SessionEvent(s) =>
      if SessionDue(c.exec, Measured(c, s)) { PassiveKeeps(cfg, spec, start, c, PublishOp(Measured(c, s))); }
    case ResultEvent => PassiveKeeps(cfg, spec, start, c, CommitOp);
    case ConfigEvent(newSpec, timeout) =>
      PassiveKeeps(cfg, spec, start, c, SpecOp(newSpec));
      PassiveKeeps(cfg, spec, start, Call(c, SpecOp(newSpec)), TimeoutOp(timeout));
  }

  lemma RestsKeeps(cfg: ExecutorConfig, spec: VehicleSpec, start: nat, c: Control)
    requires Rests(cfg, spec, start, c)
    ensures Inv(cfg, spec, start, c)
  {
  }

  lemma {:induction false} ReachedKeeps(cfg: ExecutorConfig, spec: VehicleSpec, start: nat, evs: seq<Event>)
    ensures Inv(cfg, spec, start, Reached(Started(cfg, spec, start), evs))
  {
    hide Next;
    var c := Started(cfg, spec, start);
    if evs != [] {
      ReachedKeeps(cfg, spec, start, evs[..|evs| - 1]);
      EventKeeps(cfg, spec, start, Reached(c, evs[..|evs| - 1]), evs[|evs| - 1]);
    }
  }

  // ---------------------------------------------------------------- one result per Reset

  lemma {:induction false} LedgerInstalls(e: Exec, calls: seq<Op>)
    ensures LedgerOf(e, calls).installed == Installed(calls)
  {
    hide Apply, EndsRun;
    if calls != [] { LedgerInstalls(e, calls[..|calls| - 1]); }
  }

  /** Over any run of the controller, with any grants, operators, health and clocks in between: the
      Resets it entered carry the ids after `start`, one by one; each that has been left has exactly
      one result, under its own id, in that order; only the one that is active now has none yet; and
      what was delivered is a beginning of those results. */
  lemma OneResultPerReset(cfg: ExecutorConfig, spec: VehicleSpec, start: nat, evs: seq<Event>)
    ensures var c := Reached(Started(cfg, spec, start), evs);
            var l := LedgerOf(Fresh(cfg, spec), c.calls);
            && start + |l.ended| + (if c.exec.Active() then 1 else 0) == c.counter
            && (forall k :: 0 <= k < |l.ended| ==>
                  l.ended[k].session == start + 1 + k && l.ended[k].outcome != NoOutcome)
            && l.delivered <= l.ended
            && (c.exec.Active() ==> c.mode.Resetting? && c.exec.header.session == c.counter)
  {
    var c := Reached(Started(cfg, spec, start), evs);
    ReachedKeeps(cfg, spec, start, evs);
    OwnedLedger(cfg, spec, start, c);
  }

  lemma OwnedLedger(cfg: ExecutorConfig, spec: VehicleSpec, start: nat, c: Control)
    requires Inv(cfg, spec, start, c)
    ensures var l := LedgerOf(Fresh(cfg, spec), c.calls);
            && start + |l.ended| + (if c.exec.Active() then 1 else 0) == c.counter
            && (forall k :: 0 <= k < |l.ended| ==>
                  l.ended[k].session == start + 1 + k && l.ended[k].outcome != NoOutcome)
            && l.delivered + Undelivered(c.exec.slots) == l.ended
            && (c.exec.Active() ==> c.mode.Resetting? && c.exec.header.session == c.counter)
  {
    hide Undelivered, Quiet, ExecutorRuns.After, LedgerOf;
    OneResultPerSession(cfg, spec, c.calls);
    LedgerInstalls(Fresh(cfg, spec), c.calls);
  }

  // ---------------------------------------------------------------- session ids

  /** Every Run was installed under a later session than the one before it. */
  ghost predicate AllNumberOn(e: Exec, calls: seq<Op>) {
    calls == [] || (AllNumberOn(e, calls[..|calls| - 1])
                    && NumbersOn(ExecutorRuns.After(e, calls[..|calls| - 1]), calls[|calls| - 1]))
  }

  lemma {:induction false} InstallsNumberOn(e: Exec, start: nat, calls: seq<Op>)
    requires LocalInv(e) && AllAllowed(e, calls) && e.header.session <= start
    requires var s := Installed(calls); forall k :: 0 <= k < |s| ==> s[k] == start + 1 + k
    ensures AllNumberOn(e, calls)
    ensures ExecutorRuns.After(e, calls).header.session <= start + |Installed(calls)|
  {
    hide Apply, Allowed, LocalInv;
    if calls != [] {
      var before := calls[..|calls| - 1];
      assert Installed(before) <= Installed(calls);
      InstallsNumberOn(e, start, before);
      RunForward(e, before, 0);
      HeaderAfter(ExecutorRuns.After(e, before), calls[|calls| - 1]);
      var s, op := Installed(calls), calls[|calls| - 1];
      assert op.InstallOp? ==> s == Installed(before) + [op.header.session] && s[|s| - 1] == start + |s|;
    }
  }

  /** Over any run, the controller uses its executor as the fleet takes it to be used: every call is
      allowed, and no session id is used again. */
  lemma SessionsNumberOn(cfg: ExecutorConfig, spec: VehicleSpec, start: nat, evs: seq<Event>)
    ensures var c := Reached(Started(cfg, spec, start), evs);
            && c.exec == ExecutorRuns.After(Fresh(cfg, spec), c.calls)
            && AllAllowed(Fresh(cfg, spec), c.calls) && AllNumberOn(Fresh(cfg, spec), c.calls)
  {
    hide Next, Apply;
    ReachedKeeps(cfg, spec, start, evs);
    FreshIsLocal(cfg, spec);
    InstallsNumberOn(Fresh(cfg, spec), start, Reached(Started(cfg, spec, start), evs).calls);
  }

  // ---------------------------------------------------------------- replacement in one turn

  lemma {:induction false} EndedGrows(e: Exec, a: seq<Op>, b: seq<Op>)
    ensures LedgerOf(e, a).ended <= LedgerOf(e, a + b).ended
    decreases |b|
  {
    hide Apply, EndsRun;
    if b == [] {
      assert a + b == a;
    } else {
      EndedGrows(e, a, b[..|b| - 1]);
      assert (a + b)[..|a + b| - 1] == a + b[..|b| - 1];
    }
  }

  /** The calls of one turn come after those before it. */
  lemma TurnAppends(c: Control, i: Inputs)
    ensures c.calls <= Turn(c, i).0.calls
  {
    hide Apply, Prepare, Step, SessionDue;
    var c0 := Observed(c.(outputs := []), i.sight);
    var health := if i.sight.healthy != c0.lastHealth then Some(i.sight.healthy) else None;
    var (c1, finished) := Tick(c0.(lastHealth := i.sight.healthy), i);
    assert c.calls <= c1.calls;
    OperatorAppends(c1, i, InputOf(c0, i), health);
    LaterAppend(c1, i, health, finished);
    hide Tick, OperatorStage, LaterStages, Observed;
    var (c2, changed, reply) := OperatorStage(c1, i, InputOf(c0, i), health);
    if !changed { LaterAppend(c2, i, health, finished); }
  }

  lemma OperatorAppends(c: Control, i: Inputs, input: Option<OperatorCommand>, health: Option<bool>)
    ensures c.calls <= OperatorStage(c, i, input, health).0.calls
  {
    hide OnOperator, Transition;
    if input.Some? { TransitionAppends(c, i, OnOperator(c, i, input.value, health).0); }
  }

  lemma LaterAppend(c: Control, i: Inputs, health: Option<bool>, finished: bool)
    ensures c.calls <= LaterStages(c, i, health, finished).calls
  {
    hide Transition, OnHealth;
    var c1 := c;
    if health.Some? {
      TransitionAppends(c, i, OnHealth(c, health.value));
      c1 := Transition(c, i, OnHealth(c, health.value)).0;
    }
    TransitionAppends(c1, i, Enter(Ready));
  }

  lemma TransitionAppends(c: Control, i: Inputs, change: Change)
    ensures c.calls <= Transition(c, i, change).0.calls
  {
    hide Apply;
  }

  /** What a Reset command that is applied in this turn has entered. */
  lemma AppliedResetCounts(cfg: ExecutorConfig, spec: VehicleSpec, start: nat, c: Control, i: Inputs)
    requires Inv(cfg, spec, start, c) && i.command == Some(AskReset) && Turn(c, i).1 == Applied
    ensures var d := Turn(c, i).0;
            d.exec.Active() && d.exec.header == Header(c.counter + 1, i.target) && d.counter == c.counter + 1
  {
    hide Inv, Ticked, Observed, Tick, Transition, PrepareReset, OperatorStage, LaterStages;
    SameCalls(cfg, spec, start, c, c.(outputs := []));
    ObserveKeeps(cfg, spec, start, c.(outputs := []), i.sight);
    var c0 := Observed(c.(outputs := []), i.sight);
    var healthy := c0.(lastHealth := i.sight.healthy);
    SameCalls(cfg, spec, start, c0, healthy);
    TickKeeps(cfg, spec, start, healthy, i);
    var (c1, finished) := Tick(healthy, i);
    CountersStand(c, i);
    var health := if i.sight.healthy != c0.lastHealth then Some(i.sight.healthy) else None;
    assert InputOf(c0, i) == Some(AskReset);
    ResetStage(c1, i, health);
    var run := PrepareReset(c1, i).0.run;
    EnterStarts(cfg, spec, start, c1, i, finished, run);
    EnteredCounter(c1, i, run);
  }

  lemma ResetStage(c: Control, i: Inputs, health: Option<bool>)
    requires OperatorStage(c, i, Some(AskReset), health).2 == Applied
    ensures PrepareReset(c, i).0.EnterReset?
    ensures var s := OperatorStage(c, i, Some(AskReset), health);
            s.1 && s.0 == Transition(c, i, EnterReset(PrepareReset(c, i).0.run)).0
  {
    hide Prepare, Leave, InstallReset;
  }

  lemma CountersStand(c: Control, i: Inputs)
    ensures var c0 := Observed(c.(outputs := []), i.sight);
            Tick(c0.(lastHealth := i.sight.healthy), i).0.counter == c.counter
  {
    hide Apply, Step;
  }

  lemma EnteredCounter(c: Control, i: Inputs, run: Run)
    ensures Transition(c, i, EnterReset(run)).0.counter == c.counter + 1
  {
    hide Apply;
  }

  /** A Reset that replaces an active one, in one turn: the old session gets its one result and the
      new one is active under the next id; no other session ends. */
  lemma ReplacedInOneTurn(cfg: ExecutorConfig, spec: VehicleSpec, start: nat, c: Control, i: Inputs)
    requires Inv(cfg, spec, start, c) && c.exec.Active()
    requires i.command == Some(AskReset) && Turn(c, i).1 == Applied
    ensures var d := Turn(c, i).0;
            var was, now := LedgerOf(Fresh(cfg, spec), c.calls).ended, LedgerOf(Fresh(cfg, spec), d.calls).ended;
            && d.exec.Active() && d.exec.header == Header(c.exec.header.session + 1, i.target)
            && |now| == |was| + 1 && was == now[..|was|]
            && now[|was|].session == c.exec.header.session && now[|was|].outcome != NoOutcome
  {
    hide Inv, Turn;
    var d := Turn(c, i).0;
    AppliedResetCounts(cfg, spec, start, c, i);
    TurnRests(cfg, spec, start, c, i);
    RestsKeeps(cfg, spec, start, d);
    OwnedLedger(cfg, spec, start, c);
    OwnedLedger(cfg, spec, start, d);
    TurnAppends(c, i);
    EndedGrows(Fresh(cfg, spec), c.calls, d.calls[|c.calls|..]);
    assert c.calls + d.calls[|c.calls|..] == d.calls;
    hide LedgerOf;
  }

  // ---------------------------------------------------------------- what is published

  /** The command a turn leaves in Reset is zero or that of this turn's step, and it is published only
      while the executor is not waiting for a permission. */
  lemma CommandIsTheStep(cfg: ExecutorConfig, spec: VehicleSpec, start: nat, c: Control, i: Inputs)
    returns (calls: seq<Op>, m: Measurement)
    requires Inv(cfg, spec, start, c)
    ensures var d := Turn(c, i).0;
            d.mode.Resetting? && !CmdVel(d).Zero() ==>
              && d.calls == calls + [StepOp(m, i.tracker)] && m.wallNow == i.sight.wallNow
              && m.rosNow == i.sight.rosNow && m.healthy == i.sight.healthy
              && AllAllowed(Fresh(cfg, spec), calls)
              && (var (f, out) := Step(ExecutorRuns.After(Fresh(cfg, spec), calls), m, i.tracker);
                  d.exec == f && d.command == Wheel(true, out.command.vx, out.command.wz))
  {
    hide Inv, Observed, Tick, LaterStages, OperatorStage, Step, Apply;
    SameCalls(cfg, spec, start, c, c.(outputs := []));
    ObserveKeeps(cfg, spec, start, c.(outputs := []), i.sight);
    var c0 := Observed(c.(outputs := []), i.sight);
    var healthy := c0.(lastHealth := i.sight.healthy);
    SameCalls(cfg, spec, start, c0, healthy);
    calls, m := healthy.calls, Measured(healthy, i.sight);
    InvOwns(cfg, spec, start, healthy);
    var health := if i.sight.healthy != c0.lastHealth then Some(i.sight.healthy) else None;
    var (c1, finished) := Tick(healthy, i);
    TickCommands(healthy, i);
    OperatorStills(c1, i, InputOf(c0, i), health);
    var (c2, changed, reply) := OperatorStage(c1, i, InputOf(c0, i), health);
    if !changed { LaterStills(c2, i, health, finished); }
  }

  lemma InvOwns(cfg: ExecutorConfig, spec: VehicleSpec, start: nat, c: Control)
    requires Inv(cfg, spec, start, c)
    ensures Owns(cfg, spec, c)
  {
  }

  lemma TickCommands(c: Control, i: Inputs)
    ensures var (d, finished) := Tick(c, i); var m := Measured(c, i.sight);
            d.mode.Resetting? && !CmdVel(d).Zero() ==>
              var (f, out) := Step(c.exec, m, i.tracker);
              d.calls == c.calls + [StepOp(m, i.tracker)] && d.exec == f
              && d.command == Wheel(true, out.command.vx, out.command.wz)
  {
    hide Step, Measured;
    if c.mode.Resetting? { assert Apply(c.exec, StepOp(Measured(c, i.sight), i.tracker)) ==
                                  Step(c.exec, Measured(c, i.sight), i.tracker).0; }
  }

  lemma TransitionStills(c: Control, i: Inputs, change: Change)
    ensures var (d, changed) := Transition(c, i, change); if changed then d.command == STILL else d == c
  {
    hide Apply;
  }

  lemma OperatorStills(c: Control, i: Inputs, input: Option<OperatorCommand>, health: Option<bool>)
    ensures var (d, changed, reply) := OperatorStage(c, i, input, health);
            if changed then d.command == STILL else d == c
  {
    hide OnOperator, Transition;
    if input.Some? { TransitionStills(c, i, OnOperator(c, i, input.value, health).0); }
  }

  lemma LaterStills(c: Control, i: Inputs, health: Option<bool>, finished: bool)
    ensures var d := LaterStages(c, i, health, finished);
            d.command == STILL || d == c || (c.mode.Custom1? && d.mode.Custom1?)
  {
    hide OnHealth, Transition;
    if health.Some? { TransitionStills(c, i, OnHealth(c, health.value)); }
    EnterStills(c, i);
  }

  lemma EnterStills(c: Control, i: Inputs)
    ensures Transition(c, i, Enter(Ready)).0.command == STILL
  {
    hide Apply;
  }

  /** In Reset the vehicle's published command is leased: if it is not zero after a turn, a Go of the
      active session and of the current generation was accepted, after a stop certified in the same
      generation, no longer ago than its time to live; the vehicle is healthy and not past the
      session's deadline on either clock. */
  lemma PublishedMotionIsLeased(cfg: ExecutorConfig, spec: VehicleSpec, start: nat, evs: seq<Event>, i: Inputs)
    ensures var d := Turn(Reached(Started(cfg, spec, start), evs), i).0;
            d.mode.Resetting? && !CmdVel(d).Zero() ==>
              var e := d.exec;
              var l := LeaseOf(Fresh(cfg, spec), d.calls);
              && e.Active() && e.header.session == d.counter && e.permission.Executing? && i.sight.healthy
              && l.certified == Some(e.generation) && l.permit.Some?
              && l.permit.value.generation == e.generation && l.permit.value.session == d.counter
              && l.permit.value.id == e.permission.motion.grantId
              && i.sight.wallNow <= l.permit.value.accepted + l.permit.value.ttl
              && (e.cfg.timeout > 0.0 ==> i.sight.rosNow - e.run.value.enterRos < e.cfg.timeout
                                          && i.sight.wallNow - e.run.value.enterWall < e.cfg.timeout)
  {
    hide Turn, Step, Inv, LeaseOf, Next;
    var c := Reached(Started(cfg, spec, start), evs);
    ReachedKeeps(cfg, spec, start, evs);
    var calls, m := CommandIsTheStep(cfg, spec, start, c, i);
    var d := Turn(c, i).0;
    if d.mode.Resetting? && !CmdVel(d).Zero() {
      MotionIsLeased(cfg, spec, calls, m, i.tracker);
      TurnRests(cfg, spec, start, c, i);
      RestsKeeps(cfg, spec, start, d);
      OwnedLedger(cfg, spec, start, d);
    }
  }
}
