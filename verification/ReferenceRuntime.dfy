/** The deadline-driven reference runtime (unicycle_reference_trajectory_runtime.cpp): SelfCheck,
    Ready, Planning and Active, each left or kept by one Advance; a plan is made and consumed inside
    one update. Whether a trajectory could be built or a waypoint problem solved is part of the
    request; flags are kept as a set of bits. */
module ReferenceRuntime {
  import opened ResetProtocol
  import opened PeriodicGate

  datatype Kind = Analytic | Sampled | Polynomial
  datatype Output = StatusOutput | Reference(kind: Kind)
  datatype Publication = Publication(kind: Output, stamp: real)

  datatype Trajectory = Trajectory(kind: Kind, id: nat, revision: nat, start: real, duration: real,
                                   flags: set<nat>)

  /** What the solver answers: the duration of the polynomial and its flags. */
  datatype Solution = Solution(duration: real, flags: set<nat>)

  datatype Waypoints = Waypoints(id: nat, revision: nat, stamp: real, flags: set<nat>,
                                 messageFlags: set<nat>, answer: Option<Solution>,
                                 failure: set<nat>)

  datatype Request = NoRequest | TrajectoryRequest(t: Trajectory) | WaypointRequest(w: Waypoints)

  datatype Stage = SelfCheck | Ready(status: Gate) | Planning(request: Waypoints)
    | Active(activeStatus: Gate, publication: Gate)

  datatype Config = Config(statusRate: real, activeRate: real, timeout: real, minLead: real)

  predicate ValidConfig(c: Config) {
    c.statusRate > 0.0 && c.activeRate > 0.0 && c.timeout >= 0.0 && c.minLead >= 0.0
  }

  /** setConfig replaces every value that is not usable. */
  function Repaired(c: Config): (r: Config)
    ensures ValidConfig(r) && (ValidConfig(c) ==> r == c)
  {
    Config(if c.statusRate > 0.0 then c.statusRate else 10.0,
           if c.activeRate > 0.0 then c.activeRate else 10.0,
           if c.timeout >= 0.0 then c.timeout else 0.5, if c.minLead >= 0.0 then c.minLead else 0.2)
  }

  datatype Runtime = Runtime(config: Config, stage: Stage, now: real, flags: set<nat>,
                             request: Request, retained: Option<Trajectory>,
                             outputs: seq<Publication>)

  function StatusPeriod(c: Config): (p: real)
    requires ValidConfig(c)
    ensures p > 0.0
  {
    1.0 / c.statusRate
  }

  function ActivePeriod(c: Config): (p: real)
    requires ValidConfig(c)
    ensures p > 0.0
  {
    1.0 / c.activeRate
  }

  function AdjustedStart(requested: real, now: real, minLead: real): real {
    var minimum := now + Max(0.0, minLead);
    if requested <= 0.0 then minimum else Max(requested, minimum)
  }

  // ---------------------------------------------------------------- publications

  function Publish(out: seq<Publication>, g: Gate, now: real, period: real, kind: Output): seq<Publication> {
    if Opens(g, now, period) then out + [Publication(kind, now)] else out
  }

  function PublishActive(r: Runtime, status: Gate, publication: Gate): Runtime
    requires ValidConfig(r.config) && r.retained.Some?
  {
    var out := Publish(r.outputs, status, r.now, StatusPeriod(r.config), StatusOutput);
    r.(outputs := Publish(out, publication, r.now, ActivePeriod(r.config), Reference(r.retained.value.kind)),
       stage := Active(Due(status, r.now, StatusPeriod(r.config)),
                       Due(publication, r.now, ActivePeriod(r.config))))
  }

  function EnterReady(r: Runtime): Runtime
    requires ValidConfig(r.config)
  {
    r.(stage := Ready(Due(CLOSED, r.now, StatusPeriod(r.config))),
       outputs := Publish(r.outputs, CLOSED, r.now, StatusPeriod(r.config), StatusOutput))
  }

  // ---------------------------------------------------------------- the handlers

  /** activateRequest: a ready-made trajectory replaces the retained one. */
  function Activated(r: Runtime): Runtime {
    if r.request.TrajectoryRequest?
    then r.(flags := r.request.t.flags, retained := Some(r.request.t), request := NoRequest)
    else r
  }

  function StartPlanning(r: Runtime): Runtime
    requires r.request.WaypointRequest?
  {
    r.(stage := Planning(r.request.w), request := NoRequest)
  }

  function AdvanceReady(r: Runtime): Runtime
    requires r.stage.Ready? && ValidConfig(r.config)
  {
    match r.request
    case WaypointRequest(_) => StartPlanning(r)
    case TrajectoryRequest(_) =>
      Activated(r).(stage := Active(Due(CLOSED, r.now, StatusPeriod(r.config)),
                                    Due(CLOSED, r.now, ActivePeriod(r.config))))
    case NoRequest =>
      r.(stage := Ready(Due(r.stage.status, r.now, StatusPeriod(r.config))),
         outputs := Publish(r.outputs, r.stage.status, r.now, StatusPeriod(r.config), StatusOutput))
  }

  function Planned(r: Runtime, w: Waypoints, s: Solution): Runtime {
    var current := if r.retained.Some? then r.retained.value.revision else 0;
    var revision := if w.revision == 0 then (current + 1) % 0x1_0000_0000 else w.revision;
    r.(flags := s.flags,
       retained := Some(Trajectory(Polynomial, w.id, revision,
                                   AdjustedStart(w.stamp, r.now, r.config.minLead), s.duration, s.flags)))
  }

  function AdvancePlanning(r: Runtime): Runtime
    requires r.stage.Planning? && ValidConfig(r.config)
  {
    var w := r.stage.request;
    match w.answer
    case None => r.(flags := r.flags + w.flags + w.failure, stage := SelfCheck)
    case Some(s) => PublishActive(Planned(r, w, s), CLOSED, CLOSED)
  }

  function ActiveEnd(r: Runtime): Option<real>
    requires r.retained.Some?
  {
    var t := r.retained.value;
    if t.duration <= 0.0 then None else Some(t.start + t.duration + r.config.timeout)
  }

  predicate Expired(r: Runtime)
    requires r.retained.Some?
  {
    ActiveEnd(r).Some? && r.now > ActiveEnd(r).value
  }

  function AdvanceActive(r: Runtime): Runtime
    requires r.stage.Active? && ValidConfig(r.config)
  {
    if r.request.WaypointRequest? then StartPlanning(r)
    else
      var a := Activated(r);
      if a.retained.None? then a.(stage := SelfCheck)
      else if Expired(a) then EnterReady(a)
      else PublishActive(a, r.stage.activeStatus, r.stage.publication)
  }

  function Advance(r: Runtime): Runtime
    requires ValidConfig(r.config)
  {
    match r.stage
    case SelfCheck => EnterReady(r)
    case Ready(_) => AdvanceReady(r)
    case Planning(_) => AdvancePlanning(r)
    case Active(_, _) => AdvanceActive(r)
  }

  /** update: one Advance, and a second one when the first has started a plan. */
  function Update(r: Runtime, now: real): Runtime
    requires ValidConfig(r.config)
  {
    var r1 := Advance(r.(now := now, outputs := []));
    if r1.stage.Planning? then Advance(r1) else r1
  }

  function Reset(r: Runtime): Runtime {
    r.(stage := SelfCheck, now := 0.0, flags := {}, request := NoRequest, retained := None, outputs := [])
  }

  /** A request that was refused leaves only its flags and the clock. */
  function Accept(r: Runtime, request: Option<Request>, flags: set<nat>, receipt: real): Runtime {
    match request
    case None => r.(now := receipt, flags := r.flags + flags)
    case Some(TrajectoryRequest(t)) =>
      r.(now := receipt,
         request := TrajectoryRequest(t.(start := AdjustedStart(t.start, receipt, r.config.minLead))))
    case Some(q) => r.(now := receipt, request := q)
  }

  // ---------------------------------------------------------------- invariants

  ghost predicate GateSet(g: Gate, now: real) { g.initialized && g.last <= now }

  /** Between updates: no plan is pending, an active runtime has a reference, and every gate has been
      set by the clock. */
  ghost predicate Rests(r: Runtime) {
    && ValidConfig(r.config)
    && match r.stage
       case SelfCheck => true
       case Ready(g) => g.initialized
       case Planning(_) => false
       case Active(s, p) => r.retained.Some? && s.initialized && p.initialized
  }

  /** The clock has not been set back behind the last publication. */
  ghost predicate OnTime(r: Runtime) {
    match r.stage
    case Ready(g) => GateSet(g, r.now)
    case Active(s, p) => GateSet(s, r.now) && GateSet(p, r.now)
    case _ => true
  }

  /** No update rests in Planning, an active runtime always has the reference it publishes, and its
      gates are set by the clock of the update. */
  lemma UpdateRests(r: Runtime, now: real)
    requires Rests(r)
    ensures Rests(Update(r, now)) && OnTime(Update(r, now)) && Update(r, now).config == r.config
    ensures var u := Update(r, now);
            forall i :: 0 <= i < |u.outputs| && u.outputs[i].kind.Reference? ==>
              u.stage.Active? && u.outputs[i].kind.kind == u.retained.value.kind
  {
    hide CatchUp;
  }

  lemma AcceptRests(r: Runtime, request: Option<Request>, flags: set<nat>, receipt: real)
    requires Rests(r)
    ensures Rests(Accept(r, request, flags, receipt))
  {
  }

  /** A plan that failed is answered by a self-check in the same update, and the next one is ready. */
  lemma FailedPlanChecksItself(r: Runtime, now: real)
    requires Rests(r) && r.request.WaypointRequest? && r.request.w.answer.None? && !r.stage.SelfCheck?
    ensures Update(r, now).stage.SelfCheck? && Update(r, now).outputs == []
    ensures forall later :: Update(Update(r, now), later).stage.Ready?
  {
  }

  // ---------------------------------------------------------------- when a reference holds

  /** A start that leaves the lead, and is as late as was asked: the earliest of these. */
  predicate StartsInTime(start: real, asked: real, now: real, lead: real) {
    && start >= now && start >= now + lead && start >= asked
    && (start == now || start == now + lead || start == asked)
  }

  lemma StartIsInTime(asked: real, now: real, lead: real)
    requires now >= 0.0
    ensures StartsInTime(AdjustedStart(asked, now, lead), asked, now, lead)
  {
  }

  /** Without a new request an active runtime stays active exactly until its reference has ended and the
      timeout has passed; a reference without a duration does not end. */
  lemma ActiveUntilItsEnd(r: Runtime, now: real)
    requires Rests(r) && r.stage.Active? && r.request.NoRequest?
    ensures var t := r.retained.value;
            Update(r, now).stage.Active? <==> (t.duration <= 0.0 || now <= t.start + t.duration + r.config.timeout)
    ensures Update(r, now).retained == r.retained
  {
    hide CatchUp;
  }

  /** A request for a path that has an answer becomes the reference, in the update that takes it: under
      the id of the request, from a start in time, for the duration of the answer. */
  lemma AnswerBecomesReference(r: Runtime, now: real)
    requires Rests(r) && !r.stage.SelfCheck? && r.request.WaypointRequest? && r.request.w.answer.Some? && now >= 0.0
    ensures var u, w, s := Update(r, now), r.request.w, r.request.w.answer.value;
            && u.stage.Active? && u.request.NoRequest? && u.flags == s.flags && u.retained.Some?
            && u.retained.value.id == w.id && u.retained.value.duration == s.duration
            && (w.revision != 0 ==> u.retained.value.revision == w.revision)
            && StartsInTime(u.retained.value.start, w.stamp, now, r.config.minLead)
  {
    hide CatchUp;
    StartIsInTime(r.request.w.stamp, now, r.config.minLead);
    hide AdjustedStart, StartsInTime, Publish;
  }

  // ---------------------------------------------------------------- deadlines

  datatype Deadline = Never | By(t: real)

  function Earlier(a: Deadline, b: Deadline): Deadline {
    match (a, b)
    case (Never, _) => b
    case (_, Never) => a
    case (By(x), By(y)) => By(Min(x, y))
  }

  function EndOf(r: Runtime): Deadline
    requires r.retained.Some?
  {
    match ActiveEnd(r) case None => Never case Some(t) => By(t)
  }

  /** nextDeadline, without the nudge of one unit in the last place. */
  function NextDeadline(r: Runtime): Deadline
    requires ValidConfig(r.config) && (r.stage.Active? ==> r.retained.Some?)
  {
    if !r.request.NoRequest? then By(r.now)
    else
      match r.stage
      case Ready(g) => By(NextDue(g, r.now, StatusPeriod(r.config)))
      case Active(s, p) =>
        Earlier(Earlier(By(NextDue(s, r.now, StatusPeriod(r.config))),
                        By(NextDue(p, r.now, ActivePeriod(r.config)))), EndOf(r))
      case _ => By(r.now)
  }

  predicate Before(t: real, d: Deadline) { d.Never? || t < d.t }
  predicate After(t: real, d: Deadline) { d.By? && t > d.t }

  /** Nothing happened but that time has passed. */
  predicate Slept(r: Runtime, u: Runtime) { u == r.(now := u.now, outputs := []) }

  /** Sleeping refines polling: an update between the last one and the deadline would have changed
      nothing and said nothing. */
  lemma SleepingRefinesPolling(r: Runtime, t: real)
    requires Rests(r) && r.request.NoRequest? && r.now <= t && Before(t, NextDeadline(r))
    ensures Slept(r, Update(r, t)) && NextDeadline(Update(r, t)) == NextDeadline(r)
  {
    hide CatchUp;
  }

  /** Waking up is not in vain: an update after the deadline says something or changes the stage, if
      and only if the clock had not been set back behind the last publication in a way that still
      holds at the update. */
  predicate SetBack(r: Runtime, t: real)
    requires ValidConfig(r.config)
  {
    match r.stage
    case Ready(g) => r.now < g.last && g.last <= t < g.last + StatusPeriod(r.config)
    case Active(s, p) =>
      (r.now < s.last || r.now < p.last)
      && s.last <= t < s.last + StatusPeriod(r.config) && p.last <= t < p.last + ActivePeriod(r.config)
      && r.retained.Some? && !Expired(r.(now := t))
    case _ => false
  }

  lemma WakingIsNotInVain(r: Runtime, t: real)
    requires Rests(r) && r.request.NoRequest? && After(t, NextDeadline(r))
    ensures !Slept(r, Update(r, t)) || Update(r, t).outputs != [] <==> !SetBack(r, t)
  {
    hide CatchUp;
  }

  /** After an update the clock is never behind, so every later wake-up does something. */
  lemma WakingAfterUpdate(r: Runtime, last: real, t: real)
    requires Rests(r) && Update(r, last).request.NoRequest? && After(t, NextDeadline(Update(r, last)))
    ensures var u := Update(r, last); !Slept(u, Update(u, t)) || Update(u, t).outputs != []
  {
    UpdateRests(r, last);
    WakingIsNotInVain(Update(r, last), t);
    hide Update;
  }

  /** The exception is real: a refused request with an old stamp sets the clock back, and the runtime
      is then woken at once for nothing. */
  lemma RefusedRequestWakesInVain()
    ensures var r := Runtime(Config(10.0, 10.0, 0.5, 0.2), Ready(Gate(true, 5.0)), 5.0, {}, NoRequest, None, []);
            var back := Accept(r, None, {1}, 4.0);
            Rests(r) && OnTime(r) && After(5.01, NextDeadline(back)) && Slept(back, Update(back, 5.01))
  {
  }

  // ---------------------------------------------------------------- the object

  class ReferenceTrajectoryRuntime {
    var config: Config
    var stage: Stage
    var now: real
    var flags: set<nat>
    var request: Request
    var retained: Option<Trajectory>
    var outputs: seq<Publication>

    function View(): Runtime reads this {
      Runtime(config, stage, now, flags, request, retained, outputs)
    }

    constructor ()
      ensures View() == Reset(Runtime(Config(10.0, 10.0, 0.5, 0.2), SelfCheck, 0.0, {}, NoRequest, None, []))
      ensures Rests(View())
    {
      config, stage, now := Config(10.0, 10.0, 0.5, 0.2), SelfCheck, 0.0;
      flags, request, retained, outputs := {}, NoRequest, None, [];
    }

    method SetConfig(c: Config)
      modifies this
      ensures View() == Reset(old(View()).(config := Repaired(c))) && Rests(View())
    {
      config := Repaired(c);
      stage, now, flags, request, retained, outputs := SelfCheck, 0.0, {}, NoRequest, None, [];
    }

    method AcceptRequest(q: Option<Request>, refused: set<nat>, receipt: real) returns (accepted: bool)
      modifies this
      ensures View() == Accept(old(View()), q, refused, receipt) && accepted == q.Some?
      ensures Rests(old(View())) ==> Rests(View())
    {
      ghost var before := View();
      if Rests(before) { AcceptRests(before, q, refused, receipt); }
      now := receipt;
      accepted := q.Some?;
      if q.None? {
        flags := flags + refused;
      } else if q.value.TrajectoryRequest? {
        var t := q.value.t;
        request := TrajectoryRequest(t.(start := AdjustedStart(t.start, receipt, config.minLead)));
      } else {
        request := q.value;
      }
    }

    method PublishIfDue(g: Gate, period: real, kind: Output) returns (after: Gate)
      modifies `outputs
      ensures after == Due(g, now, period) && outputs == Publish(old(outputs), g, now, period, kind)
    {
      if Opens(g, now, period) { outputs := outputs + [Publication(kind, now)]; }
      after := Due(g, now, period);
    }

    method PublishBoth(status: Gate, publication: Gate)
      requires ValidConfig(config) && retained.Some?
      modifies `outputs, `stage
      ensures View() == PublishActive(old(View()), status, publication)
    {
      hide CatchUp;
      var s := PublishIfDue(status, StatusPeriod(config), StatusOutput);
      var p := PublishIfDue(publication, ActivePeriod(config), Reference(retained.value.kind));
      stage := Active(s, p);
    }

    method GetReady()
      requires ValidConfig(config)
      modifies `outputs, `stage
      ensures View() == EnterReady(old(View()))
    {
      hide CatchUp;
      var s := PublishIfDue(CLOSED, StatusPeriod(config), StatusOutput);
      stage := Ready(s);
    }

    method ActivateRequest()
      modifies `flags, `retained, `request
      ensures View() == Activated(old(View()))
    {
      if request.TrajectoryRequest? {
        flags, retained := request.t.flags, Some(request.t);
        request := NoRequest;
      }
    }

    method PlanWaypoint(w: Waypoints) returns (planned: bool)
      modifies `flags, `retained
      ensures planned == w.answer.Some?
      ensures View() == if w.answer.Some? then Planned(old(View()), w, w.answer.value)
                        else old(View()).(flags := old(flags) + w.flags + w.failure)
    {
      planned := w.answer.Some?;
      if !planned {
        flags := flags + w.flags + w.failure;
        return;
      }
      var current := if retained.Some? then retained.value.revision else 0;
      var revision := if w.revision == 0 then (current + 1) % 0x1_0000_0000 else w.revision;
      flags := w.answer.value.flags;
      retained := Some(Trajectory(Polynomial, w.id, revision, AdjustedStart(w.stamp, now, config.minLead),
                                  w.answer.value.duration, w.answer.value.flags));
    }

    method AdvanceStage()
      requires ValidConfig(config)
      modifies this
      ensures View() == Advance(old(View())) && config == old(config)
    {
      hide Due, Opens, PublishActive, EnterReady;
      match stage
      case SelfCheck => GetReady();
      case Ready(g) =>
        if request.WaypointRequest? {
          stage, request := Planning(request.w), NoRequest;
        } else if request.TrajectoryRequest? {
          ActivateRequest();
          stage := Active(Due(CLOSED, now, StatusPeriod(config)), Due(CLOSED, now, ActivePeriod(config)));
        } else {
          var s := PublishIfDue(g, StatusPeriod(config), StatusOutput);
          stage := Ready(s);
        }
      case Planning(w) =>
        var planned := PlanWaypoint(w);
        if planned { PublishBoth(CLOSED, CLOSED); } else { stage := SelfCheck; }
      case Active(s, p) =>
        if request.WaypointRequest? {
          stage, request := Planning(request.w), NoRequest;
        } else {
          ActivateRequest();
          if retained.None? { stage := SelfCheck; }
          else if Expired(View()) { GetReady(); }
          else { PublishBoth(s, p); }
        }
    }

    method UpdateTo(t: real)
      requires Rests(View())
      modifies this
      ensures View() == Update(old(View()), t) && Rests(View()) && OnTime(View())
    {
      UpdateRests(View(), t);
      hide Advance, Rests, OnTime;
      now, outputs := t, [];
      AdvanceStage();
      if stage.Planning? { AdvanceStage(); }
    }
  }
}
