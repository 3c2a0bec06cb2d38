/** The station's side of the wire (reset_coordinator.cpp): what it keeps of each vehicle, which
    Sessions it lets in, and what it has sent. */
module CoordinatorModel {
  import opened ResetProtocol
  import opened Bodies
  import opened PlannerModel

  /** `heading` gives the unit vector of a yaw. */
  datatype CoordinatorConfig = CoordinatorConfig(
    expected: seq<Id>, lostAfter: real, refreshPeriod: real, ttl: real, movingSpeed: real,
    heading: real -> (real, real))

  datatype Publication = Publication(grant: Grant, sent: real)
  datatype LastBody = LastBody(pose: Pose, spec: VehicleSpec)

  datatype Entry = Entry(
    session: Session, received: real, reference: Pose, referenceStamp: real, speed2: real,
    bad: Option<string>, last: Option<Publication>, body: Option<LastBody>, nextPublication: nat)

  predicate ParticipantPhase(p: Phase) {
    p == Requesting || p == Phase.Waiting || p == Moving || p == Settling
  }

  predicate ValidSpec(s: VehicleSpec) {
    var f := s.footprint;
    && 0.0 < f.halfLength < 5.0 && 0.0 < f.halfWidth < 5.0
    && Abs(f.offsetX) < 5.0 && Abs(f.offsetY) < 5.0
    && s.maxV > 0.0 && s.maxW > 0.0 && s.accV > 0.0 && s.accW > 0.0
    && 0.0 <= s.ellBound < 2.0
  }

  /** The publication fence: nothing older, and no other session inside one request. */
  predicate Fenced(e: Entry, s: Session) {
    s.publication <= e.session.publication || s.generation < e.session.generation
    || (s.generation == e.session.generation && s.session != e.session.session)
  }

  function Complaint(vehicle: Id, s: Session): Option<string> {
    if vehicle == "" then Some("empty vehicle name")
    else if !ValidSpec(s.spec) then Some("the declared footprint or limits are invalid")
    else None
  }

  /** The speed of a body outside a session, over at least 0.2 s (squared). */
  function Measured(e: Entry, s: Session): Entry {
    var dt := s.poseStamp - e.referenceStamp;
    if dt >= 0.2
    then e.(speed2 := Dist2(s.pose.x, s.pose.y, e.reference.x, e.reference.y) / dt / dt,
            reference := s.pose, referenceStamp := s.poseStamp)
    else e
  }

  function LastOf(s: Session, otherwise: Option<LastBody>): Option<LastBody> {
    if ValidSpec(s.spec) && s.healthy then Some(LastBody(s.pose, s.spec)) else otherwise
  }

  function FirstEntry(vehicle: Id, s: Session, now: real): Entry {
    Entry(s, now, if Complaint(vehicle, s).None? then s.pose else Pose(0.0, 0.0, 0.0),
          if Complaint(vehicle, s).None? then s.poseStamp else 0.0, 0.0, Complaint(vehicle, s), None,
          LastOf(s, None), 1)
  }

  /** A later Session of a known vehicle. A new request voids the earlier answer. */
  function NextEntry(e: Entry, vehicle: Id, s: Session, now: real): Entry {
    var e1 := if Complaint(vehicle, s).None? then Measured(e, s) else e;
    e1.(session := s, received := now, bad := Complaint(vehicle, s), body := LastOf(s, e.body),
        last := if s.session != e.session.session || s.generation != e.session.generation
                then None else e.last)
  }

  function OnSession(entries: map<Id, Entry>, vehicle: Id, s: Session, now: real): map<Id, Entry> {
    if vehicle !in entries then entries[vehicle := FirstEntry(vehicle, s, now)]
    else if Fenced(entries[vehicle], s) then entries
    else entries[vehicle := NextEntry(entries[vehicle], vehicle, s, now)]
  }

  predicate Lost(cfg: CoordinatorConfig, e: Entry, now: real) { now - e.received > cfg.lostAfter }

  predicate Participant(cfg: CoordinatorConfig, e: Entry, now: real) {
    ParticipantPhase(e.session.phase) && !Lost(cfg, e, now)
  }

  predicate Outside(cfg: CoordinatorConfig, name: Id) { cfg.expected != [] && name !in cfg.expected }

  predicate Available(cfg: CoordinatorConfig, e: Entry, now: real) {
    !Lost(cfg, e, now) && e.bad.None? && e.session.healthy
  }

  const DEFAULT_SPEC := VehicleSpec(Unicycle, Footprint(0.45, 0.40, 0.0, 0.0), 0.35, 0.0, 0.5, 0.35,
                                    0.6, 0.25)

  function BodyOf(e: Entry): LastBody {
    if e.body.Some? then e.body.value else LastBody(Pose(0.0, 0.0, 0.0), DEFAULT_SPEC)
  }

  /** What the planner is told about a vehicle: a silent or bad one keeps its last valid body. */
  function VehicleOf(cfg: CoordinatorConfig, name: Id, e: Entry, now: real): Vehicle {
    var available := Available(cfg, e, now);
    var phase := if Outside(cfg, name) || e.bad.Some? then Idle else e.session.phase;
    var body := BodyOf(e);
    var heading := cfg.heading(body.pose.yaw);
    Vehicle(name, e.session.session, e.session.generation, e.session.ack,
            e.session.certified && e.session.healthy && available, available, body.spec, body.pose,
            heading.0, heading.1, e.session.target, phase,
            !ParticipantPhase(phase) && !Lost(cfg, e, now)
            && e.speed2 > cfg.movingSpeed * cfg.movingSpeed)
  }

  /** A vehicle that never showed a valid body and whose last report is bad is not passed on. */
  predicate Known(e: Entry) { e.bad.None? || e.body.Some? }

  /** A vehicle that is available was just seen with the body it is reported with. */
  ghost predicate EntryInv(vehicle: Id, e: Entry) {
    && e.bad == Complaint(vehicle, e.session)
    && (e.bad.None? && e.session.healthy ==> e.body == Some(LastBody(e.session.pose, e.session.spec)))
  }

  lemma EntriesStayGood(e: Entry, vehicle: Id, s: Session, now: real)
    ensures EntryInv(vehicle, FirstEntry(vehicle, s, now))
    ensures EntryInv(vehicle, NextEntry(e, vehicle, s, now))
  {
    hide ValidSpec, Dist2;
  }

  /** The scope is complete when every expected vehicle has shown a valid body. */
  predicate ScopeReady(cfg: CoordinatorConfig, entries: map<Id, Entry>) {
    cfg.expected != []
    && forall k :: 0 <= k < |cfg.expected| ==>
         cfg.expected[k] in entries && entries[cfg.expected[k]].body.Some?
  }

  function GrantOf(cfg: CoordinatorConfig, d: Decision): Grant {
    Grant(d.generation, 0, cfg.ttl, d.session, d.state, d.grantId, d.route, d.sLimit, d.reason,
          d.detail, d.blockers)
  }

  /** A decision without its place on the wire. */
  function Content(g: Grant): Grant { g.(publication := 0) }

  // ---------------------------------------------------------------- the wire

  datatype Sent = Sent(to: Id, grant: Grant)

  /** Two grants to one vehicle, in the order they were sent. */
  ghost predicate Follows(a: Grant, b: Grant) {
    a.publication < b.publication && a.id <= b.id && (a.id == b.id ==> Content(a) == Content(b))
  }

  ghost predicate Ordered(wire: seq<Sent>) {
    forall i, j :: 0 <= i < j < |wire| && wire[i].to == wire[j].to ==>
      Follows(wire[i].grant, wire[j].grant)
  }

  /** What was sent to one vehicle is below its next publication number and id. */
  ghost predicate Below(g: Grant, e: Entry, limit: nat) {
    && g.publication < e.nextPublication && g.id < limit
    && (e.last.Some? ==> g.id <= e.last.value.grant.id
                         && (g.id == e.last.value.grant.id ==> Content(g) == Content(e.last.value.grant)))
  }

  ghost predicate WireInv(wire: seq<Sent>, entries: map<Id, Entry>, limit: nat) {
    && Ordered(wire)
    && (forall i :: 0 <= i < |wire| ==>
          wire[i].to in entries && Below(wire[i].grant, entries[wire[i].to], limit))
    && (forall name :: name in entries && entries[name].last.Some? ==>
          entries[name].last.value.grant.id < limit)
  }

  /** A grant leaves: its publication number is the next one, and it is what is repeated later. */
  function SentEntry(cfg: CoordinatorConfig, e: Entry, g: Grant, now: real): Entry {
    e.(last := Some(Publication(g.(publication := e.nextPublication, ttl := cfg.ttl), now)),
       nextPublication := e.nextPublication + 1)
  }

  /** A fresh id, or the repetition of the last decision, keeps the order of the wire. */
  lemma SendKeepsWire(cfg: CoordinatorConfig, wire: seq<Sent>, entries: map<Id, Entry>, limit: nat,
                      name: Id, g: Grant, now: real, limit': nat)
    requires WireInv(wire, entries, limit) && name in entries && limit <= limit'
    requires || (limit <= g.id < limit')
             || (entries[name].last.Some? && g == entries[name].last.value.grant && g.ttl == cfg.ttl)
    ensures var e := SentEntry(cfg, entries[name], g, now);
            WireInv(wire + [Sent(name, e.last.value.grant)], entries[name := e], limit')
  {
    var e := SentEntry(cfg, entries[name], g, now);
    var w := wire + [Sent(name, e.last.value.grant)];
    forall i, j | 0 <= i < j < |w| && w[i].to == w[j].to ensures Follows(w[i].grant, w[j].grant) {
      assert w[i] == wire[i];
      if j < |wire| { assert w[j] == wire[j]; }
    }
  }

  lemma LimitGrows(wire: seq<Sent>, entries: map<Id, Entry>, limit: nat, limit': nat)
    requires WireInv(wire, entries, limit) && limit <= limit'
    ensures WireInv(wire, entries, limit')
  {
  }

  /** A Session never disturbs what was sent before. */
  lemma SessionKeepsWire(wire: seq<Sent>, entries: map<Id, Entry>, limit: nat, vehicle: Id,
                         s: Session, now: real)
    requires WireInv(wire, entries, limit)
    ensures WireInv(wire, OnSession(entries, vehicle, s, now), limit)
  {
    hide ValidSpec, Dist2;
  }

  // ---------------------------------------------------------------- one step's letters

  /** What a step has done to the entries and put on the wire. An exhausted counter throws in the
      source: the station ends. */
  datatype Office = Office(entries: map<Id, Entry>, next: nat, out: seq<Sent>, halted: bool)

  predicate WasSent(out: seq<Sent>, name: Id) { exists i :: 0 <= i < |out| && out[i].to == name }

  function Send(cfg: CoordinatorConfig, o: Office, name: Id, g: Grant, now: real): Office
    requires name in o.entries
  {
    if o.halted then o
    else if o.entries[name].nextPublication >= UINT32_MAX then o.(halted := true)
    else
      var e := SentEntry(cfg, o.entries[name], g, now);
      o.(entries := o.entries[name := e], out := o.out + [Sent(name, e.last.value.grant)])
  }

  /** A decision of the coordinator itself takes the next id of the planner's allocator. */
  function SendNew(cfg: CoordinatorConfig, o: Office, name: Id, state: GrantState, reason: Reason,
                   detail: string, now: real): Office
    requires name in o.entries
  {
    if o.halted then o
    else if o.next >= UINT32_MAX then o.(halted := true)
    else
      var s := o.entries[name].session;
      Send(cfg, o.(next := o.next + 1), name,
           Grant(s.generation, 0, cfg.ttl, s.session, state, o.next, NO_ROUTE, 0.0, reason, detail, []),
           now)
  }

  predicate Matches(d: Decision, s: Session) {
    d.session == s.session && d.generation == s.generation
  }

  function DecideOne(cfg: CoordinatorConfig, o: Office, d: Decision, now: real): Office {
    if d.id in o.entries && Matches(d, o.entries[d.id].session)
    then Send(cfg, o, d.id, GrantOf(cfg, d), now) else o
  }

  function DecideAll(cfg: CoordinatorConfig, o: Office, ds: seq<Decision>, now: real): Office {
    if ds == [] then o
    else DecideOne(cfg, DecideAll(cfg, o, ds[..|ds| - 1], now), ds[|ds| - 1], now)
  }

  const NO_SCENE := "a Scene is authored but its live snapshot is unavailable"
  const NO_SCOPE := "expected namespace scope or first valid body observations missing"
  const NOT_IN_SCOPE := "namespace is outside the declared Reset scope"

  /** Without admission, a certified participant without a route is told to hold, once. */
  function HoldOne(cfg: CoordinatorConfig, o: Office, bodies: map<Id, Body>, scene: bool, name: Id,
                   now: real): Office
  {
    if name !in o.entries || name !in bodies then o
    else
      var e := o.entries[name];
      var reason := if scene then WaitingForPeer else SceneUnavailable;
      if !Participant(cfg, e, now) || bodies[name].HasPlan() || WasSent(o.out, name)
         || !e.session.certified || e.session.generation == 0 then o
      else if e.last.Some? && e.last.value.grant.state == GrantState.Hold
              && e.last.value.grant.reason == reason then o
      else SendNew(cfg, o, name, GrantState.Hold, reason, if scene then NO_SCOPE else NO_SCENE, now)
  }

  function HoldAll(cfg: CoordinatorConfig, o: Office, bodies: map<Id, Body>, scene: bool,
                   names: seq<Id>, now: real): Office
  {
    if names == [] then o
    else HoldOne(cfg, HoldAll(cfg, o, bodies, scene, names[..|names| - 1], now), bodies, scene,
                 names[|names| - 1], now)
  }

  predicate Due(cfg: CoordinatorConfig, p: Publication, now: real) {
    now - p.sent >= cfg.refreshPeriod
  }

  /** A Brake, or a Hold the vehicle has not echoed, is repeated even to an idle vehicle. */
  predicate Pending(e: Entry)
    requires e.last.Some?
  {
    var g := e.last.value.grant;
    g.state.Brake? || (g.state == GrantState.Hold && e.session.ack != g.id)
  }

  /** The heartbeat of one vehicle, or its refusal. */
  function BeatOne(cfg: CoordinatorConfig, o: Office, name: Id, now: real): Office {
    if name !in o.entries then o
    else
      var e := o.entries[name];
      if Lost(cfg, e, now) || WasSent(o.out, name) || e.session.generation == 0 then o
      else if e.bad.Some? || Outside(cfg, name) then
        var detail := if e.bad.Some? then e.bad.value else NOT_IN_SCOPE;
        if e.last.Some? && e.last.value.grant.state.Reject? && e.last.value.grant.detail == detail
        then if Due(cfg, e.last.value, now) then Send(cfg, o, name, e.last.value.grant, now) else o
        else SendNew(cfg, o, name, Reject, BadSession, detail, now)
      else if e.last.None? || !Due(cfg, e.last.value, now) then o
      else if !Participant(cfg, e, now) && !Pending(e) then o
      else Send(cfg, o, name, e.last.value.grant, now)
  }

  function BeatAll(cfg: CoordinatorConfig, o: Office, names: seq<Id>, now: real): Office {
    if names == [] then o
    else BeatOne(cfg, BeatAll(cfg, o, names[..|names| - 1], now), names[|names| - 1], now)
  }
}
