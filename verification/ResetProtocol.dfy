/** The vocabulary of the Reset protocol (reset_protocol.h): what a vehicle declares in its Session,
    what the station answers in a Grant, and the one Result of a session.

    uint32 counters are `nat` with the bound written out where the source checks it. Reals stand for
    doubles: a Pose that is compared or stored is finite by construction. */
module ResetProtocol {

  datatype Option<+T> = None | Some(value: T)

  const UINT32_MAX: nat := 0xFFFF_FFFF
  const K_PI: real := 3.14159265358979323846
  const K_MAX_VIA: nat := 24
  const K_SESSION_PERIOD: real := 0.2

  type Id = string

  datatype Pose = Pose(x: real, y: real, yaw: real)
  datatype Point = Point(x: real, y: real)

  datatype Model = Unicycle | Omni
  datatype Phase = Idle | Requesting | Waiting | Moving | Settling | Done
  datatype GrantState = Hold | Go | Brake | Reject

  datatype Reason =
    | NoReason | WaitingForPeer | Precedence | Replan | SceneUnavailable | NonParticipantMoving
    | GoalOccupied | NoRoute | Deadlock | TooSlow | BadSession | Stalled | SceneChanged

  datatype Outcome =
    | NoOutcome | Arrived | Timeout | Stopped | RejectedNoTarget | RejectedNoCoordinator
    | RejectedByCoordinator | Infeasible | AbortedDeviation | AbortedStalled
    | AbortedCoordinatorLost | AbortedUnhealthy

  datatype Footprint = Footprint(halfLength: real, halfWidth: real, offsetX: real, offsetY: real)

  datatype VehicleSpec = VehicleSpec(model: Model, footprint: Footprint, maxV: real, maxVy: real,
                                     maxW: real, accV: real, accW: real, ellBound: real)

  datatype Session = Session(generation: nat, ack: nat, certified: bool, publication: nat,
                             session: nat, poseStamp: real, pose: Pose, target: Pose, phase: Phase,
                             spec: VehicleSpec, healthy: bool)

  /** The frozen route a Go carries: everything that fixes the motion except how far it may go. */
  datatype RouteDecl = RouteDecl(start: Pose, via: seq<Point>, goal: Pose, ell: real,
                                 finalMove: bool)

  datatype Grant = Grant(generation: nat, publication: nat, ttl: real, session: nat,
                         state: GrantState, id: nat, route: RouteDecl, sLimit: real,
                         reason: Reason, detail: string, blockers: seq<string>)

  datatype Result = Result(session: nat, outcome: Outcome, reason: Reason, detail: string,
                           planarError2: real, yawError: real, duration: real)

  datatype Command = Command(vx: real, vy: real, wz: real)
  {
    predicate Zero() { vx == 0.0 && vy == 0.0 && wz == 0.0 }
  }

  const ZERO_COMMAND := Command(0.0, 0.0, 0.0)
  const NO_ROUTE := RouteDecl(Pose(0.0, 0.0, 0.0), [], Pose(0.0, 0.0, 0.0), 0.0, true)

  function Abs(a: real): real { if a < 0.0 then -a else a }
  function Min(a: real, b: real): real { if a <= b then a else b }
  function Max(a: real, b: real): real { if a <= b then b else a }
  function Clamp(a: real, lo: real, hi: real): real { Max(lo, Min(a, hi)) }

  /** atan2(sin a, cos a): the representative of `a` in [-pi, pi). */
  function WrapAngle(a: real): real {
    a - ((a + K_PI) / (2.0 * K_PI)).Floor as real * (2.0 * K_PI)
  }

  /** An angle less k whole turns. */
  function Unwound(a: real, k: int): real { a - (k as real) * (2.0 * K_PI) }

  /** The representative is in [-pi, pi) and differs by whole turns. */
  lemma WrapAngleMeans(a: real)
    ensures -K_PI <= WrapAngle(a) < K_PI
    ensures exists k: int :: WrapAngle(a) == Unwound(a, k)
  {
    var q := (a + K_PI) / (2.0 * K_PI);
    var k := q.Floor;
    assert q * (2.0 * K_PI) == a + K_PI;
    assert WrapAngle(a) == Unwound(a, k);
  }

  /** Squared planar distance: hypot is compared through squares throughout the model. */
  function Dist2(x0: real, y0: real, x1: real, y1: real): real {
    (x0 - x1) * (x0 - x1) + (y0 - y1) * (y0 - y1)
  }

  predicate SamePose(a: Pose, b: Pose) {
    Abs(a.x - b.x) <= 0.000000001 && Abs(a.y - b.y) <= 0.000000001
    && Abs(WrapAngle(a.yaw - b.yaw)) <= 0.000000001
  }

  /** The route of a Go, seen by a tracker that already follows `r` (reset_executor.h, sameRoute). */
  predicate SameRoute(r: RouteDecl, g: RouteDecl) {
    && SamePose(r.start, g.start) && SamePose(r.goal, g.goal)
    && Abs(r.ell - g.ell) <= 0.000000001 && r.finalMove == g.finalMove
    && |r.via| == |g.via|
    && forall i :: 0 <= i < |g.via| ==>
         Abs(r.via[i].x - g.via[i].x) <= 0.000000001 && Abs(r.via[i].y - g.via[i].y) <= 0.000000001
  }

  /** One decision repeated: equal in everything but the stamp and the publication sequence. */
  predicate SameDecision(a: Grant, b: Grant) {
    && a.state == b.state && a.generation == b.generation && a.session == b.session
    && SamePose(a.route.start, b.route.start) && SamePose(a.route.goal, b.route.goal)
    && a.route.finalMove == b.route.finalMove && a.route.ell == b.route.ell
    && a.sLimit == b.sLimit && a.reason == b.reason && a.ttl == b.ttl && a.detail == b.detail
    && a.blockers == b.blockers && a.route.via == b.route.via
  }
}
