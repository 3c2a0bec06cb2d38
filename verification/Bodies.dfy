/** What the planner holds (reset_planner.cpp): sweeps, plans, reservations, bodies. */
module Bodies {
  import opened ResetProtocol
  import opened Geometry

  const K_CHUNK: nat := 8
  const K_BEHIND: nat := 6
  const K_WINDOW: nat := 160
  const UNLIMITED: real := 1000000000000000000.0

  datatype PlannerConfig = PlannerConfig(
    pairMargin: real, staticMargin: real, fenceMargin: real, holdMargin: real, minPrefix: real,
    extensionPeriod: real, stall: real, replanPeriod: real)

  /** The footprint at every sample of one rotation-centre variant, with one box per chunk. */
  datatype SampleSet = SampleSet(pts: seq<Sample>, chunks: seq<Aabb>, ell: real)

  datatype EscapeCert = EscapeCert(
    peerId: Id, peerPose: Pose, peerVerts: seq<Point>, bodyFixed: bool, nx: real, ny: real,
    d0: real, rhs: real, escapedAt: seq<Option<nat>>)

  datatype Plan = Plan(
    session: nat, generation: nat, route: RouteDecl, sets: seq<SampleSet>, cursor: seq<nat>,
    hi: seq<nat>, sLimit: real, total: real, grantId: nat, certs: seq<EscapeCert>)

  datatype ReservedPhase = AwaitGoReceipt | GoReceived | Retiring
  datatype Reservation = Unreserved | Reserved(plan: Plan, phase: ReservedPhase)
  datatype Certificate = Uncertified | AwaitingStop(brakeId: nat) | Certified(brakeId: nat)

  /** The decision a body was told last, so that only changes are reported. */
  datatype Told = Told(emitted: bool, state: GrantState, reason: Reason, blockers: seq<Id>)

  datatype Body = Body(
    spec: VehicleSpec, shape: Shape, delta: real, pose: Pose, hx: real, hy: real, target: Pose,
    phase: Phase, session: nat, generation: nat, reservation: Reservation,
    certificate: Certificate, available: bool, uncontrolled: bool, rejected: bool, told: Told,
    blockers: seq<Id>, grants: nat, budgetSession: nat, progress: Pose, proof: Option<Pose>)
  {
    predicate HasPlan() { reservation.Reserved? }
    predicate IsRetiring() { reservation.Reserved? && reservation.phase.Retiring? }
    predicate ReceivedGo() { reservation.Reserved? && reservation.phase.GoReceived? }
    predicate Participates() {
      phase == Requesting || phase == Phase.Waiting || phase == Moving || phase == Settling
    }

    /** poseSample: the footprint at the last reported pose. */
    function At(): Sample
      requires WellFormed(shape)
    {
      MakeSample(shape, pose.x, pose.y, hx, hy, 0.0)
    }

    /** Certified, nothing reserved, not refused: a route may be installed. */
    predicate MayBeGranted() {
      Participates() && certificate.Certified? && !HasPlan() && !rejected
    }

    /** The decision id of a permission the vehicle may still be using under a live Go. */
    function LiveGrant(): Option<nat> {
      if HasPlan() && !IsRetiring() then Some(reservation.plan.grantId) else None
    }
  }

  // ---------------------------------------------------------------- well-formed sweeps

  /** The last sample of chunk k, plus one. */
  function ChunkEnd(n: nat, k: nat): nat { if (k + 1) * K_CHUNK <= n then (k + 1) * K_CHUNK else n }

  ghost predicate ChunksCover(sweep: SampleSet) {
    && |sweep.chunks| == (|sweep.pts| + K_CHUNK - 1) / K_CHUNK
    && forall i :: 0 <= i < |sweep.pts| ==> Inside(sweep.pts[i].box, sweep.chunks[i / K_CHUNK])
  }

  ghost predicate SweepOf(shape: Shape, sweep: SampleSet) {
    && ChunksCover(sweep)
    && (forall i :: 0 <= i < |sweep.pts| ==> Boxed(shape, sweep.pts[i]))
    && (forall i, j :: 0 <= i <= j < |sweep.pts| ==> sweep.pts[i].s <= sweep.pts[j].s)
  }

  /** The frozen sweeps of a plan, and a grant prefix that ends where its arc length does. */
  ghost predicate WellFormedPlan(shape: Shape, p: Plan) {
    && |p.cursor| == |p.sets| && |p.hi| == |p.sets|
    && (forall w :: 0 <= w < |p.sets| ==> SweepOf(shape, p.sets[w]))
    && (forall w :: 0 <= w < |p.sets| ==> PrefixEnds(p.sets[w], p.sLimit, p.hi[w]))
    && (forall c :: 0 <= c < |p.certs| ==> |p.certs[c].escapedAt| == |p.sets|)
  }

  /** `hi` splits the sweep at the granted arc length (with the 1e-9 of updateHi). */
  ghost predicate PrefixEnds(sweep: SampleSet, sLimit: real, hi: nat) {
    && hi <= |sweep.pts|
    && (forall i :: 0 <= i < hi ==> sweep.pts[i].s <= sLimit + 0.000000001)
    && (forall i :: hi <= i < |sweep.pts| ==> sweep.pts[i].s > sLimit + 0.000000001)
  }

  ghost predicate WellFormedBody(b: Body) {
    && WellFormed(b.shape)
    && (b.HasPlan() ==> WellFormedPlan(b.shape, b.reservation.plan))
  }

  /** The box of the samples [i, k). */
  function JoinedBoxes(pts: seq<Sample>, i: nat, k: nat): Aabb
    requires i < k <= |pts|
  {
    if k == i + 1 then pts[i].box else Join(JoinedBoxes(pts, i, k - 1), pts[k - 1].box)
  }

  function ChunkCount(n: nat): nat { (n + K_CHUNK - 1) / K_CHUNK }

  /** The boxes of the first n chunks of eight samples. */
  function ChunksOf(pts: seq<Sample>, n: nat): (chunks: seq<Aabb>)
    requires n <= ChunkCount(|pts|)
    ensures |chunks| == n
  {
    if n == 0 then []
    else ChunksOf(pts, n - 1) + [JoinedBoxes(pts, (n - 1) * K_CHUNK, ChunkEnd(|pts|, n - 1))]
  }

  /** makeSet's second half: the boxes of the chunks. */
  method MakeChunks(pts: seq<Sample>) returns (chunks: seq<Aabb>)
    ensures chunks == ChunksOf(pts, ChunkCount(|pts|))
  {
    chunks := [];
    var i := 0;
    while i < |pts|
      invariant i % K_CHUNK == 0 && i <= |pts| + K_CHUNK - 1 && |chunks| * K_CHUNK == i
      invariant |chunks| <= ChunkCount(|pts|) && chunks == ChunksOf(pts, |chunks|)
    {
      var box := pts[i].box;
      var k := i + 1;
      while k < |pts| && k < i + K_CHUNK
        invariant i < k <= i + K_CHUNK && k <= |pts| && box == JoinedBoxes(pts, i, k)
      {
        box := Join(box, pts[k].box);
        k := k + 1;
      }
      chunks := chunks + [box];
      i := i + K_CHUNK;
    }
  }

  lemma {:induction false} JoinedCovers(pts: seq<Sample>, i: nat, k: nat, j: nat)
    requires i < k <= |pts| && i <= j < k
    ensures Inside(pts[j].box, JoinedBoxes(pts, i, k))
  {
    if k > i + 1 && j < k - 1 { JoinedCovers(pts, i, k - 1, j); }
  }

  lemma {:induction false} ChunkIs(pts: seq<Sample>, n: nat, c: nat)
    requires c < n <= ChunkCount(|pts|)
    ensures ChunksOf(pts, n)[c] == JoinedBoxes(pts, c * K_CHUNK, ChunkEnd(|pts|, c))
  {
    if c < n - 1 { ChunkIs(pts, n - 1, c); }
  }

  /** Every sample lies in the box of its chunk. */
  lemma ChunksDoCover(pts: seq<Sample>, ell: real)
    ensures ChunksCover(SampleSet(pts, ChunksOf(pts, ChunkCount(|pts|)), ell))
  {
    var n := ChunkCount(|pts|);
    forall i | 0 <= i < |pts| ensures Inside(pts[i].box, ChunksOf(pts, n)[i / K_CHUNK]) {
      ChunkIs(pts, n, i / K_CHUNK);
      JoinedCovers(pts, i / K_CHUNK * K_CHUNK, ChunkEnd(|pts|, i / K_CHUNK), i);
    }
  }

  /** updateHi: the binary search for the end of the granted prefix. */
  method UpdateHi(pts: seq<Sample>, sLimit: real) returns (hi: nat)
    requires forall i, j :: 0 <= i <= j < |pts| ==> pts[i].s <= pts[j].s
    ensures PrefixEnds(SampleSet(pts, [], 0.0), sLimit, hi)
  {
    var lo := 0;
    hi := |pts|;
    while lo < hi
      invariant 0 <= lo <= hi <= |pts|
      invariant forall i :: 0 <= i < lo ==> pts[i].s <= sLimit + 0.000000001
      invariant forall i :: hi <= i < |pts| ==> pts[i].s > sLimit + 0.000000001
    {
      var mid := (lo + hi) / 2;
      if pts[mid].s <= sLimit + 0.000000001 { lo := mid + 1; } else { hi := mid; }
    }
  }

  /** The prefix is determined by its limit and grows with it. */
  lemma PrefixMonotone(sweep: SampleSet, a: real, b: real, hiA: nat, hiB: nat)
    requires PrefixEnds(sweep, a, hiA) && PrefixEnds(sweep, b, hiB) && a <= b
    ensures hiA <= hiB && (a == b ==> hiA == hiB)
  {
    if 0 < hiA { assert sweep.pts[hiA - 1].s <= b + 0.000000001; }
    if 0 < hiB && a == b { assert sweep.pts[hiB - 1].s <= a + 0.000000001; }
  }
}
