/** Escape certificates (reset_planner.cpp, EscapeCert and escapeStepClear): a halfspace frozen at
    admission that every swept step keeps, in continuous time and not only at the samples. */
module Escape {
  import opened ResetProtocol
  import opened Geometry
  import opened Bodies

  const TOL: real := 0.000000001

  function Cross(ax: real, ay: real, cx: real, cy: real): real { ax * cy - ay * cx }

  /** u lies on the shorter arc from h0 to h1 (the sign tests of off in [lo, hi]). */
  predicate OnArc(h0x: real, h0y: real, h1x: real, h1y: real, ux: real, uy: real) {
    if Cross(h0x, h0y, h1x, h1y) >= 0.0
    then Cross(h0x, h0y, ux, uy) >= 0.0 && Cross(ux, uy, h1x, h1y) >= 0.0
    else Cross(h0x, h0y, ux, uy) <= 0.0 && Cross(ux, uy, h1x, h1y) <= 0.0
  }

  /** C + A cos + B sin over the arc: only the critical heading -(A, B) needs a test of its own. */
  predicate InteriorClear(a: real, b: real, c: real, floor: real, prev: Sample, q: Sample) {
    OnArc(prev.hx, prev.hy, q.hx, q.hy, -a, -b) ==>
      c - floor >= 0.0 && (c - floor) * (c - floor) >= a * a + b * b
  }

  predicate Tiny(a: real, b: real) { a * a + b * b < 0.000000000000000000000001 }

  /** Coefficients of one corner's projection as a function of the heading about the pivot:
      world frame for self's corner k, body frame for the peer's corner k. */
  function SelfCoefficients(shape: Shape, k: nat, ell: real, cert: EscapeCert): (real, real)
    requires k < |shape.corners|
  {
    var bx, y := shape.corners[k].x - ell, shape.corners[k].y;
    (cert.nx * bx + cert.ny * y, cert.ny * bx - cert.nx * y)
  }

  function PeerCoefficients(cert: EscapeCert, k: nat, pivot: Point): (real, real)
    requires k < |cert.peerVerts|
  {
    var dx, dy := cert.peerVerts[k].x - pivot.x, cert.peerVerts[k].y - pivot.y;
    (cert.nx * dx + cert.ny * dy, cert.nx * dy - cert.ny * dx)
  }

  function Pivot(q: Sample, ell: real): Point { Point(q.x + ell * q.hx, q.y + ell * q.hy) }

  /** The projection the certificate bounds, for corner k at a placement. */
  function Projection(shape: Shape, cert: EscapeCert, k: nat, x: real, y: real, hx: real, hy: real):
    real
    requires k < if cert.bodyFixed then |cert.peerVerts| else |shape.corners|
  {
    if cert.bodyFixed then
      var dx, dy := cert.peerVerts[k].x - x, cert.peerVerts[k].y - y;
      cert.nx * (dx * hx + dy * hy) + cert.ny * (-dx * hy + dy * hx)
    else
      Dot(cert.nx, cert.ny, PlaceCorner(shape, k, x, y, hx, hy))
  }

  function Corners(shape: Shape, cert: EscapeCert): nat {
    if cert.bodyFixed then |cert.peerVerts| else |shape.corners|
  }

  predicate KeepsAt(shape: Shape, cert: EscapeCert, q: Sample) {
    forall k :: 0 <= k < Corners(shape, cert) ==>
      Projection(shape, cert, k, q.x, q.y, q.hx, q.hy) >= cert.rhs - TOL
  }

  predicate TurnClear(shape: Shape, cert: EscapeCert, ell: real, prev: Sample, q: Sample) {
    var pivot := Pivot(q, ell);
    forall k :: 0 <= k < Corners(shape, cert) ==>
      CornerTurnClear(shape, cert, k, ell, pivot, prev, q)
  }

  predicate CornerTurnClear(shape: Shape, cert: EscapeCert, k: nat, ell: real, pivot: Point,
                            prev: Sample, q: Sample)
    requires k < Corners(shape, cert)
  {
    var (a, b) := if cert.bodyFixed then PeerCoefficients(cert, k, pivot)
                  else SelfCoefficients(shape, k, ell, cert);
    var c := if cert.bodyFixed then cert.nx * ell else Dot(cert.nx, cert.ny, pivot);
    Tiny(a, b) || InteriorClear(a, b, c, cert.rhs - TOL, prev, q)
  }

  predicate EscapeStepClear(shape: Shape, sweep: SampleSet, i: nat, cert: EscapeCert)
    requires i < |sweep.pts|
  {
    var q := sweep.pts[i];
    && KeepsAt(shape, cert, q)
    && (i == 0
        || var prev := sweep.pts[i - 1];
           q.s != prev.s || (q.hx == prev.hx && q.hy == prev.hy)
           || TurnClear(shape, cert, sweep.ell, prev, q))
  }

  // ---------------------------------------------------------------- how a certificate is made

  /** What the closest pair of two footprints that stand too close answers (closestPair): whether it
      is a corner of the peer at an edge of the vehicle, the unit normal from the peer to the vehicle,
      and the gap. */
  datatype Contact = Contact(peer: Id, bodyFixed: bool, nx: real, ny: real, gap: real)

  /** The furthest corner along n. */
  function Furthest(nx: real, ny: real, vs: seq<Point>): (m: real)
    requires |vs| > 0
    ensures forall k :: 0 <= k < |vs| ==> Dot(nx, ny, vs[k]) <= m
    ensures exists k :: 0 <= k < |vs| && Dot(nx, ny, vs[k]) == m
  {
    var n := |vs| - 1;
    var d := Dot(nx, ny, vs[n]);
    if n == 0 then d else Max(Furthest(nx, ny, vs[..n]), d)
  }

  /** The frozen halfspace: in the world frame the inherited gap beyond the furthest corner of the
      peer; in the body frame, which it is turned into, beyond the furthest corner of the vehicle. */
  function CertOf(c: Contact, shape: Shape, hx: real, hy: real, peerPose: Pose, peerVerts: seq<Point>):
    EscapeCert
    requires |shape.corners| > 0 && |peerVerts| > 0
  {
    if !c.bodyFixed then
      EscapeCert(c.peer, peerPose, peerVerts, false, c.nx, c.ny, c.gap,
                 Furthest(c.nx, c.ny, peerVerts) + c.gap, [])
    else
      var nx, ny := -c.nx * hx - c.ny * hy, c.nx * hy - c.ny * hx;
      EscapeCert(c.peer, peerPose, peerVerts, true, nx, ny, c.gap,
                 Furthest(nx, ny, shape.corners) + c.gap, [])
  }

  /** The first sample from i on at which the footprint is clear of the peer by the margin. */
  function FirstClear(shape: Shape, sweep: SampleSet, peer: Shape, at: Sample, m: real, i: nat):
    (r: Option<nat>)
    requires i <= |sweep.pts|
    ensures r.Some? ==> i <= r.value < |sweep.pts|
    decreases |sweep.pts| - i
  {
    if i == |sweep.pts| then None
    else if SampleClear(shape, sweep.pts[i], peer, at, m) then Some(i)
    else FirstClear(shape, sweep, peer, at, m, i + 1)
  }
}
