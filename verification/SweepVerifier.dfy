/** The loops of firstViolation, proved to give the naive answer. */
module SweepVerifier {
  import opened ResetProtocol
  import opened Geometry
  import opened Bodies
  import opened Escape
  import opened Sweep

  datatype MoverChunk = MoverChunk(body: Id, variant: nat, chunk: nat)

  /** What may touch the candidate chunk: everything else is separated from its box. */
  datatype Relevant = Relevant(insideFence: bool, statics: seq<nat>, parked: seq<Id>,
                               now: seq<Id>, movers: seq<MoverChunk>)

  ghost predicate InChunk(sweep: SampleSet, first: nat, last: nat, i: nat) {
    first <= i < last && i < |sweep.pts|
  }

  /** The movers whose reservation is still looked at: all, or only the frozen ones. */
  ghost predicate Looked(y: Query, softFound: bool, o: Id) {
    Mover(y, o, true) || (!softFound && Mover(y, o, false))
  }

  ghost predicate MoverComplete(y: Query, sweep: SampleSet, first: nat, last: nat, rel: Relevant,
                                o: Id)
    requires WellFormedQuery(y) && o in y.bodies && y.bodies[o].HasPlan()
  {
    forall i: nat :: InChunk(sweep, first, last, i) ==>
      && (NowHit(y, sweep.pts[i], o) ==> o in rel.now)
      && (forall w: nat, r: nat :: SampleHit(y, sweep.pts[i], o, w, r) ==>
            MoverChunk(o, w, r / K_CHUNK) in rel.movers)
  }

  ghost predicate ParkedComplete(y: Query, sweep: SampleSet, v: nat, first: nat, last: nat,
                                 rel: Relevant, o: Id)
    requires WellFormedQuery(y) && o in y.bodies
  {
    forall i: nat :: InChunk(sweep, first, last, i) && ParkedHit(y, sweep, v, i, o) ==> o in rel.parked
  }

  ghost predicate StaticsComplete(y: Query, sweep: SampleSet, first: nat, last: nat, rel: Relevant)
  {
    forall i: nat :: InChunk(sweep, first, last, i) ==>
      && (rel.insideFence ==>
            !OutsideFence(Placed(y.shape, sweep.pts[i]), y.world.fence, y.FenceMargin()))
      && (forall k :: 0 <= k < |y.world.statics| && StaticHit(y, sweep.pts[i], k) ==>
            k in rel.statics)
  }

  ghost predicate Sound(y: Query, rel: Relevant)
  {
    && (forall j :: 0 <= j < |rel.statics| ==> rel.statics[j] < |y.world.statics|)
    && (forall j :: 0 <= j < |rel.parked| ==> Parked(y, rel.parked[j]))
    && (forall j :: 0 <= j < |rel.now| ==>
          rel.now[j] in y.bodies && rel.now[j] != y.self && y.bodies[rel.now[j]].HasPlan())
    && (forall j :: 0 <= j < |rel.movers| ==> ChunkOf(y, rel.movers[j]))
  }

  ghost predicate ChunkOf(y: Query, mc: MoverChunk) {
    && mc.body in y.bodies && mc.body != y.self && y.bodies[mc.body].HasPlan()
    && mc.variant < |y.bodies[mc.body].reservation.plan.sets|
    && mc.chunk < |y.bodies[mc.body].reservation.plan.sets[mc.variant].chunks|
  }

  ghost predicate Complete(y: Query, sweep: SampleSet, v: nat, first: nat, last: nat,
                           softFound: bool, rel: Relevant)
    requires WellFormedQuery(y)
  {
    && Sound(y, rel)
    && StaticsComplete(y, sweep, first, last, rel)
    && (forall o :: Parked(y, o) ==> ParkedComplete(y, sweep, v, first, last, rel, o))
    && (forall o :: Looked(y, softFound, o) ==> MoverComplete(y, sweep, first, last, rel, o))
  }

  // ---------------------------------------------------------------- why skipping is safe

  lemma SeparatedSampleIsClear(y: Query, q: Sample, o: Id, qo: Sample, cb: Aabb, ob: Aabb, m: real)
    requires o in y.bodies && Inside(q.box, cb) && Inside(qo.box, ob) && Separated(cb, ob, m)
    ensures SampleClear(y.shape, q, y.bodies[o].shape, qo, m)
  {
    hide FarByRadius, ExactClear;
    SeparationShrinks(q.box, cb, qo.box, ob, m);
  }

  lemma FenceBoxIsEnough(shape: Shape, q: Sample, cb: Aabb, f: Fence, m: real)
    requires Boxed(shape, q) && Inside(q.box, cb)
    requires cb.minx >= f.xmin + m && cb.maxx <= f.xmax - m
             && cb.miny >= f.ymin + m && cb.maxy <= f.ymax - m
    ensures !OutsideFence(Placed(shape, q), f, m)
  {
    var vs := Placed(shape, q);
    forall k | 0 <= k < |vs| ensures !CornerOutside(vs[k], f, m) {
      assert InBox(vs[k], q.box);
    }
  }

  // ---------------------------------------------------------------- collecting what is relevant

  method RelevantStatics(y: Query, sweep: SampleSet, c: nat, first: nat, last: nat)
    returns (insideFence: bool, statics: seq<nat>)
    requires WellFormedQuery(y) && SweepOf(y.shape, sweep) && c < |sweep.chunks|
    requires forall i: nat :: InChunk(sweep, first, last, i) ==> i / K_CHUNK == c
    ensures StaticsComplete(y, sweep, first, last, Relevant(insideFence, statics, [], [], []))
    ensures forall j :: 0 <= j < |statics| ==> statics[j] < |y.world.statics|
  {
    hide ExactClear;
    var cb, f, mf := sweep.chunks[c], y.world.fence, y.FenceMargin();
    insideFence := !f.enabled || (cb.minx >= f.xmin + mf && cb.maxx <= f.xmax - mf
                                  && cb.miny >= f.ymin + mf && cb.maxy <= f.ymax - mf);
    if insideFence && f.enabled {
      forall i: nat | InChunk(sweep, first, last, i)
        ensures !OutsideFence(Placed(y.shape, sweep.pts[i]), f, mf)
      {
        FenceBoxIsEnough(y.shape, sweep.pts[i], cb, f, mf);
      }
    }
    statics := [];
    for k := 0 to |y.world.statics|
      invariant forall j :: 0 <= j < |statics| ==> statics[j] < k
      invariant forall j :: 0 <= j < k && j !in statics ==>
                  Separated(cb, y.world.statics[j].box, y.StaticMargin())
    {
      if !Separated(cb, y.world.statics[k].box, y.StaticMargin()) { statics := statics + [k]; }
    }
    forall i: nat, j | InChunk(sweep, first, last, i) && 0 <= j < |y.world.statics|
                  && StaticHit(y, sweep.pts[i], j)
      ensures j in statics
    {
      if j !in statics {
        SeparationShrinks(sweep.pts[i].box, cb, y.world.statics[j].box, y.world.statics[j].box,
                          y.StaticMargin());
      }
    }
  }

  method RelevantParked(y: Query, sweep: SampleSet, v: nat, c: nat, first: nat, last: nat, o: Id)
    returns (relevant: bool)
    requires WellFormedQuery(y) && SweepOf(y.shape, sweep) && c < |sweep.chunks| && Parked(y, o)
    requires forall i: nat :: InChunk(sweep, first, last, i) ==> i / K_CHUNK == c
    requires forall k :: 0 <= k < |y.certs| ==> v < |y.certs[k].escapedAt|
    ensures !relevant ==>
              forall i: nat :: InChunk(sweep, first, last, i) ==> !ParkedHit(y, sweep, v, i, o)
  {
    hide EscapeStepClear, SampleClear, SamePlace;
    var cb, other := sweep.chunks[c], y.bodies[o];
    var at := other.At();
    var cert := MatchCert(o, other.pose, y.certs);
    relevant := !Separated(cb, at.box, y.ParkedMargin())
                || (cert.Some?
                    && v < |cert.value.escapedAt|
                    && (cert.value.escapedAt[v].None? || first <= cert.value.escapedAt[v].value));
    if !relevant {
      forall i: nat | InChunk(sweep, first, last, i) ensures !ParkedHit(y, sweep, v, i, o) {
        SeparatedSampleIsClear(y, sweep.pts[i], o, at, cb, at.box, y.ParkedMargin());
      }
    }
  }

  /** The chunks of one mover that may touch the candidate chunk, and whether its pose may. */
  method RelevantMover(y: Query, sweep: SampleSet, c: nat, first: nat, last: nat, o: Id)
    returns (now: bool, movers: seq<MoverChunk>)
    requires WellFormedQuery(y) && SweepOf(y.shape, sweep) && c < |sweep.chunks|
    requires o in y.bodies && o != y.self && y.bodies[o].HasPlan()
    requires forall i: nat :: InChunk(sweep, first, last, i) ==> i / K_CHUNK == c
    ensures MoverComplete(y, sweep, first, last,
                          Relevant(false, [], [], if now then [o] else [], movers), o)
    ensures forall j :: 0 <= j < |movers| ==> ChunkOf(y, movers[j])
  {
    hide SampleClear;
    var cb, other := sweep.chunks[c], y.bodies[o];
    var m, at, plan := y.MoverMargin(other), other.At(), other.reservation.plan;
    now := !Separated(cb, at.box, m);
    if !now {
      forall i: nat | InChunk(sweep, first, last, i) ensures !NowHit(y, sweep.pts[i], o) {
        SeparatedSampleIsClear(y, sweep.pts[i], o, at, cb, at.box, m);
      }
    }
    movers := [];
    for w := 0 to |plan.sets|
      invariant forall j :: 0 <= j < |movers| ==> ChunkOf(y, movers[j])
      invariant forall i: nat, v: nat, r: nat ::
                  InChunk(sweep, first, last, i) && v < w && SampleHit(y, sweep.pts[i], o, v, r)
                  ==> MoverChunk(o, v, r / K_CHUNK) in movers
    {
      var more := RelevantChunks(y, sweep, c, first, last, o, w);
      movers := movers + more;
    }
  }

  method RelevantChunks(y: Query, sweep: SampleSet, c: nat, first: nat, last: nat, o: Id, w: nat)
    returns (movers: seq<MoverChunk>)
    requires WellFormedQuery(y) && SweepOf(y.shape, sweep) && c < |sweep.chunks|
    requires o in y.bodies && o != y.self && y.bodies[o].HasPlan()
    requires w < |y.bodies[o].reservation.plan.sets|
    requires forall i: nat :: InChunk(sweep, first, last, i) ==> i / K_CHUNK == c
    ensures forall j :: 0 <= j < |movers| ==> ChunkOf(y, movers[j])
    ensures forall i: nat, r: nat ::
              InChunk(sweep, first, last, i) && SampleHit(y, sweep.pts[i], o, w, r)
              ==> MoverChunk(o, w, r / K_CHUNK) in movers
  {
    hide SampleClear;
    var other := y.bodies[o];
    var plan, cb, m := other.reservation.plan, sweep.chunks[c], y.MoverMargin(other);
    var reserved, lo := plan.sets[w], RetainedFrom(plan.cursor[w]);
    movers := [];
    if plan.hi[w] <= lo { return; }
    var k := lo / K_CHUNK;
    while k * K_CHUNK < plan.hi[w]
      invariant lo / K_CHUNK <= k <= |reserved.chunks|
      invariant forall j :: 0 <= j < |movers| ==> ChunkOf(y, movers[j])
      invariant forall j :: lo / K_CHUNK <= j < k && MoverChunk(o, w, j) !in movers ==>
                  Separated(cb, reserved.chunks[j], m)
      decreases plan.hi[w] - k * K_CHUNK
    {
      if !Separated(cb, reserved.chunks[k], m) { movers := movers + [MoverChunk(o, w, k)]; }
      k := k + 1;
    }
    forall i: nat, r: nat
      | InChunk(sweep, first, last, i) && SampleHit(y, sweep.pts[i], o, w, r)
      ensures MoverChunk(o, w, r / K_CHUNK) in movers
    {
      if MoverChunk(o, w, r / K_CHUNK) !in movers {
        SeparatedSampleIsClear(y, sweep.pts[i], o, reserved.pts[r], cb,
                               reserved.chunks[r / K_CHUNK], m);
      }
    }
  }

  predicate Grows(a: Relevant, b: Relevant) {
    && a.insideFence == b.insideFence && a.statics == b.statics
    && a.parked <= b.parked && a.now <= b.now && a.movers <= b.movers
  }

  lemma GrowingKeeps(y: Query, sweep: SampleSet, v: nat, first: nat, last: nat, a: Relevant,
                     b: Relevant, o: Id)
    requires WellFormedQuery(y) && o in y.bodies && Grows(a, b)
    ensures ParkedComplete(y, sweep, v, first, last, a, o)
            ==> ParkedComplete(y, sweep, v, first, last, b, o)
    ensures y.bodies[o].HasPlan() && MoverComplete(y, sweep, first, last, a, o)
            ==> MoverComplete(y, sweep, first, last, b, o)
  {
    hide ParkedHit, NowHit, SampleHit;
    assert forall x :: x in a.now ==> x in b.now;
    assert forall x :: x in a.parked ==> x in b.parked;
    assert forall x :: x in a.movers ==> x in b.movers;
  }

  method CollectBody(y: Query, sweep: SampleSet, v: nat, c: nat, first: nat, last: nat,
                     softFound: bool, o: Id, was: Relevant) returns (rel: Relevant)
    requires WellFormedQuery(y) && SweepOf(y.shape, sweep) && c < |sweep.chunks|
    requires forall i: nat :: InChunk(sweep, first, last, i) ==> i / K_CHUNK == c
    requires forall k :: 0 <= k < |y.certs| ==> v < |y.certs[k].escapedAt|
    requires o in y.bodies && Sound(y, was)
    ensures Grows(was, rel) && Sound(y, rel)
    ensures Parked(y, o) ==> ParkedComplete(y, sweep, v, first, last, rel, o)
    ensures Looked(y, softFound, o) ==> MoverComplete(y, sweep, first, last, rel, o)
  {
    hide ParkedHit, NowHit, SampleHit, StaticHit, OutsideFence;
    rel := was;
    if o == y.self {
    } else if !y.bodies[o].HasPlan() {
      var relevant := RelevantParked(y, sweep, v, c, first, last, o);
      if relevant { rel := rel.(parked := rel.parked + [o]); }
    } else if !softFound || y.bodies[o].IsRetiring() {
      var now, movers := RelevantMover(y, sweep, c, first, last, o);
      rel := rel.(now := if now then rel.now + [o] else rel.now, movers := rel.movers + movers);
    }
  }

  method Collect(y: Query, sweep: SampleSet, v: nat, c: nat, first: nat, last: nat,
                 softFound: bool) returns (rel: Relevant)
    requires WellFormedQuery(y) && SweepOf(y.shape, sweep) && c < |sweep.chunks|
    requires forall i: nat :: InChunk(sweep, first, last, i) ==> i / K_CHUNK == c
    requires forall k :: 0 <= k < |y.certs| ==> v < |y.certs[k].escapedAt|
    ensures Complete(y, sweep, v, first, last, softFound, rel)
  {
    hide ParkedComplete, MoverComplete, StaticHit, OutsideFence;
    var insideFence, statics := RelevantStatics(y, sweep, c, first, last);
    rel := Relevant(insideFence, statics, [], [], []);
    for n := 0 to |y.order|
      invariant rel.insideFence == insideFence && rel.statics == statics
      invariant Sound(y, rel)
      invariant forall o :: o in y.order[..n] && Parked(y, o) ==>
                  ParkedComplete(y, sweep, v, first, last, rel, o)
      invariant forall o :: o in y.order[..n] && Looked(y, softFound, o) ==>
                  MoverComplete(y, sweep, first, last, rel, o)
    {
      var was := rel;
      rel := CollectBody(y, sweep, v, c, first, last, softFound, y.order[n], was);
      forall o | o in y.order[..n] && o in y.bodies
        ensures ParkedComplete(y, sweep, v, first, last, was, o)
                ==> ParkedComplete(y, sweep, v, first, last, rel, o)
        ensures y.bodies[o].HasPlan() && MoverComplete(y, sweep, first, last, was, o)
                ==> MoverComplete(y, sweep, first, last, rel, o)
      {
        GrowingKeeps(y, sweep, v, first, last, was, rel, o);
      }
    }
    assert y.order[..|y.order|] == y.order;
  }

  // ---------------------------------------------------------------- checking one sample

  method CheckWorld(y: Query, q: Sample, rel: Relevant) returns (hit: bool, who: Id)
    requires WellFormedQuery(y) && Sound(y, rel)
    requires rel.insideFence ==> !OutsideFence(Placed(y.shape, q), y.world.fence, y.FenceMargin())
    requires forall k :: 0 <= k < |y.world.statics| && StaticHit(y, q, k) ==> k in rel.statics
    ensures hit == WorldHit(y, q)
    ensures hit ==> who == "fence" || exists k :: 0 <= k < |y.world.statics|
                                                  && StaticHit(y, q, k) && who == y.world.statics[k].id
  {
    hide StaticHit, OutsideFence;
    who := "";
    if rel.insideFence && rel.statics == [] { return false, who; }
    if OutsideFence(Placed(y.shape, q), y.world.fence, y.FenceMargin()) { return true, "fence"; }
    for n := 0 to |rel.statics|
      invariant forall j :: 0 <= j < n ==> !StaticHit(y, q, rel.statics[j])
    {
      var k := rel.statics[n];
      if StaticHit(y, q, k) { return true, y.world.statics[k].id; }
    }
    hit := false;
  }

  method CheckParked(y: Query, sweep: SampleSet, v: nat, i: nat, rel: Relevant)
    returns (hit: bool, who: Id)
    requires WellFormedQuery(y) && Sound(y, rel) && i < |sweep.pts|
    requires forall o :: Parked(y, o) && ParkedHit(y, sweep, v, i, o) ==> o in rel.parked
    ensures hit == HitByParked(y, sweep, v, i)
    ensures hit ==> Parked(y, who) && ParkedHit(y, sweep, v, i, who)
  {
    hide ParkedHit;
    who := "";
    for n := 0 to |rel.parked|
      invariant forall j :: 0 <= j < n ==> !ParkedHit(y, sweep, v, i, rel.parked[j])
    {
      if ParkedHit(y, sweep, v, i, rel.parked[n]) { return true, rel.parked[n]; }
    }
    hit := false;
  }

  /** The retained samples of one reserved chunk. */
  method CheckChunk(y: Query, q: Sample, mc: MoverChunk) returns (hit: bool)
    requires WellFormedQuery(y) && Boxed(y.shape, q)
    requires ChunkOf(y, mc)
    ensures hit == exists r: nat :: r / K_CHUNK == mc.chunk
                                    && SampleHit(y, q, mc.body, mc.variant, r)
  {
    hide SampleClear;
    var other := y.bodies[mc.body];
    var plan, m := other.reservation.plan, y.MoverMargin(other);
    var reserved := plan.sets[mc.variant];
    if Separated(q.box, reserved.chunks[mc.chunk], m) {
      forall r: nat | r / K_CHUNK == mc.chunk ensures !SampleHit(y, q, mc.body, mc.variant, r) {
        if Retained(plan, mc.variant, r) {
          SeparatedSampleIsClear(y, q, mc.body, reserved.pts[r], q.box,
                                 reserved.chunks[mc.chunk], m);
        }
      }
      return false;
    }
    var lo, from := mc.chunk * K_CHUNK, RetainedFrom(plan.cursor[mc.variant]);
    if lo < from { lo := from; }
    var hi := ChunkEnd(|reserved.pts|, mc.chunk);
    if plan.hi[mc.variant] < hi { hi := plan.hi[mc.variant]; }
    var r := lo;
    while r < hi
      invariant lo <= r
      invariant forall k: nat :: lo <= k < r && k < hi ==> !SampleHit(y, q, mc.body, mc.variant, k)
    {
      if !SampleClear(y.shape, q, other.shape, reserved.pts[r], m) {
        assert SampleHit(y, q, mc.body, mc.variant, r);
        return true;
      }
      r := r + 1;
    }
    hit := false;
  }

  /** Movers of one kind: frozen reservations are hard conflicts, shrinking ones soft. */
  method ReservedConflict(y: Query, q: Sample, retiring: bool, rel: Relevant)
    returns (hit: bool, who: Id)
    requires WellFormedQuery(y) && Sound(y, rel) && Boxed(y.shape, q)
    requires forall o :: Mover(y, o, retiring) && NowHit(y, q, o) ==> o in rel.now
    requires forall o, w: nat, r: nat :: Mover(y, o, retiring) && SampleHit(y, q, o, w, r) ==>
               MoverChunk(o, w, r / K_CHUNK) in rel.movers
    ensures hit == HitByMover(y, q, retiring)
    ensures hit ==> Mover(y, who, retiring) && MoverHit(y, q, who)
  {
    hide NowHit, SampleHit;
    who := "";
    for n := 0 to |rel.now|
      invariant forall j :: 0 <= j < n && Mover(y, rel.now[j], retiring) ==>
                  !NowHit(y, q, rel.now[j])
    {
      var o := rel.now[n];
      if y.bodies[o].IsRetiring() == retiring && NowHit(y, q, o) {
        assert Mover(y, o, retiring) && MoverHit(y, q, o);
        return true, o;
      }
    }
    for n := 0 to |rel.movers|
      invariant forall j, r: nat :: 0 <= j < n && Mover(y, rel.movers[j].body, retiring)
                  && r / K_CHUNK == rel.movers[j].chunk
                  ==> !SampleHit(y, q, rel.movers[j].body, rel.movers[j].variant, r)
    {
      var mc := rel.movers[n];
      if y.bodies[mc.body].IsRetiring() == retiring {
        var bad := CheckChunk(y, q, mc);
        if bad { return true, mc.body; }
      }
    }
    hit := false;
  }

  // ---------------------------------------------------------------- the whole question

  /** What is known after all samples before (v, i) have been checked without a hard conflict. */
  ghost predicate Progress(y: Query, sets: seq<SampleSet>, from: seq<nat>, v: nat, i: nat, s: Reach)
    requires WellFormedSweeps(y, sets, from)
  {
    && (forall a: nat, b: nat :: Asked(sets, from, a, b) && Before(a, b, v, i) ==>
          !HardAt(y, sets, a, b)
          && (SoftAt(y, sets, a, b) ==> s.At? && s.s <= sets[a].pts[b].s))
    && (s.At? ==> exists a: nat, b: nat :: Asked(sets, from, a, b) && Before(a, b, v, i)
                    && SoftAt(y, sets, a, b) && sets[a].pts[b].s == s.s)
  }

  /** A soft conflict of this variant has been found already, not beyond s. */
  ghost predicate SoftSeen(sets: seq<SampleSet>, from: seq<nat>, v: nat, i: nat, s: Reach) {
    s.At? && exists b: nat :: Asked(sets, from, v, b) && b < i && s.s <= sets[v].pts[b].s
  }

  /** Nothing of this chunk remains to be asked. */
  predicate NothingNear(rel: Relevant) {
    rel.insideFence && rel.statics == [] && rel.parked == [] && rel.movers == [] && rel.now == []
  }

  lemma MoversAt(y: Query, sweep: SampleSet, v: nat, first: nat, last: nat, softFound: bool,
                 rel: Relevant, i: nat, retiring: bool)
    requires WellFormedQuery(y) && Complete(y, sweep, v, first, last, softFound, rel)
    requires InChunk(sweep, first, last, i) && (retiring || !softFound)
    ensures forall o :: Mover(y, o, retiring) && NowHit(y, sweep.pts[i], o) ==> o in rel.now
    ensures forall o, w: nat, r: nat :: Mover(y, o, retiring) && SampleHit(y, sweep.pts[i], o, w, r)
              ==> MoverChunk(o, w, r / K_CHUNK) in rel.movers
  {
    hide NowHit, SampleHit;
    forall o | Mover(y, o, retiring) ensures MoverComplete(y, sweep, first, last, rel, o) {
      assert Looked(y, softFound, o);
    }
  }

  method CheckSample(y: Query, sets: seq<SampleSet>, from: seq<nat>, v: nat, i: nat,
                     first: nat, last: nat, softFound: bool, rel: Relevant)
    returns (hard: bool, world: bool, soft: bool, who: Id)
    requires WellFormedSweeps(y, sets, from) && v < |sets| && first <= i < last
    requires i < |sets[v].pts| && Complete(y, sets[v], v, first, last, softFound, rel)
    ensures hard == HardAt(y, sets, v, i)
    ensures hard ==> Culprit(y, sets, v, i, world, who)
    ensures !hard && !softFound ==> soft == SoftAt(y, sets, v, i)
    ensures softFound ==> !soft
  {
    hide ParkedHit, NowHit, SampleHit, StaticHit, OutsideFence;
    var sweep := sets[v];
    var q := sweep.pts[i];
    assert InChunk(sweep, first, last, i);
    hard, world, soft, who := false, false, false, "";
    hard, who := CheckWorld(y, q, rel);
    if hard { world := true; return; }
    hard, who := CheckParked(y, sweep, v, i, rel);
    if hard { return; }
    MoversAt(y, sweep, v, first, last, softFound, rel, i, true);
    hard, who := ReservedConflict(y, q, true, rel);
    if hard || softFound { return; }
    MoversAt(y, sweep, v, first, last, softFound, rel, i, false);
    soft, who := ReservedConflict(y, q, false, rel);
  }

  lemma NothingNearIsClear(y: Query, sets: seq<SampleSet>, v: nat, i: nat, first: nat, last: nat,
                           softFound: bool, rel: Relevant)
    requires WellFormedQuery(y) && v < |sets| && i < |sets[v].pts| && first <= i < last
    requires Complete(y, sets[v], v, first, last, softFound, rel) && NothingNear(rel)
    ensures !HardAt(y, sets, v, i) && (!softFound ==> !SoftAt(y, sets, v, i))
  {
    hide ParkedHit, NowHit, SampleHit, StaticHit, OutsideFence;
    assert InChunk(sets[v], first, last, i);
    MoversAt(y, sets[v], v, first, last, softFound, rel, i, true);
    if !softFound { MoversAt(y, sets[v], v, first, last, softFound, rel, i, false); }
  }

  /** Progress over the samples [i, j) of one variant that are known to be clear. */
  lemma ProgressExtends(y: Query, sets: seq<SampleSet>, from: seq<nat>, v: nat, i: nat, j: nat,
                        s: Reach)
    requires WellFormedSweeps(y, sets, from) && i <= j && Progress(y, sets, from, v, i, s)
    requires forall b: nat :: i <= b < j && Asked(sets, from, v, b) ==>
               !HardAt(y, sets, v, b)
               && (SoftAt(y, sets, v, b) ==> s.At? && s.s <= sets[v].pts[b].s)
    ensures Progress(y, sets, from, v, j, s)
  {
    hide HardAt, SoftAt, SweepOf;
    if s.At? {
      var a: nat, b: nat :| Asked(sets, from, a, b) && Before(a, b, v, i)
                            && SoftAt(y, sets, a, b) && sets[a].pts[b].s == s.s;
      assert Before(a, b, v, j);
    }
  }

  /** One more sample without a hard conflict. */
  lemma ProgressStep(y: Query, sets: seq<SampleSet>, from: seq<nat>, v: nat, i: nat, s: Reach,
                     softFound: bool, soft: bool, s2: Reach)
    requires WellFormedSweeps(y, sets, from) && Progress(y, sets, from, v, i, s)
    requires Asked(sets, from, v, i) && !HardAt(y, sets, v, i)
    requires softFound ==> SoftSeen(sets, from, v, i, s) && !soft
    requires !softFound ==> soft == SoftAt(y, sets, v, i)
    requires s2 == if soft && (s.Unbounded? || sets[v].pts[i].s < s.s) then At(sets[v].pts[i].s) else s
    ensures Progress(y, sets, from, v, i + 1, s2)
    ensures softFound || soft ==> SoftSeen(sets, from, v, i + 1, s2)
  {
    hide HardAt, SoftAt, SweepOf, WellFormedQuery;
    if softFound { SoftSeenLater(y, sets, from, v, i, s, i); }
    if soft && s2 != s {
      assert Before(v, i, v, i + 1) && sets[v].pts[i].s == s2.s;
    } else if s.At? {
      var a: nat, b: nat :| Asked(sets, from, a, b) && Before(a, b, v, i)
                            && SoftAt(y, sets, a, b) && sets[a].pts[b].s == s.s;
      assert Before(a, b, v, i + 1);
    }
  }

  /** The first sample with a hard conflict, in checking order. */
  lemma ProgressToHard(y: Query, sets: seq<SampleSet>, from: seq<nat>, v: nat, i: nat, s: Reach)
    requires WellFormedSweeps(y, sets, from) && Progress(y, sets, from, v, i, s)
    requires Asked(sets, from, v, i) && HardAt(y, sets, v, i)
    ensures FirstHard(y, sets, from, v, i)
  {
    hide HardAt, SoftAt, SweepOf, WellFormedQuery;
  }

  /** A soft conflict of this variant seen before sample i still bounds what lies beyond it. */
  lemma SoftSeenLater(y: Query, sets: seq<SampleSet>, from: seq<nat>, v: nat, i: nat, s: Reach,
                      b: nat)
    requires WellFormedSweeps(y, sets, from) && SoftSeen(sets, from, v, i, s)
    requires i <= b && Asked(sets, from, v, b)
    ensures s.s <= sets[v].pts[b].s
  {
    assert SweepOf(y.shape, sets[v]);
    hide Boxed, ChunksCover;
  }

  method CheckSamples(y: Query, sets: seq<SampleSet>, from: seq<nat>, v: nat, c: nat,
                      softBefore: bool, s0: Violation) returns (r: Violation, softFound: bool)
    requires WellFormedSweeps(y, sets, from) && v < |sets| && c < |sets[v].chunks|
    requires from[v] / K_CHUNK <= c && !s0.hard && !s0.world
    requires Progress(y, sets, from, v, c * K_CHUNK, s0.s)
    requires softBefore ==> SoftSeen(sets, from, v, c * K_CHUNK, s0.s)
    ensures r.hard ==> Blames(y, sets, from, r)
    ensures !r.hard ==> Progress(y, sets, from, v, (c + 1) * K_CHUNK, r.s) && !r.world
    ensures !r.hard && softFound ==> SoftSeen(sets, from, v, (c + 1) * K_CHUNK, r.s)
  {
    hide HardAt, SoftAt, Progress, FirstHard, Complete, Culprit;
    r, softFound := s0, softBefore;
    var sweep := sets[v];
    var first := if c * K_CHUNK < from[v] then from[v] else c * K_CHUNK;
    var last := ChunkEnd(|sweep.pts|, c);
    var rel := Collect(y, sweep, v, c, first, last, softFound);
    if NothingNear(rel) {
      forall b: nat | c * K_CHUNK <= b < (c + 1) * K_CHUNK && Asked(sets, from, v, b)
        ensures !HardAt(y, sets, v, b)
        ensures SoftAt(y, sets, v, b) ==> s0.s.At? && s0.s.s <= sets[v].pts[b].s
      {
        NothingNearIsClear(y, sets, v, b, first, last, softFound, rel);
        if softFound { SoftSeenLater(y, sets, from, v, c * K_CHUNK, s0.s, b); }
      }
      ProgressExtends(y, sets, from, v, c * K_CHUNK, (c + 1) * K_CHUNK, s0.s);
      return;
    }
    var i := first;
    ProgressExtends(y, sets, from, v, c * K_CHUNK, first, r.s);
    while i < last
      invariant first <= i <= (c + 1) * K_CHUNK && !r.hard && !r.world
      invariant softBefore ==> softFound
      invariant Progress(y, sets, from, v, i, r.s)
      invariant softFound ==> SoftSeen(sets, from, v, i, r.s)
    {
      CompleteWhenSoft(y, sweep, v, first, last, softBefore, softFound, rel);
      var hard, world, soft, who := CheckSample(y, sets, from, v, i, first, last, softFound, rel);
      var q := sweep.pts[i];
      if hard {
        ProgressToHard(y, sets, from, v, i, r.s);
        r := Violation(true, world, At(q.s), Some(who));
        return;
      }
      ghost var s, found := r.s, softFound;
      if soft {
        softFound := true;
        if r.s.Unbounded? || q.s < r.s.s { r := r.(s := At(q.s), who := Some(who)); }
      }
      ProgressStep(y, sets, from, v, i, s, found, soft, r.s);
      i := i + 1;
    }
    ProgressExtends(y, sets, from, v, i, (c + 1) * K_CHUNK, r.s);
  }

  lemma CompleteWhenSoft(y: Query, sweep: SampleSet, v: nat, first: nat, last: nat,
                         before: bool, softFound: bool, rel: Relevant)
    requires WellFormedQuery(y) && Complete(y, sweep, v, first, last, before, rel)
    requires before ==> softFound
    ensures Complete(y, sweep, v, first, last, softFound, rel)
  {
  }

  /** The fast verifier answers what checking every sample would: the same hard flag and the same
      arc length, for any bodies, certificates, world and start indices. */
  method FirstViolation(y: Query, sets: seq<SampleSet>, from: seq<nat>) returns (r: Violation)
    requires WellFormedSweeps(y, sets, from)
    ensures NaiveAnswer(y, sets, from, r.hard, r.s)
    ensures Blames(y, sets, from, r) && (r.world ==> r.hard)
  {
    hide HardAt, SoftAt, SweepOf, Culprit;
    r := Violation(false, false, Unbounded, None);
    for v := 0 to |sets|
      invariant !r.hard && !r.world && Progress(y, sets, from, v, 0, r.s)
    {
      var softFound := false;
      var c := from[v] / K_CHUNK;
      while c < |sets[v].chunks|
        invariant from[v] / K_CHUNK <= c
        invariant !r.hard && !r.world && Progress(y, sets, from, v, c * K_CHUNK, r.s)
        invariant softFound ==> SoftSeen(sets, from, v, c * K_CHUNK, r.s)
      {
        r, softFound := CheckSamples(y, sets, from, v, c, softFound, r);
        if r.hard { return; }
        c := c + 1;
      }
      assert |sets[v].pts| <= c * K_CHUNK by { ChunksReachEnd(y, sets, from, v, c); }
    }
  }

  lemma ChunksReachEnd(y: Query, sets: seq<SampleSet>, from: seq<nat>, v: nat, c: nat)
    requires WellFormedSweeps(y, sets, from) && v < |sets| && c >= |sets[v].chunks|
    ensures |sets[v].pts| <= c * K_CHUNK
  {
    assert SweepOf(y.shape, sets[v]);
  }
}
