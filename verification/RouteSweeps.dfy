/** The sweep of a route (reset_planner.cpp, makeSet): the footprint at every sample, with its boxes.
    Every sweep made so is all that the verifier asks of a sweep. */
module RouteSweeps {
  import opened ResetProtocol
  import opened Geometry
  import opened Bodies
  import opened RouteModel
  import Route

  /** The loops of makeSet. */
  method MakeSet(g: Gauge, shape: Shape, model: Model, route: RouteDecl, ell: real)
    returns (sweep: SampleSet)
    requires GoodGauge(g) && WellFormed(shape)
    ensures sweep == MadeSweep(g, shape, model, route, ell)
    ensures SweepOf(shape, sweep)
  {
    hide GoodGauge, BuiltRoute, SamplesOf, MakeSample, SweepOf;
    MadeIsSweep(g, shape, model, route, ell);
    var r := Route.Build(g.trig, route.start, route.via, route.goal, ell);
    var samples := Route.SampleRoute(g, r, model == Unicycle);
    var pts := [];
    for i := 0 to |samples|
      invariant |pts| == i && forall k :: 0 <= k < i ==> pts[k] == SampleOf(g.trig, shape, samples[k])
    {
      pts := pts + [SampleOf(g.trig, shape, samples[i])];
    }
    var chunks := MakeChunks(pts);
    sweep := SampleSet(pts, chunks, ell);
    assert pts == PointsOf(g.trig, shape, samples);
  }

  /** Boxes, covered chunks and the order of arc lengths hold of every sweep that is made. */
  lemma MadeIsSweep(g: Gauge, shape: Shape, model: Model, route: RouteDecl, ell: real)
    requires GoodGauge(g) && WellFormed(shape)
    ensures SweepOf(shape, MadeSweep(g, shape, model, route, ell))
    ensures |MadeSweep(g, shape, model, route, ell).pts| >= 2
  {
    hide BuiltRoute, SamplesOf, BoxOf, Place, ChunksOf;
    var r := BuiltRoute(g.trig, route.start, route.via, route.goal, ell);
    var raw := SamplesOf(g, r, model == Unicycle);
    Route.SamplesGrow(g, r, model == Unicycle);
    var sweep := MadeSweep(g, shape, model, route, ell);
    ChunksDoCover(sweep.pts, ell);
    forall i | 0 <= i < |raw| ensures Boxed(shape, sweep.pts[i]) {
      assert sweep.pts[i] == SampleOf(g.trig, shape, raw[i]);
    }
    forall i, j | 0 <= i <= j < |raw| ensures sweep.pts[i].s <= sweep.pts[j].s {
      assert sweep.pts[i].s == raw[i].s && sweep.pts[j].s == raw[j].s;
    }
  }
}
