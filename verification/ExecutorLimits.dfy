/** How far an executing vehicle may go over a run (reset_executor.h, onGrant): only an accepted Go
    moves the limit, and none takes back more than the tolerance of one comparison. */
module ExecutorLimits {
  import opened ResetProtocol
  import opened ExecutorModel
  import opened ExecutorRuns
  import opened ExecutorLease

  const SLACK: real := 0.000000001

  predicate TakesGo(e: Exec, op: Op) { Takes(e, op) && op.g.state.Go? }

  ghost function GoesTaken(e: Exec, ops: seq<Op>): nat {
    if ops == [] then 0
    else
      var before := ops[..|ops| - 1];
      GoesTaken(e, before) + if TakesGo(After(e, before), ops[|ops| - 1]) then 1 else 0
  }

  /** Both executing in the same generation. */
  predicate Continues(e: Exec, f: Exec) {
    e.permission.Executing? && f.permission.Executing? && f.generation == e.generation
  }

  lemma GrantLimit(e: Exec, g: Grant, m: Measurement)
    requires Continues(e, OnGrant(e, g, m))
    ensures var f := OnGrant(e, g, m);
            if Accepts(e, g) && g.state.Go?
            then f.permission.motion.sLimit == g.sLimit && g.sLimit + SLACK >= e.permission.motion.sLimit
            else f.permission.motion.sLimit == e.permission.motion.sLimit
  {
    hide SameRoute, SameDecision, Dist2, WrapAngle;
  }

  lemma PollLimit(e: Exec, m: Measurement)
    requires e.permission.Executing? && Poll(e, m).permission.Executing?
    ensures Poll(e, m).permission.motion.sLimit == e.permission.motion.sLimit
    ensures Poll(e, m).generation == e.generation
  {
  }

  lemma OpLimit(e: Exec, op: Op)
    requires LocalInv(e) && Continues(e, Apply(e, op))
    ensures var f := Apply(e, op);
            if TakesGo(e, op)
            then f.permission.motion.sLimit == op.g.sLimit
                 && op.g.sLimit + SLACK >= e.permission.motion.sLimit
            else f.permission.motion.sLimit == e.permission.motion.sLimit
  {
    hide Poll, StepRest, OnGrant;
    match op
    case GrantOp(g, m) => GrantLimit(e, g, m);
    case PollOp(m) => PollLimit(e, m);
    case StepOp(m, tr) =>
      StepRestTerms(Poll(e, m), m, tr);
      PollExecutes(e, m);
      PollLimit(e, m);
    case _ => OtherTerms(e, op);
  }

  lemma PollExecutes(e: Exec, m: Measurement)
    requires e.permission.Executing?
    ensures Poll(e, m).permission.Executing?
  {
  }

  /** Over any run inside one generation the route is frozen, and the limit is below where it was by
      no more than one tolerance for each Go accepted on the way. */
  lemma {:induction false} LimitOverRun(e: Exec, ops: seq<Op>)
    requires LocalInv(e) && AllAllowed(e, ops) && Continues(e, After(e, ops)) && !Exhausted(After(e, ops))
    ensures var f := After(e, ops);
            && f.permission.motion.route == e.permission.motion.route
            && f.permission.motion.sLimit >= e.permission.motion.sLimit - (GoesTaken(e, ops) as real) * SLACK
            && (GoesTaken(e, ops) == 0 ==> f.permission.motion.sLimit == e.permission.motion.sLimit)
  {
    hide Apply, Allowed, LocalInv;
    if ops != [] {
      var before, op := ops[..|ops| - 1], ops[|ops| - 1];
      var mid := After(e, before);
      RunForward(e, ops, 0);
      RunForward(e, before, 0);
      RunForward(e, ops, |ops| - 1);
      assert ops[..0] == [] && before[..0] == [];
      assert Continues(e, mid);
      LimitOverRun(e, before);
      OpLimit(mid, op);
      OneMore(GoesTaken(e, before));
    }
  }

  lemma OneMore(n: nat)
    ensures ((n + 1) as real) * SLACK == (n as real) * SLACK + SLACK
  {
  }
}
