/** Exactly one Result per session, in session order (reset_executor.h: prepare, install, end,
    peekResult, commitResult). The ledger is what an observer of the owner's operations writes down:
    the sessions installed, the results recorded and the results delivered. */
module ExecutorResults {
  import opened ResetProtocol
  import opened ExecutorModel
  import opened ExecutorRuns

  datatype Ledger = Ledger(installed: seq<nat>, ended: seq<Result>, delivered: seq<Result>)

  /** The active run of `e` ends with this operation (`finish` alone ends it without a result). */
  predicate EndsRun(e: Exec, op: Op) {
    e.Active() && (op.InstallOp? || (!op.FinishOp? && !Apply(e, op).Active()))
  }

  ghost function LedgerOf(e: Exec, ops: seq<Op>): Ledger {
    if ops == [] then Ledger([], [], [])
    else
      var before, op := ops[..|ops| - 1], ops[|ops| - 1];
      Written(LedgerOf(e, before), After(e, before), op)
  }

  ghost function Written(l: Ledger, e: Exec, op: Op): Ledger {
    Ledger(
      l.installed + (if op.InstallOp? then [op.header.session] else []),
      l.ended + (if EndsRun(e, op) then [Apply(e, op).slots.result] else []),
      l.delivered + (if op.CommitOp? && PeekResult(e).Some? then [PeekResult(e).value] else []))
  }

  /** The owners abort before they finish (unicycle_ugv_controller.cpp, the Reset Exit handler). */
  ghost predicate AbortsFirst(e: Exec, ops: seq<Op>) {
    ops == [] || (AbortsFirst(e, ops[..|ops| - 1])
                  && (ops[|ops| - 1].FinishOp? ==> !After(e, ops[..|ops| - 1]).Active()))
  }

  function Undelivered(s: Slots): seq<Result> {
    (if s.previousPending then [s.previous] else []) + (if s.pending then [s.result] else [])
  }

  ghost predicate LedgerInv(e: Exec, l: Ledger) {
    && (e.slots.previousPending ==> e.slots.pending && !e.Active())
    && l.delivered + Undelivered(e.slots) == l.ended
    && |l.installed| == |l.ended| + (if e.Active() then 1 else 0)
    && (forall i :: 0 <= i < |l.ended| ==>
          l.ended[i].session == l.installed[i] && l.ended[i].outcome != NoOutcome)
    && (e.Active() ==> l.installed[|l.ended|] == e.header.session)
  }

  /** The run side of one operation, `install` and `commit` apart: it goes on, or it has ended. */
  lemma OpSlots(e: Exec, op: Op)
    requires LocalInv(e) && Allowed(e, op) && !op.InstallOp? && !op.CommitOp?
    requires op.FinishOp? ==> !e.Active()
    ensures var f := Apply(e, op);
            if EndsRun(e, op) then EndedOnce(e, f)
            else f.slots == e.slots && f.Active() == e.Active()
                 && (e.Active() ==> f.header == e.header)
  {
    hide Step, Poll, SessionDue, Accepts, Dist2, WrapAngle;
    match op
    case StepOp(m, tr) => StepFrames(e, m, tr);
    case PollOp(m) => PollFrame(e, m);
    case GrantOp(g, m) =>
      if Accepts(e, g) && g.state.Reject? && e.Active() {
        EndFrame(Remembered(e, g, m), RejectOutcome(g.reason), g.reason, g.detail, m);
      }
    case _ =>
  }

  lemma InstallSlots(e: Exec, run: Run, header: Header, m: Measurement)
    requires LocalInv(e) && Allowed(e, InstallOp(run, header, m))
    ensures var f := Install(e, run, header, m);
            && f.Active() && f.header == header
            && (if e.Active() then EndedOnce(e, f) else f.slots == e.slots)
  {
    hide Dist2, WrapAngle;
    if e.Active() { EndFrame(e, Stopped, NoReason, "replaced by a new Reset", m); }
  }

  lemma WrittenKeepsInv(l: Ledger, e: Exec, op: Op)
    requires LocalInv(e) && Allowed(e, op) && LedgerInv(e, l)
    requires op.FinishOp? ==> !e.Active()
    ensures LedgerInv(Apply(e, op), Written(l, e, op))
  {
    hide Step, Poll, Install, OnGrant, Observe, ZeroPublished, SetSpec, Abort, Finish;
    hide MarkPublished, SessionDue;
    if op.InstallOp? {
      InstallSlots(e, op.run, op.header, op.m);
    } else if !op.CommitOp? {
      OpSlots(e, op);
    }
  }

  /** Over any run of the owner: what was delivered, followed by what still waits in the two slots,
      is exactly what was recorded; the recorded results are those of the installed sessions, in
      order, one each, and only the session that is active now has none yet. */
  lemma {:induction false} OneResultPerSession(cfg: ExecutorConfig, spec: VehicleSpec, ops: seq<Op>)
    requires AllAllowed(Fresh(cfg, spec), ops) && AbortsFirst(Fresh(cfg, spec), ops)
    ensures LedgerInv(After(Fresh(cfg, spec), ops), LedgerOf(Fresh(cfg, spec), ops))
  {
    var e := Fresh(cfg, spec);
    if ops != [] {
      var before := ops[..|ops| - 1];
      OneResultPerSession(cfg, spec, before);
      RunForward(e, before, 0);
      WrittenKeepsInv(LedgerOf(e, before), After(e, before), ops[|ops| - 1]);
    }
  }

  /** Delivery is a prefix of the ended sessions in the order they were installed. */
  lemma DeliveredInSessionOrder(cfg: ExecutorConfig, spec: VehicleSpec, ops: seq<Op>, i: nat)
    requires AllAllowed(Fresh(cfg, spec), ops) && AbortsFirst(Fresh(cfg, spec), ops)
    requires i < |LedgerOf(Fresh(cfg, spec), ops).delivered|
    ensures var l := LedgerOf(Fresh(cfg, spec), ops);
            i < |l.ended| && i < |l.installed| && l.delivered[i].session == l.installed[i]
            && l.delivered[i] == l.ended[i]
  {
    var e := Fresh(cfg, spec);
    OneResultPerSession(cfg, spec, ops);
    var l := LedgerOf(e, ops);
    assert l.ended[i] == (l.delivered + Undelivered(After(e, ops).slots))[i];
  }
}
