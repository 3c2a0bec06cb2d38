/** What the planner says in one update, and what it thereby leaves: decision ids are handed out in
    order, and the last word to a vehicle always matches the permission it is left with. */
module PlannerOut {
  import opened ResetProtocol
  import opened Bodies
  import opened PlannerModel
  import opened Reservations
  import Sweep

  /** A live permission rests on a certified stop. */
  predicate LiveCertified(b: Body) { b.LiveGrant().Some? ==> b.certificate.Certified? }

  function Permission(d: Decision): Option<nat> {
    if d.state.Go? then Some(d.grantId) else None
  }

  /** At most one decision is added, with the next id, and it tells the permission that is left. */
  ghost predicate SaysOne(t: Desk, r: Desk) {
    && r.id == t.id && LiveCertified(r.body)
    && (|| (r.out == t.out && r.next == t.next && r.body.LiveGrant() == t.body.LiveGrant())
        || (&& |r.out| == |t.out| + 1 && r.out[..|t.out|] == t.out && r.next == t.next + 1
            && var d := r.out[|t.out|];
            && d.grantId == t.next && d.id == t.id && r.body.LiveGrant() == Permission(d)))
  }

  ghost predicate SilentOnGo(t: Desk, r: Desk) {
    |r.out| > |t.out| ==> !r.out[|r.out| - 1].state.Go?
  }

  lemma BrakeSays(t: Desk, reason: Reason, detail: string, blockers: seq<Id>)
    requires LiveCertified(t.body)
    ensures SaysOne(t, EmitBrake(t, reason, detail, blockers))
    ensures SilentOnGo(t, EmitBrake(t, reason, detail, blockers))
  {
  }

  lemma RejectSays(t: Desk, reason: Reason, detail: string, blockers: seq<Id>)
    requires LiveCertified(t.body)
    ensures SaysOne(t, EmitReject(t, reason, detail, blockers))
    ensures SilentOnGo(t, EmitReject(t, reason, detail, blockers))
  {
  }

  lemma HoldSays(t: Desk, reason: Reason, detail: string, blockers: seq<Id>)
    requires LiveCertified(t.body) && t.body.LiveGrant().None?
    ensures SaysOne(t, EmitHold(t, reason, detail, blockers))
    ensures SilentOnGo(t, EmitHold(t, reason, detail, blockers))
  {
  }

  lemma InstallSays(t: Desk, p: Plan, hi: seq<nat>)
    requires LiveCertified(t.body) && t.body.MayBeGranted()
    ensures SaysOne(t, InstallPlan(t, p, hi))
  {
  }

  lemma ExtendSays(cfg: PlannerConfig, t: Desk, worldChanged: bool, answer: Sweep.Violation,
                   hi: seq<nat>)
    requires LiveCertified(t.body)
    ensures SaysOne(t, ExtendOne(cfg, t, worldChanged, answer, hi))
    ensures t.body.LiveGrant().None? ==> ExtendOne(cfg, t, worldChanged, answer, hi) == t
  {
    hide EmitBrake;
    BrakeSays(t, SceneChanged, "the scene changed under the route", Blockers(answer));
    BrakeSays(t, Replan, "the rest of the route is blocked", Blockers(answer));
  }

  lemma AdvanceSays(t: Desk, cursor: seq<nat>)
    requires LiveCertified(t.body)
    ensures SaysOne(t, Advanced(t, cursor)) && Advanced(t, cursor).out == t.out
  {
    hide Progressed;
  }

  // ---------------------------------------------------------------- several decisions in a row

  /** The last decision about a vehicle. */
  function LastFor(out: seq<Decision>, id: Id): Option<Decision> {
    if out == [] then None
    else if out[|out| - 1].id == id then Some(out[|out| - 1])
    else LastFor(out[..|out| - 1], id)
  }

  lemma LastForAppended(out: seq<Decision>, d: Decision, id: Id)
    ensures LastFor(out + [d], id) == if d.id == id then Some(d) else LastFor(out, id)
  {
    assert (out + [d])[..|out|] == out;
  }

  lemma {:induction false} LastForIsIn(out: seq<Decision>, id: Id)
    ensures LastFor(out, id).Some? ==> LastFor(out, id).value in out && LastFor(out, id).value.id == id
  {
    if out != [] { LastForIsIn(out[..|out| - 1], id); }
  }

  /** What was said since the outbox was empty and the ids stood at `base`. */
  ghost predicate InOrder(base: nat, next: nat, out: seq<Decision>) {
    && base <= next
    && (forall i :: 0 <= i < |out| ==> base <= out[i].grantId < next)
    && (forall i, j :: 0 <= i < j < |out| ==> out[i].grantId < out[j].grantId)
  }

  /** The permission a body is left with: what it was told last, or what it had before. */
  ghost predicate WordHolds(before: Option<nat>, last: Option<Decision>, b: Body) {
    b.LiveGrant() == match last case None => before case Some(d) => Permission(d)
  }

  /** A vehicle the station knew before, or a newcomer without permission. */
  function PermissionAt(bodies: map<Id, Body>, id: Id): Option<nat> {
    if id in bodies then bodies[id].LiveGrant() else None
  }

  ghost predicate Speaks(base: Station, st: Station) {
    && InOrder(base.next, st.next, st.out)
    && (forall id :: id in base.bodies ==> id in st.bodies)
    && (forall i :: 0 <= i < |st.out| ==> st.out[i].id in st.bodies)
    && (forall id :: id in st.bodies ==>
          LiveCertified(st.bodies[id])
          && WordHolds(PermissionAt(base.bodies, id), LastFor(st.out, id), st.bodies[id]))
  }

  /** One body says at most one thing: the order of ids and all last words still hold. */
  lemma OneSaysMore(base: Station, st: Station, r: Desk)
    requires Speaks(base, st) && r.id in st.bodies && SaysOne(st.At(r.id), r)
    ensures Speaks(base, st.Put(r))
  {
    var st' := st.Put(r);
    if r.out != st.out {
      var d := r.out[|st.out|];
      assert r.out == st.out + [d];
      forall id | id in st'.bodies
        ensures LastFor(st'.out, id) == if d.id == id then Some(d) else LastFor(st.out, id)
      {
        LastForAppended(st.out, d, id);
      }
    }
  }

  ghost predicate GoFree(out: seq<Decision>) {
    forall i :: 0 <= i < |out| ==> !out[i].state.Go?
  }

  // ---------------------------------------------------------------- reports

  lemma AnchorSays(kit: Kit, t: Desk, v: Vehicle, isNew: bool)
    requires LiveCertified(t.body)
    ensures SaysOne(t, t.(body := Anchored(kit, t.body, v, isNew)))
  {
    hide StaleQuiescent;
  }

  lemma RequestSays(t: Desk, v: Vehicle, newRequest: bool, isNew: bool)
    requires LiveCertified(t.body)
    ensures SaysOne(t, Requested(t, v, newRequest, isNew))
    ensures SilentOnGo(t, Requested(t, v, newRequest, isNew))
  {
  }

  lemma WithdrawSays(t: Desk, v: Vehicle)
    requires LiveCertified(t.body)
    ensures SaysOne(t, Withdrawn(t, v)) && SilentOnGo(t, Withdrawn(t, v))
  {
  }

  lemma ReleaseSays(kit: Kit, t: Desk, v: Vehicle, newRequest: bool)
    requires LiveCertified(t.body)
    ensures SaysOne(t, Released(kit, t, v, newRequest))
    ensures SilentOnGo(t, Released(kit, t, v, newRequest))
  {
    hide EmitHold;
    if !t.halted && ExactCertificate(t.body, v, newRequest) {
      HoldSays(t.(body := ReleasedBody(kit, t.body, v)), NoReason, "Reset permission retired", []);
    }
  }

  lemma ReceiptSays(t: Desk, v: Vehicle)
    requires LiveCertified(t.body)
    ensures SaysOne(t, Received(t, v)) && Received(t, v).out == t.out
  {
  }

  lemma PutPut(st: Station, t: Desk, r: Desk)
    requires r.id == t.id && t.id in st.bodies
    ensures st.Put(t).Put(r) == st.Put(r) && st.Put(t).At(t.id) == t
  {
    assert st.Put(t).Put(r).bodies == st.Put(r).bodies;
  }

  /** A step on one desk, seen from the whole station. */
  lemma DeskSpeaks(base: Station, st: Station, t: Desk, r: Desk)
    requires Speaks(base, st.Put(t)) && t.id in st.bodies && SaysOne(t, r)
    ensures Speaks(base, st.Put(r))
  {
    hide SaysOne, Speaks;
    SaysOneOfItself(t, r);
    PutPut(st, t, r);
    OneSaysMore(base, st.Put(t), r);
  }

  lemma StaysGoFree(t: Desk, r: Desk)
    requires SaysOne(t, r) && SilentOnGo(t, r) && GoFree(t.out)
    ensures GoFree(r.out)
  {
    assert forall i :: 0 <= i < |t.out| ==> r.out == t.out || r.out[i] == r.out[..|t.out|][i];
  }

  lemma SaysOneOfItself(t: Desk, r: Desk)
    requires SaysOne(t, r)
    ensures r.id == t.id && LiveCertified(r.body)
    ensures r.out == t.out || (|r.out| == |t.out| + 1 && r.out[..|t.out|] == t.out)
  {
  }

  lemma SyncSpeaksOnDesk(base: Station, st: Station, t: Desk, v: Vehicle, isNew: bool)
    requires Speaks(base, st.Put(t)) && t.id in st.bodies && LiveCertified(t.body)
    ensures Speaks(base, st.Put(SyncBody(st.kit, t, v, isNew)))
    ensures GoFree(t.out) ==> GoFree(SyncBody(st.kit, t, v, isNew).out)
  {
    hide Speaks, SaysOne, SilentOnGo, Outdated, Anchored, Requested, Withdrawn, Released, Received;
    hide LiveCertified, GoFree;
    if !t.halted && (isNew || !Outdated(v, t.body)) {
      var newRequest := NewRequest(t.body, v);
      var t1 := t.(body := Anchored(st.kit, t.body, v, isNew));
      var t2 := Requested(t1, v, newRequest, isNew);
      AnchorSays(st.kit, t, v, isNew);
      DeskSpeaks(base, st, t, t1);
      SaysOneOfItself(t, t1);
      RequestSays(t1, v, newRequest, isNew);
      DeskSpeaks(base, st, t1, t2);
      SaysOneOfItself(t1, t2);
      if GoFree(t.out) { StaysGoFree(t1, t2); }
      RestSpeaksOnDesk(base, st, t2, v, newRequest);
    }
  }

  lemma RestSpeaksOnDesk(base: Station, st: Station, t: Desk, v: Vehicle, newRequest: bool)
    requires Speaks(base, st.Put(t)) && t.id in st.bodies && LiveCertified(t.body)
    ensures Speaks(base, st.Put(SyncRest(st.kit, t, v, newRequest)))
    ensures GoFree(t.out) ==> GoFree(SyncRest(st.kit, t, v, newRequest).out)
  {
    hide Speaks, SaysOne, SilentOnGo, Withdrawn, Released, Received, LiveCertified, GoFree;
    if t.body.generation != 0 {
      var t2 := Withdrawn(t, v);
      var t3 := Released(st.kit, t2, v, newRequest);
      WithdrawSays(t, v);
      DeskSpeaks(base, st, t, t2);
      SaysOneOfItself(t, t2);
      if GoFree(t.out) { StaysGoFree(t, t2); }
      ReleaseSays(st.kit, t2, v, newRequest);
      DeskSpeaks(base, st, t2, t3);
      SaysOneOfItself(t2, t3);
      if GoFree(t2.out) { StaysGoFree(t2, t3); }
      ReceiptSays(t3, v);
      DeskSpeaks(base, st, t3, Received(t3, v));
    }
  }

  lemma NewcomerSpeaks(base: Station, st: Station, v: Vehicle)
    requires Speaks(base, st)
    ensures Speaks(base, WithVehicle(st, v))
  {
    if v.id !in st.bodies {
      LastForIsIn(st.out, v.id);
      assert NewBody(st.kit, v).LiveGrant().None?;
    }
  }

  lemma SyncSpeaks(base: Station, st: Station, v: Vehicle)
    requires Shaped(st) && Speaks(base, st)
    ensures Speaks(base, SyncVehicle(st, v))
    ensures GoFree(st.out) ==> GoFree(SyncVehicle(st, v).out)
  {
    hide SyncVehicle, SyncBody, Outdated, Speaks, GoFree, KitShaped, GoodKit;
    SyncIsPut(st, v);
    if st.halted { HaltedStays(st, v); }
    else if v.id in st.bodies && Outdated(v, st.bodies[v.id]) {}
    else {
      var st1 := WithVehicle(st, v);
      NewcomerSpeaks(base, st, v);
      assert st1.Put(st1.At(v.id)) == st1;
      SyncSpeaksOnDesk(base, st1, st1.At(v.id), v, v.id !in st.bodies);
      FlagsSpeak(base, st1.Put(SyncBody(st.kit, st1.At(v.id), v, v.id !in st.bodies)), SyncVehicle(st, v));
    }
  }

  lemma FlagsSpeak(base: Station, st: Station, st': Station)
    requires Speaks(base, st) && SameButFlags(st, st')
    ensures Speaks(base, st')
  {
    hide WordHolds, LiveCertified, InOrder;
  }

  // ---------------------------------------------------------------- all acts

  lemma ActSpeaks(base: Station, st: Station, act: Act)
    requires StationInv(st) && Enabled(st, act) && Speaks(base, st) && !act.Flush?
    ensures Speaks(base, Do(st, act))
    ensures act.Extend? && st.bodies[act.id].LiveGrant().None? ==> Do(st, act) == st
  {
    hide SyncVehicle, EmitBrake, EmitReject, EmitHold, Advanced, InstallPlan, ExtendOne, GoodWorld;
    hide Sweep.NaiveAnswer, PrefixesEnd, WellFormedPlan, Asks, PlannerModel.Extends, SaysOne;
    hide GoodCandidate, Verified, Answered, Speaks, WellFormedBody;
    SpeaksLive(base, st);
    match act
    case Sync(v) => SyncSpeaks(base, st, v);
    case Advance(id, cursor) =>
      AdvanceSays(st.At(id), cursor);
      PutSpeaks(base, st, Advanced(st.At(id), cursor));
    case Brakes(id, reason, detail, blockers) =>
      BrakeSays(st.At(id), reason, detail, blockers);
      PutSpeaks(base, st, EmitBrake(st.At(id), reason, detail, blockers));
    case Rejects(id, reason, detail, blockers) =>
      RejectSays(st.At(id), reason, detail, blockers);
      PutSpeaks(base, st, EmitReject(st.At(id), reason, detail, blockers));
    case Holds(id, reason, detail, blockers) =>
      HoldSays(st.At(id), reason, detail, blockers);
      PutSpeaks(base, st, EmitHold(st.At(id), reason, detail, blockers));
    case Install(id, p, s, hi) =>
      InstallSays(st.At(id), p, hi);
      PutSpeaks(base, st, InstallPlan(st.At(id), p, hi));
    case Extend(id, answer, hi) =>
      ExtendSays(st.cfg, st.At(id), st.worldChanged, answer, hi);
      PutSpeaks(base, st, ExtendOne(st.cfg, st.At(id), st.worldChanged, answer, hi));
      assert st.Put(st.At(id)) == st;
    case _ => PlainActSpeaks(base, st, act);
  }

  lemma SpeaksLive(base: Station, st: Station)
    requires Speaks(base, st)
    ensures forall id :: id in st.bodies ==> LiveCertified(st.bodies[id])
  {
  }

  lemma PutSpeaks(base: Station, st: Station, r: Desk)
    requires Speaks(base, st) && r.id in st.bodies && SaysOne(st.At(r.id), r)
    ensures Speaks(base, st.Put(r))
  {
    hide SaysOne, Speaks;
    assert st.Put(st.At(r.id)) == st;
    DeskSpeaks(base, st, st.At(r.id), r);
  }

  lemma PlainActSpeaks(base: Station, st: Station, act: Act)
    requires StationInv(st) && Speaks(base, st) && (act.SetWorld? || act.Allocate? || act.Flags?)
    ensures Speaks(base, Do(st, act))
  {
    hide SyncVehicle, EmitBrake, EmitReject, EmitHold, Advanced, InstallPlan, ExtendOne;
    hide Speaks, GoodWorld, WellFormedBody;
    LaterSpeaks(base, st, Do(st, act));
  }

  lemma LaterSpeaks(base: Station, st: Station, later: Station)
    requires Speaks(base, st) && later.bodies == st.bodies && later.out == st.out
    requires st.next <= later.next
    ensures Speaks(base, later)
  {
    hide WordHolds, LiveCertified;
  }

  /** A brake says no Go. */
  lemma BrakesStayGoFree(st: Station, id: Id, reason: Reason, detail: string, blockers: seq<Id>)
    requires id in st.bodies && LiveCertified(st.bodies[id]) && GoFree(st.out)
    ensures GoFree(EmitBrake(st.At(id), reason, detail, blockers).out)
  {
    hide EmitBrake;
    BrakeSays(st.At(id), reason, detail, blockers);
    StaysGoFree(st.At(id), EmitBrake(st.At(id), reason, detail, blockers));
  }
}
