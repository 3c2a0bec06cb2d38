/** What ends a reservation in the whole system, and how often one can be given. */
module FleetReleases {
  import opened ResetProtocol
  import opened Bodies
  import opened PlannerModel
  import opened Reservations
  import opened ReservationLife
  import Sweep
  import opened Fleet
  import L = Link
  import LV = LinkVehicle
  import LS = LinkStation

  /** A published stop certificate of request `gen` that acknowledges exactly decision `brake`. */
  ghost predicate CertifiedStop(f: State, id: Id, gen: nat, brake: nat) {
    exists s :: (id, s) in f.sessions && s.certified && s.generation == gen && s.ack == brake
  }

  lemma AcksAreKnown(f: State, v: Vehicle)
    requires FleetInv(f) && Heard(f, v) && v.id in f.execs
    ensures v.ack < f.st.next
  {
    HeardNote(f, v);
    var n :| n in Notes(f, v.id) && LS.ReportOf(v, n);
    assert Linked(f, v.id);
    NoteAcks(LV.CoreOf(f.execs[v.id]), SeatIn(f, v.id), Words(f, v.id), Notes(f, v.id), f.st.next, n);
  }

  lemma NoteAcks(c: L.Core, seat: Option<L.Seat>, words: set<L.Word>, notes: set<L.Note>, next: nat,
                 n: L.Note)
    requires L.LinkInv(c, seat, words, notes, next) && n in notes
    ensures n.ack < next
  {
    assert L.NoteInv(c, words, next, n);
  }

  lemma OlderClaim(c: L.Core, s: L.Seat, words: set<L.Word>, notes: set<L.Note>, next: nat, n: L.Note)
    requires L.LinkInv(c, Some(s), words, notes, next) && n in notes && n.certified
    requires s.claim.Some? && s.certificate.AwaitingStop? && n.gen == s.gen
    requires n.ack == s.certificate.brakeId
    ensures s.claim.value.gen < s.gen
  {
    assert L.Proof(notes, s.gen, s.certificate.brakeId);
  }

  lemma CertificateIsPublished(f: State, v: Vehicle, id: Id)
    requires FleetInv(f) && Heard(f, v) && v.id == id && id in f.st.bodies
    requires f.st.bodies[id].HasPlan() && ExactCertificate(f.st.bodies[id], v, false)
    requires v.generation == f.st.bodies[id].generation
    ensures CertifiedStop(f, id, f.st.bodies[id].generation, f.st.bodies[id].certificate.brakeId)
    ensures f.st.bodies[id].reservation.plan.generation < f.st.bodies[id].generation
  {
    hide L.LinkInv, StationInv, PairwiseDisjoint;
    var s :| (v.id, s) in f.sessions && Conveys(v, s);
    assert NoteOf((v.id, s).1) in Notes(f, id);
    assert Linked(f, id);
    OlderClaim(LV.CoreOf(f.execs[id]), LS.SeatOf(f.st.bodies[id]), Words(f, id), Notes(f, id),
               f.st.next, NoteOf(s));
  }

  /** A reservation ends only when the vehicle has published, in the very request the station is
      answering, a certified stop that acknowledges the very Brake that is outstanding; and never
      by a certificate of the request it was granted for. */
  lemma ReleaseIsExact(f: State, ev: Event, id: Id)
    requires FleetInv(f) && Possible(f, ev) && id in f.st.bodies && f.st.bodies[id].HasPlan()
    requires id in Next(f, ev).st.bodies && !Next(f, ev).st.bodies[id].HasPlan()
    ensures var b := f.st.bodies[id];
            && b.certificate.AwaitingStop? && b.certificate.brakeId != 0
            && CertifiedStop(f, id, b.generation, b.certificate.brakeId)
            && b.reservation.plan.generation < b.generation
  {
    hide L.LinkInv, PairwiseDisjoint, WellFormedBody, Do, Enabled, GoodWorld, Linked;
    match ev
    case StationDoes(act) =>
      if !act.Sync? {
        OnlyReportsRelease(f.st, act, id);
      } else {
        SyncEndsExactly(f, act.v, id);
        CertificateIsPublished(f, act.v, id);
      }
    case _ =>
  }

  lemma SyncEndsExactly(f: State, v: Vehicle, id: Id)
    requires FleetInv(f) && Heard(f, v) && id in f.st.bodies && f.st.bodies[id].HasPlan()
    requires var st := Do(f.st, Sync(v)); id in st.bodies && !st.bodies[id].HasPlan()
    ensures v.id == id && ExactCertificate(f.st.bodies[id], v, false)
    ensures v.generation == f.st.bodies[id].generation
  {
    DoSync(f, v);
    SyncIsPut(f.st, v);
    hide SyncVehicle, SyncBody, Outdated, WellFormedBody, GoodWorld, PairwiseDisjoint, Linked, Do;
    hide ExactCertificate;
    if f.st.halted { HaltedStays(f.st, v); }
    else if v.id == id {
      AcksAreKnown(f, v);
      SyncReleasesExactly(f.st.kit, f.st.At(id), v);
    }
  }

  // ---------------------------------------------------------------- one plan per request

  /** Every admission so far was of its own request, and the one of the current request is still
      reserved. */
  ghost predicate InstallsInv(f: State) {
    && (forall k :: 0 <= k < |f.installs| ==> InstallOk(f.st, f.installs[k]))
    && (forall k, l :: 0 <= k < l < |f.installs| ==> !SameRequest(f.installs[k], f.installs[l]))
  }

  predicate SameRequest(g: Granted, h: Granted) { g.id == h.id && g.generation == h.generation }

  ghost predicate InstallOk(st: Station, g: Granted) {
    && g.id in st.bodies && g.generation <= st.bodies[g.id].generation
    && (g.generation == st.bodies[g.id].generation ==>
          st.bodies[g.id].HasPlan() && st.bodies[g.id].reservation.plan.generation == g.generation)
  }

  /** The request only moves on, and a reservation of the current request stays. */
  ghost predicate OwnPlanStays(b: Body, c: Body) {
    && b.generation <= c.generation
    && (b.HasPlan() && b.reservation.plan.generation == b.generation == c.generation ==>
          c.HasPlan() && c.reservation.plan.generation == c.generation)
  }

  lemma RequestsMoveOn(kit: Kit, t: Desk, v: Vehicle)
    ensures t.body.generation <= SyncBody(kit, t, v, false).body.generation
  {
    hide Anchored, SyncRest;
    if !t.halted && !Outdated(v, t.body) {
      AnchoredSamePlan(kit, t.body, v, false);
      RestSamePlan(kit, Requested(t.(body := Anchored(kit, t.body, v, false)), v,
                                  NewRequest(t.body, v), false), v, NewRequest(t.body, v));
    }
  }

  lemma SyncMovesOn(st: Station, v: Vehicle, id: Id)
    requires StationInv(st) && id in st.bodies
    ensures id in SyncVehicle(st, v).bodies
    ensures st.bodies[id].generation <= SyncVehicle(st, v).bodies[id].generation
  {
    hide SyncVehicle, SyncBody, Outdated, WellFormedBody, GoodWorld;
    SyncIsPut(st, v);
    if st.halted { HaltedStays(st, v); }
    else if v.id == id { RequestsMoveOn(st.kit, st.At(id), v); }
  }

  lemma EventKeepsOwnPlan(f: State, ev: Event, id: Id)
    requires FleetInv(f) && Possible(f, ev) && id in f.st.bodies
    ensures id in Next(f, ev).st.bodies
    ensures OwnPlanStays(f.st.bodies[id], Next(f, ev).st.bodies[id])
  {
    hide L.LinkInv, PairwiseDisjoint, WellFormedBody, Do, Enabled, GoodWorld, Linked;
    match ev
    case StationDoes(act) =>
      ReservationsEvolve(f.st, act, id);
      if act.Sync? {
        DoSync(f, act.v);
        SyncMovesOn(f.st, act.v, id);
        if f.st.bodies[id].HasPlan() && !Do(f.st, act).bodies[id].HasPlan() {
          ReleaseIsExact(f, ev, id);
        }
      } else {
        OnlyReportsRelease(f.st, act, id);
      }
    case _ =>
  }

  /** A new admission is of the body's current request. */
  lemma InstalledNow(f: State, act: Act)
    requires FleetInv(f) && Possible(f, StationDoes(act)) && Installed(f.st, Do(f.st, act), act)
    ensures var b := Do(f.st, act).bodies[act.id];
            b.reservation.plan.generation == b.generation == f.st.bodies[act.id].generation
  {
    hide L.LinkInv, PairwiseDisjoint, WellFormedBody, GoodWorld, Linked, Sweep.NaiveAnswer, PrefixEnds;
    hide GoodCandidate, Verified;
  }

  lemma EventKeepsInstalls(f: State, ev: Event)
    requires FleetInv(f) && Possible(f, ev) && InstallsInv(f)
    ensures InstallsInv(Next(f, ev))
  {
    hide Linked, PairwiseDisjoint, WellFormedBody, Do, Enabled, OwnPlanStays, GoodWorld;
    forall k | 0 <= k < |f.installs| ensures InstallOk(Next(f, ev).st, f.installs[k]) {
      assert InstallOk(f.st, f.installs[k]);
      EventKeepsOwnPlan(f, ev, f.installs[k].id);
      StillOk(f.st, Next(f, ev).st, f.installs[k]);
    }
    NewInstallOk(f, ev);
  }

  lemma StillOk(st: Station, st': Station, g: Granted)
    requires InstallOk(st, g) && g.id in st'.bodies && OwnPlanStays(st.bodies[g.id], st'.bodies[g.id])
    ensures InstallOk(st', g)
  {
  }

  lemma NewInstallOk(f: State, ev: Event)
    requires FleetInv(f) && Possible(f, ev) && InstallsInv(f)
    ensures var g := Next(f, ev);
            g.installs == f.installs
            || (&& |g.installs| == |f.installs| + 1 && g.installs[..|f.installs|] == f.installs
                && InstallOk(g.st, g.installs[|f.installs|])
                && forall k :: 0 <= k < |f.installs| ==> !SameRequest(f.installs[k], g.installs[|f.installs|]))
  {
    hide PairwiseDisjoint, WellFormedBody, GoodWorld, Linked, SyncVehicle, EmitBrake, EmitReject;
    hide EmitHold, Advanced, ExtendOne, InstallPlan, GoodCandidate, Verified, Answered, PrefixesEnd;
    hide Asks, Extends, Sweep.NaiveAnswer;
    match ev
    case StationDoes(act) =>
      if Installed(f.st, Do(f.st, act), act) {
        InstalledNow(f, act);
        forall k | 0 <= k < |f.installs|
          ensures !SameRequest(f.installs[k], GrantedTo(act.id, Do(f.st, act).bodies[act.id]))
        {
          assert InstallOk(f.st, f.installs[k]);
        }
      }
    case _ =>
  }

  /** At most one plan is ever installed for one request of one vehicle. */
  lemma {:induction false} OnePlanPerRequest(f0: State, evs: seq<Event>, f: State)
    requires Reachable(f0, evs, f)
    ensures FleetInv(f) && InstallsInv(f)
    decreases |evs|
  {
    hide FleetInv, Possible, Next;
    ReachableIsGood(f0, evs, f);
    if evs != [] {
      var g :| Reachable(f0, evs[..|evs| - 1], g) && StationInv(g.st)
               && Possible(g, evs[|evs| - 1]) && f == Next(g, evs[|evs| - 1]);
      OnePlanPerRequest(f0, evs[..|evs| - 1], g);
      EventKeepsInstalls(g, evs[|evs| - 1]);
    }
  }
}
