/** The planner takes part in the link: what it does to a body is a step of the station's side. */
module LinkStation {
  import opened ResetProtocol
  import opened Bodies
  import opened PlannerModel
  import L = Link
  import Sweep

  function ClaimOf(r: Reservation): Option<L.Claim> {
    match r
    case Unreserved => None
    case Reserved(p, phase) =>
      Some(L.Claim(p.generation, p.session, p.grantId, p.route, p.sLimit, phase))
  }

  function SeatOf(b: Body): L.Seat {
    L.Seat(b.generation, b.session, b.spec, ClaimOf(b.reservation), b.certificate)
  }

  function WordOf(d: Decision): L.Word { L.Word(d.state, d.generation, d.grantId, d.route, d.sLimit) }

  /** What was said to one vehicle. */
  function Heard(out: seq<Decision>, id: Id): set<L.Word> {
    set d | d in out && d.id == id :: WordOf(d)
  }

  /** The link of one vehicle, with the words that are still in the outbox. */
  ghost predicate DeskInv(c: L.Core, t: Desk, words: set<L.Word>, notes: set<L.Note>) {
    t.next > 0 && L.LinkInv(c, Some(SeatOf(t.body)), words + Heard(t.out, t.id), notes, t.next)
  }

  /** A vehicle's report carries the authority of a Session it published. */
  ghost predicate ReportOf(v: Vehicle, n: L.Note) {
    && v.generation == n.gen && v.session == n.session && v.ack == n.ack
    && (v.certified ==> n.certified && v.available) && (v.available ==> v.spec == n.spec)
  }

  lemma HeardGrows(out: seq<Decision>, d: Decision)
    ensures Heard(out + [d], d.id) == Heard(out, d.id) + {WordOf(d)}
  {
  }

  lemma HeardMore(words: set<L.Word>, out: seq<Decision>, d: Decision)
    ensures words + Heard(out + [d], d.id) == words + Heard(out, d.id) + {WordOf(d)}
  {
    HeardGrows(out, d);
  }

  // ---------------------------------------------------------------- decisions

  lemma BrakeKeeps(c: L.Core, t: Desk, words: set<L.Word>, notes: set<L.Note>, reason: Reason,
                   detail: string, blockers: seq<Id>)
    requires DeskInv(c, t, words, notes) && t.body.HasPlan() && !t.body.IsRetiring()
    ensures DeskInv(c, EmitBrake(t, reason, detail, blockers), words, notes)
  {
    hide L.LinkInv;
    if !t.Spent() {
      var r := EmitBrake(t, reason, detail, blockers);
      var d := Plain(t, Brake, reason, detail, blockers);
      HeardMore(words, t.out, d);
      L.BrakesKeeps(c, SeatOf(t.body), SeatOf(r.body), words + Heard(t.out, t.id), notes, t.next,
                    WordOf(d));
    }
  }

  lemma RejectKeeps(c: L.Core, t: Desk, words: set<L.Word>, notes: set<L.Note>, reason: Reason,
                    detail: string, blockers: seq<Id>)
    requires DeskInv(c, t, words, notes)
    ensures DeskInv(c, EmitReject(t, reason, detail, blockers), words, notes)
  {
    hide L.LinkInv;
    if !t.Spent() {
      var r := EmitReject(t, reason, detail, blockers);
      var d := Plain(t, Reject, reason, detail, blockers);
      HeardMore(words, t.out, d);
      L.RejectsKeeps(c, SeatOf(t.body), SeatOf(r.body), words + Heard(t.out, t.id), notes, t.next,
                     WordOf(d));
    }
  }

  lemma HoldKeeps(c: L.Core, t: Desk, words: set<L.Word>, notes: set<L.Note>, reason: Reason,
                  detail: string, blockers: seq<Id>)
    requires DeskInv(c, t, words, notes)
    ensures DeskInv(c, EmitHold(t, reason, detail, blockers), words, notes)
  {
    hide L.LinkInv;
    var r := EmitHold(t, reason, detail, blockers);
    assert SeatOf(r.body) == SeatOf(t.body);
    if r.next != t.next {
      var d := Plain(t, GrantState.Hold, reason, detail, blockers);
      HeardMore(words, t.out, d);
      L.WordKeeps(c, Some(SeatOf(t.body)), words + Heard(t.out, t.id), notes, t.next, WordOf(d));
    }
  }

  lemma GoMore(t: Desk, p: Plan, body: Body, words: set<L.Word>)
    requires !t.Spent()
    ensures var r := EmitGo(t, p, body);
            SeatOf(r.body) == SeatOf(body).(claim := Some(L.Claim(p.generation, p.session, t.next,
                                                                  p.route, p.sLimit, AwaitGoReceipt)))
            && r.next == t.next + 1
            && words + Heard(r.out, t.id) == words + Heard(t.out, t.id)
                 + {L.Word(Go, body.generation, t.next, p.route, p.sLimit)}
  {
    var r := EmitGo(t, p, body);
    HeardMore(words, t.out, r.out[|r.out| - 1]);
  }

  lemma InstallKeeps(c: L.Core, t: Desk, words: set<L.Word>, notes: set<L.Note>, p: Plan,
                     hi: seq<nat>)
    requires DeskInv(c, t, words, notes) && t.body.MayBeGranted()
    requires t.body.spec.model == Omni ==> p.route.ell == 0.0
    ensures DeskInv(c, InstallPlan(t, p, hi), words, notes)
  {
    hide L.LinkInv, EmitGo;
    if t.body.grants >= 3 {
      RejectKeeps(c, t, words, notes, Reason.NoRoute, "Reset replan budget exhausted", []);
    } else if t.Spent() {
      SpentGo(t, Started(t.body, p, hi), t.body.(blockers := [], progress := t.body.pose,
                                                 grants := t.body.grants + 1));
    } else {
      var b := t.body.(blockers := [], progress := t.body.pose, grants := t.body.grants + 1);
      GoMore(t, Started(t.body, p, hi), b, words);
      var r := InstallPlan(t, p, hi);
      L.InstallsKeeps(c, SeatOf(t.body), SeatOf(r.body), words + Heard(t.out, t.id), notes, t.next);
    }
  }

  lemma SpentGo(t: Desk, p: Plan, body: Body)
    requires t.Spent()
    ensures EmitGo(t, p, body) == t.(halted := true)
  {
  }

  lemma ExtendPlanKeeps(c: L.Core, t: Desk, words: set<L.Word>, notes: set<L.Note>, limit: real,
                        hi: seq<nat>)
    requires DeskInv(c, t, words, notes) && t.body.HasPlan() && !t.body.IsRetiring()
    requires limit > t.body.reservation.plan.sLimit
    ensures DeskInv(c, ExtendPlan(t, limit, hi), words, notes)
  {
    hide L.LinkInv, EmitGo;
    var p := t.body.reservation.plan.(sLimit := limit, hi := hi);
    if t.Spent() {
      SpentGo(t, p, t.body);
    } else {
      GoMore(t, p, t.body, words);
      var r := ExtendPlan(t, limit, hi);
      LiveClaimIsCurrent(c, t, words, notes);
      L.ExtendsKeeps(c, SeatOf(t.body), SeatOf(r.body), words + Heard(t.out, t.id), notes, t.next);
    }
  }

  lemma LiveClaimIsCurrent(c: L.Core, t: Desk, words: set<L.Word>, notes: set<L.Note>)
    requires DeskInv(c, t, words, notes) && t.body.HasPlan() && !t.body.IsRetiring()
    ensures t.body.reservation.plan.generation == t.body.generation
    ensures t.body.reservation.plan.session == t.body.session
  {
  }

  lemma ExtendOneKeeps(c: L.Core, t: Desk, words: set<L.Word>, notes: set<L.Note>,
                       cfg: PlannerConfig, worldChanged: bool, answer: Sweep.Violation, hi: seq<nat>)
    requires DeskInv(c, t, words, notes)
    ensures DeskInv(c, ExtendOne(cfg, t, worldChanged, answer, hi), words, notes)
  {
    hide L.LinkInv, EmitBrake, ExtendPlan;
    if Revokes(t.body, worldChanged, answer) {
      BrakeKeeps(c, t, words, notes, SceneChanged, "the scene changed under the route",
                 Blockers(answer));
      BrakeKeeps(c, t, words, notes, Replan, "the rest of the route is blocked", Blockers(answer));
    } else if Extends(cfg, t.body, worldChanged, answer) {
      ExtendPlanKeeps(c, t, words, notes, NewLimit(cfg, t.body.reservation.plan, answer), hi);
    } else {
      assert SeatOf(ExtendOne(cfg, t, worldChanged, answer, hi).body) == SeatOf(t.body);
    }
  }

  lemma AdvancedKeeps(c: L.Core, t: Desk, words: set<L.Word>, notes: set<L.Note>, cursor: seq<nat>)
    requires DeskInv(c, t, words, notes)
    ensures DeskInv(c, Advanced(t, cursor), words, notes)
  {
    hide L.LinkInv, Progressed;
    assert SeatOf(Advanced(t, cursor).body) == SeatOf(t.body);
  }

  // ---------------------------------------------------------------- synchronisation

  lemma AnchoredSeat(kit: Kit, b: Body, v: Vehicle, isNew: bool)
    ensures var r := Anchored(kit, b, v, isNew);
            SeatOf(r) == SeatOf(b).(spec := r.spec)
            && (r.spec != b.spec ==> !b.HasPlan() && r.spec == v.spec && (v.available || isNew))
  {
    hide StaleQuiescent;
  }

  lemma AnchoredKeeps(c: L.Core, kit: Kit, t: Desk, v: Vehicle, isNew: bool, words: set<L.Word>,
                      notes: set<L.Note>, n: L.Note)
    requires DeskInv(c, t, words, notes) && n in notes && ReportOf(v, n)
    requires if isNew then t.body.certificate.Uncertified? else !Outdated(v, t.body)
    ensures DeskInv(c, t.(body := Anchored(kit, t.body, v, isNew)), words, notes)
  {
    hide L.LinkInv, Anchored;
    var b := Anchored(kit, t.body, v, isNew);
    AnchoredSeat(kit, t.body, v, isNew);
    assert b.spec != t.body.spec && !isNew ==> L.SpecFrom(notes, t.body.generation, b.spec);
    L.ReportsKeeps(c, SeatOf(t.body), SeatOf(b), words + Heard(t.out, t.id), notes, t.next);
  }

  lemma RequestedKeeps(c: L.Core, t: Desk, v: Vehicle, isNew: bool, words: set<L.Word>,
                       notes: set<L.Note>, n: L.Note)
    requires DeskInv(c, t, words, notes) && n in notes && ReportOf(v, n)
    requires isNew ==> t.body.generation == 0
    ensures DeskInv(c, Requested(t, v, NewRequest(t.body, v), isNew), words, notes)
  {
    hide L.LinkInv;
    var heard := words + Heard(t.out, t.id);
    var r := Requested(t, v, NewRequest(t.body, v), isNew);
    if NewRequest(t.body, v) {
      if !t.Spent() {
        HeardMore(words, t.out, r.out[|r.out| - 1]);
        L.AnswersRequestKeeps(c, SeatOf(t.body), SeatOf(r.body), heard, notes, t.next, n,
                              WordOf(r.out[|r.out| - 1]));
      }
    } else if isNew {
      L.ReportsKeeps(c, SeatOf(t.body), SeatOf(r.body), heard, notes, t.next);
    }
  }

  lemma WithdrawnKeeps(c: L.Core, t: Desk, v: Vehicle, words: set<L.Word>, notes: set<L.Note>)
    requires DeskInv(c, t, words, notes)
    ensures DeskInv(c, Withdrawn(t, v), words, notes)
  {
    hide L.LinkInv, EmitBrake;
    if t.body.HasPlan() && !t.body.IsRetiring() {
      BrakeKeeps(c, t, words, notes, Replan, "permission retained until stopping is acknowledged", []);
    }
  }

  lemma ReleasedKeeps(c: L.Core, kit: Kit, t: Desk, v: Vehicle, newRequest: bool,
                      words: set<L.Word>, notes: set<L.Note>, n: L.Note)
    requires DeskInv(c, t, words, notes) && n in notes && ReportOf(v, n)
    requires !newRequest && !t.halted ==> v.generation == t.body.generation
    ensures DeskInv(c, Released(kit, t, v, newRequest), words, notes)
  {
    hide L.LinkInv, EmitHold;
    if !t.halted && ExactCertificate(t.body, v, newRequest) {
      var b := ReleasedBody(kit, t.body, v);
      L.ReleasesKeeps(c, SeatOf(t.body), SeatOf(b), words + Heard(t.out, t.id), notes, t.next, n);
      HoldKeeps(c, t.(body := b), words, notes, NoReason, "Reset permission retired", []);
    }
  }

  lemma ReceivedKeeps(c: L.Core, t: Desk, v: Vehicle, words: set<L.Word>, notes: set<L.Note>,
                      n: L.Note)
    requires DeskInv(c, t, words, notes) && n in notes && ReportOf(v, n)
    ensures DeskInv(c, Received(t, v), words, notes)
  {
    hide L.LinkInv;
    if !t.halted && ExactReceipt(t.body, v) {
      L.ReceivesKeeps(c, SeatOf(t.body), SeatOf(Received(t, v).body), words + Heard(t.out, t.id),
                      notes, t.next, n);
    }
  }

  lemma RestKeeps(c: L.Core, kit: Kit, t: Desk, v: Vehicle, newRequest: bool, words: set<L.Word>,
                  notes: set<L.Note>, n: L.Note)
    requires DeskInv(c, t, words, notes) && n in notes && ReportOf(v, n)
    requires !newRequest && !t.halted ==> v.generation == t.body.generation
    ensures DeskInv(c, SyncRest(kit, t, v, newRequest), words, notes)
  {
    hide DeskInv, Withdrawn, Released, Received;
    if t.body.generation != 0 {
      WithdrawnKeeps(c, t, v, words, notes);
      WithdrawnStays(t, v);
      ReleasedKeeps(c, kit, Withdrawn(t, v), v, newRequest, words, notes, n);
      ReceivedKeeps(c, Released(kit, Withdrawn(t, v), v, newRequest), v, words, notes, n);
    }
  }

  lemma WithdrawnStays(t: Desk, v: Vehicle)
    ensures Withdrawn(t, v).body.generation == t.body.generation
    ensures t.halted ==> Withdrawn(t, v).halted
  {
  }

  /** Every report that is built from a Session the vehicle published keeps the link. */
  lemma SyncKeeps(c: L.Core, kit: Kit, t: Desk, v: Vehicle, isNew: bool, words: set<L.Word>,
                  notes: set<L.Note>, n: L.Note)
    requires DeskInv(c, t, words, notes) && n in notes && ReportOf(v, n)
    requires isNew ==> t.body.certificate.Uncertified? && t.body.generation == 0
    ensures DeskInv(c, SyncBody(kit, t, v, isNew), words, notes)
  {
    hide DeskInv, Anchored, Requested, SyncRest;
    if !t.halted && (isNew || !Outdated(v, t.body)) {
      var newRequest := NewRequest(t.body, v);
      var t1 := t.(body := Anchored(kit, t.body, v, isNew));
      AnchoredKeeps(c, kit, t, v, isNew, words, notes, n);
      AnchoredStays(kit, t.body, v, isNew);
      RequestedKeeps(c, t1, v, isNew, words, notes, n);
      RequestedStays(t1, v, newRequest, isNew);
      RestKeeps(c, kit, Requested(t1, v, newRequest, isNew), v, newRequest, words, notes, n);
    }
  }

  lemma AnchoredStays(kit: Kit, b: Body, v: Vehicle, isNew: bool)
    ensures Anchored(kit, b, v, isNew).generation == b.generation
  {
    hide StaleQuiescent;
  }

  lemma RequestedStays(t: Desk, v: Vehicle, newRequest: bool, isNew: bool)
    ensures !newRequest ==> Requested(t, v, newRequest, isNew).body.generation == t.body.generation
  {
  }
}
