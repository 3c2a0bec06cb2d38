/** The wire discipline and the heartbeat agreement of the station, over whole steps. */
module CoordinatorWire {
  import opened ResetProtocol
  import opened Bodies
  import opened PlannerModel
  import opened PlannerOut
  import opened CoordinatorModel

  // ---------------------------------------------------------------- order on the wire

  ghost predicate TtlInv(cfg: CoordinatorConfig, entries: map<Id, Entry>) {
    forall name :: name in entries && entries[name].last.Some? ==>
      entries[name].last.value.grant.ttl == cfg.ttl
  }

  ghost predicate OfficeInv(cfg: CoordinatorConfig, wire: seq<Sent>, o: Office, limit: nat) {
    WireInv(wire + o.out, o.entries, limit) && TtlInv(cfg, o.entries)
  }

  lemma SendKeeps(cfg: CoordinatorConfig, wire: seq<Sent>, o: Office, name: Id, g: Grant, now: real,
                  limit: nat, limit': nat)
    requires OfficeInv(cfg, wire, o, limit) && name in o.entries && limit <= limit'
    requires || (limit <= g.id < limit')
             || (o.entries[name].last.Some? && g == o.entries[name].last.value.grant)
    ensures OfficeInv(cfg, wire, Send(cfg, o, name, g, now), limit')
  {
    hide WireInv;
    LimitGrows(wire + o.out, o.entries, limit, limit');
    if !o.halted && o.entries[name].nextPublication < UINT32_MAX {
      SendKeepsWire(cfg, wire + o.out, o.entries, limit, name, g, now, limit');
      var e := SentEntry(cfg, o.entries[name], g, now);
      assert wire + (o.out + [Sent(name, e.last.value.grant)])
          == (wire + o.out) + [Sent(name, e.last.value.grant)];
    }
  }

  /** The decisions of one update go out in the order of their ids. */
  lemma {:induction false} DecideAllKeeps(cfg: CoordinatorConfig, wire: seq<Sent>, o: Office,
                                          ds: seq<Decision>, now: real, base: nat, limit: nat)
    requires OfficeInv(cfg, wire, o, base) && InOrder(base, limit, ds)
    ensures var r := DecideAll(cfg, o, ds, now);
            OfficeInv(cfg, wire, r, if ds == [] then base else ds[|ds| - 1].grantId + 1)
            && OfficeInv(cfg, wire, r, limit) && r.next == o.next
  {
    hide OfficeInv, Send;
    if ds != [] {
      var n := |ds| - 1;
      var mid := DecideAll(cfg, o, ds[..n], now);
      var before := if n == 0 then base else ds[n - 1].grantId + 1;
      DecideAllKeeps(cfg, wire, o, ds[..n], now, base, limit);
      DecideOneKeeps(cfg, wire, mid, ds[n], now, before);
      LimitRises(cfg, wire, DecideAll(cfg, o, ds, now), ds[n].grantId + 1, limit);
    } else {
      LimitRises(cfg, wire, o, base, limit);
    }
  }

  lemma DecideOneKeeps(cfg: CoordinatorConfig, wire: seq<Sent>, o: Office, d: Decision, now: real,
                       limit: nat)
    requires OfficeInv(cfg, wire, o, limit) && limit <= d.grantId
    ensures OfficeInv(cfg, wire, DecideOne(cfg, o, d, now), d.grantId + 1)
    ensures DecideOne(cfg, o, d, now).next == o.next
  {
    hide OfficeInv;
    LimitRises(cfg, wire, o, limit, d.grantId + 1);
    if d.id in o.entries && Matches(d, o.entries[d.id].session) {
      SendKeeps(cfg, wire, o, d.id, GrantOf(cfg, d), now, limit, d.grantId + 1);
    }
  }

  lemma LimitRises(cfg: CoordinatorConfig, wire: seq<Sent>, o: Office, limit: nat, limit': nat)
    requires OfficeInv(cfg, wire, o, limit) && limit <= limit'
    ensures OfficeInv(cfg, wire, o, limit')
  {
    LimitGrows(wire + o.out, o.entries, limit, limit');
  }

  lemma SendNewKeeps(cfg: CoordinatorConfig, wire: seq<Sent>, o: Office, name: Id, state: GrantState,
                     reason: Reason, detail: string, now: real)
    requires OfficeInv(cfg, wire, o, o.next) && name in o.entries
    ensures var r := SendNew(cfg, o, name, state, reason, detail, now); OfficeInv(cfg, wire, r, r.next)
  {
    hide WireInv;
    if !o.halted && o.next < UINT32_MAX {
      var s := o.entries[name].session;
      SendKeeps(cfg, wire, o.(next := o.next + 1), name,
                Grant(s.generation, 0, cfg.ttl, s.session, state, o.next, NO_ROUTE, 0.0, reason, detail, []),
                now, o.next, o.next + 1);
    }
  }

  lemma {:induction false} HoldAllKeeps(cfg: CoordinatorConfig, wire: seq<Sent>, o: Office,
                                        bodies: map<Id, Body>, scene: bool, names: seq<Id>, now: real)
    requires OfficeInv(cfg, wire, o, o.next)
    ensures var r := HoldAll(cfg, o, bodies, scene, names, now); OfficeInv(cfg, wire, r, r.next)
  {
    hide OfficeInv, SendNew, Participant;
    if names != [] {
      HoldAllKeeps(cfg, wire, o, bodies, scene, names[..|names| - 1], now);
      var mid := HoldAll(cfg, o, bodies, scene, names[..|names| - 1], now);
      var name := names[|names| - 1];
      if name in mid.entries {
        SendNewKeeps(cfg, wire, mid, name, GrantState.Hold, if scene then WaitingForPeer else SceneUnavailable,
                     if scene then NO_SCOPE else NO_SCENE, now);
      }
    }
  }

  lemma BeatOneKeeps(cfg: CoordinatorConfig, wire: seq<Sent>, o: Office, name: Id, now: real)
    requires OfficeInv(cfg, wire, o, o.next)
    ensures var r := BeatOne(cfg, o, name, now); OfficeInv(cfg, wire, r, r.next)
  {
    hide OfficeInv, Send, SendNew, Participant, Lost, Outside;
    if name in o.entries {
      var e := o.entries[name];
      SendNewKeeps(cfg, wire, o, name, Reject, BadSession, if e.bad.Some? then e.bad.value else NOT_IN_SCOPE, now);
      if e.last.Some? {
        SendKeeps(cfg, wire, o, name, e.last.value.grant, now, o.next, o.next);
        SendNext(cfg, o, name, e.last.value.grant, now);
      }
    }
  }

  lemma SendNext(cfg: CoordinatorConfig, o: Office, name: Id, g: Grant, now: real)
    requires name in o.entries
    ensures Send(cfg, o, name, g, now).next == o.next
  {
  }

  lemma {:induction false} BeatAllKeeps(cfg: CoordinatorConfig, wire: seq<Sent>, o: Office,
                                        names: seq<Id>, now: real)
    requires OfficeInv(cfg, wire, o, o.next)
    ensures var r := BeatAll(cfg, o, names, now); OfficeInv(cfg, wire, r, r.next)
  {
    hide OfficeInv, BeatOne;
    if names != [] {
      BeatAllKeeps(cfg, wire, o, names[..|names| - 1], now);
      BeatOneKeeps(cfg, wire, BeatAll(cfg, o, names[..|names| - 1], now), names[|names| - 1], now);
    }
  }

  // ---------------------------------------------------------------- agreement

  /** The last thing sent to a vehicle is a Go only if the planner holds a live reservation for it,
      of the same request and with exactly that decision id. */
  ghost predicate Agrees(entries: map<Id, Entry>, bodies: map<Id, Body>) {
    forall name :: name in entries ==> EntryAgrees(entries[name], bodies, name)
  }

  ghost predicate EntryAgrees(e: Entry, bodies: map<Id, Body>, name: Id) {
    e.last.Some? && e.last.value.grant.state.Go? ==>
      && name in bodies && bodies[name].LiveGrant() == Some(e.last.value.grant.id)
      && SameAsked(bodies[name], e.session)
      && e.last.value.grant.generation == e.session.generation
      && e.last.value.grant.session == e.session.session
  }

  predicate SameAsked(b: Body, s: Session) {
    b.generation == s.generation && b.session == s.session
  }

  /** The last decision that is addressed to the request the vehicle is in. */
  function LastMatch(ds: seq<Decision>, name: Id, s: Session): Option<Decision> {
    if ds == [] then None
    else if ds[|ds| - 1].id == name && Matches(ds[|ds| - 1], s) then Some(ds[|ds| - 1])
    else LastMatch(ds[..|ds| - 1], name, s)
  }

  ghost predicate Tells(cfg: CoordinatorConfig, before: Entry, after: Entry, d: Option<Decision>) {
    && after.session == before.session
    && (d.None? ==> after == before)
    && (d.Some? ==> after.last.Some? && Content(after.last.value.grant) == Content(GrantOf(cfg, d.value)))
  }

  /** After the decisions have gone out, the last word to each vehicle is the last one for it. */
  lemma {:induction false} DecideAllTells(cfg: CoordinatorConfig, o: Office, ds: seq<Decision>,
                                          now: real, name: Id)
    requires name in o.entries
    ensures var r := DecideAll(cfg, o, ds, now);
            name in r.entries && r.entries[name].session == o.entries[name].session
            && (r.halted || Tells(cfg, o.entries[name], r.entries[name],
                                  LastMatch(ds, name, o.entries[name].session)))
            && (o.halted ==> r.halted)
  {
    if ds != [] {
      DecideAllTells(cfg, o, ds[..|ds| - 1], now, name);
    }
  }

  lemma {:induction false} LastMatchIsLast(ds: seq<Decision>, name: Id, s: Session, b: Body)
    requires forall i :: 0 <= i < |ds| && ds[i].id == name ==>
               ds[i].generation == b.generation && ds[i].session == b.session
    ensures LastMatch(ds, name, s) == if SameAsked(b, s) then LastFor(ds, name) else None
    ensures LastFor(ds, name).Some? ==> About(LastFor(ds, name).value, b)
  {
    if ds != [] { LastMatchIsLast(ds[..|ds| - 1], name, s, b); }
  }

  predicate About(d: Decision, b: Body) { d.generation == b.generation && d.session == b.session }

  /** The agreement survives the decisions of an update: what was said last is what is held. */
  lemma DecisionsAgree(cfg: CoordinatorConfig, o: Office, ds: seq<Decision>, now: real,
                       before: map<Id, Body>, after: map<Id, Body>, name: Id)
    requires name in o.entries && EntryAgrees(o.entries[name], before, name)
    requires name in before ==> name in after
    requires name in after ==>
               && WordHolds(PermissionAt(before, name), LastFor(ds, name), after[name])
               && (forall i :: 0 <= i < |ds| && ds[i].id == name ==> About(ds[i], after[name]))
               && (name in before && SameAsked(before[name], o.entries[name].session)
                   ==> SameAsked(after[name], o.entries[name].session))
    requires name !in after ==> LastFor(ds, name) == None && LastMatch(ds, name, o.entries[name].session) == None
    requires !DecideAll(cfg, o, ds, now).halted
    ensures name in DecideAll(cfg, o, ds, now).entries
    ensures EntryAgrees(DecideAll(cfg, o, ds, now).entries[name], after, name)
  {
    hide DecideAll;
    DecideAllTells(cfg, o, ds, now, name);
    if name in after {
      LastMatchIsLast(ds, name, o.entries[name].session, after[name]);
    }
  }

  /** A letter says what was decided. */
  ghost predicate Voices(cfg: CoordinatorConfig, x: Sent, d: Decision) {
    x.to == d.id && Content(x.grant) == Content(GrantOf(cfg, d))
  }

  ghost predicate Decided(cfg: CoordinatorConfig, x: Sent, ds: seq<Decision>) {
    exists d :: d in ds && Voices(cfg, x, d)
  }

  /** The letters of an update say nothing but its decisions. */
  lemma {:induction false} DecideAllVoices(cfg: CoordinatorConfig, o: Office, ds: seq<Decision>, now: real)
    requires o.out == []
    ensures var r := DecideAll(cfg, o, ds, now); forall x :: x in r.out ==> Decided(cfg, x, ds)
  {
    hide Matches;
    if ds != [] {
      var n := |ds| - 1;
      var mid, r := DecideAll(cfg, o, ds[..n], now), DecideAll(cfg, o, ds, now);
      DecideAllVoices(cfg, o, ds[..n], now);
      forall x | x in r.out ensures Decided(cfg, x, ds) {
        if x in mid.out {
          assert Decided(cfg, x, ds[..n]);
          var d :| d in ds[..n] && Voices(cfg, x, d);
          assert d in ds;
        } else {
          assert Voices(cfg, x, ds[n]);
        }
      }
    }
  }

  lemma HoldOneAgrees(cfg: CoordinatorConfig, o: Office, bodies: map<Id, Body>, scene: bool,
                      other: Id, now: real)
    requires Agrees(o.entries, bodies)
    ensures Agrees(HoldOne(cfg, o, bodies, scene, other, now).entries, bodies)
  {
  }

  lemma {:induction false} HoldAllAgrees(cfg: CoordinatorConfig, o: Office, bodies: map<Id, Body>,
                                         scene: bool, names: seq<Id>, now: real)
    requires Agrees(o.entries, bodies)
    ensures Agrees(HoldAll(cfg, o, bodies, scene, names, now).entries, bodies)
  {
    hide HoldOne, Agrees;
    if names != [] {
      HoldAllAgrees(cfg, o, bodies, scene, names[..|names| - 1], now);
      HoldOneAgrees(cfg, HoldAll(cfg, o, bodies, scene, names[..|names| - 1], now), bodies, scene,
                    names[|names| - 1], now);
    }
  }

  lemma BeatOneAgrees(cfg: CoordinatorConfig, o: Office, bodies: map<Id, Body>, name: Id, now: real)
    requires Agrees(o.entries, bodies)
    ensures var r := BeatOne(cfg, o, name, now);
            && Agrees(r.entries, bodies)
            && (r.out == o.out
                || (|r.out| == |o.out| + 1 && r.out[..|o.out|] == o.out && Stands(r.out[|o.out|], bodies)))
  {
    if name in o.entries { assert EntryAgrees(o.entries[name], bodies, name); }
    hide Participant, Lost, Outside;
  }

  /** A Go on the wire that the planner stands by at the end of the step. */
  ghost predicate Stands(x: Sent, bodies: map<Id, Body>) {
    x.grant.state.Go? ==> x.to in bodies && bodies[x.to].LiveGrant() == Some(x.grant.id)
                          && bodies[x.to].generation == x.grant.generation
  }

  /** Every Go that is repeated is one the planner stands by. */
  lemma {:induction false} RepeatsStand(cfg: CoordinatorConfig, o: Office, bodies: map<Id, Body>,
                                        names: seq<Id>, now: real)
    requires Agrees(o.entries, bodies)
    ensures var r := BeatAll(cfg, o, names, now);
            && Agrees(r.entries, bodies)
            && |o.out| <= |r.out| && r.out[..|o.out|] == o.out
            && (forall k :: |o.out| <= k < |r.out| ==> Stands(r.out[k], bodies))
  {
    hide BeatOne, Agrees, Stands;
    if names != [] {
      RepeatsStand(cfg, o, bodies, names[..|names| - 1], now);
      var mid := BeatAll(cfg, o, names[..|names| - 1], now);
      BeatOneAgrees(cfg, mid, bodies, names[|names| - 1], now);
      var r := BeatAll(cfg, o, names, now);
      if r.out != mid.out {
        assert r.out[..|o.out|] == r.out[..|mid.out|][..|o.out|];
        forall k | |o.out| <= k < |r.out| ensures Stands(r.out[k], bodies) {
          if k < |mid.out| { assert r.out[k] == r.out[..|mid.out|][k]; }
        }
      }
    }
  }

  // ---------------------------------------------------------------- no Go without admission

  ghost predicate NoGo(out: seq<Sent>) {
    forall k :: 0 <= k < |out| ==> !out[k].grant.state.Go?
  }

  lemma {:induction false} DecideAllNoGo(cfg: CoordinatorConfig, o: Office, ds: seq<Decision>, now: real)
    requires NoGo(o.out) && GoFree(ds)
    ensures NoGo(DecideAll(cfg, o, ds, now).out)
  {
    if ds != [] { DecideAllNoGo(cfg, o, ds[..|ds| - 1], now); }
  }

  lemma {:induction false} HoldAllNoGo(cfg: CoordinatorConfig, o: Office, bodies: map<Id, Body>,
                                       scene: bool, names: seq<Id>, now: real)
    requires NoGo(o.out)
    ensures NoGo(HoldAll(cfg, o, bodies, scene, names, now).out)
  {
    if names != [] { HoldAllNoGo(cfg, o, bodies, scene, names[..|names| - 1], now); }
  }
}
