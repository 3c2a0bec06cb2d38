/** The deadlock report (reset_planner.cpp, deadlock): nobody moves and nobody could be admitted.
    Whoever waits, directly or through others that are stuck, for a vehicle whose stop certificate is
    still in flight is deferred; exactly the others are refused. */
module Deadlock {
  import opened ResetProtocol
  import opened Bodies
  import opened PlannerModel
  import opened PlannerTurn

  /** Certified, without a route and not refused. */
  predicate Stuck(bodies: map<Id, Body>, id: Id) { id in bodies && bodies[id].MayBeGranted() }

  /** A controlled, available participant that waits for its own stop certificate. */
  predicate InFlight(bodies: map<Id, Body>, id: Id) {
    id in bodies && bodies[id].Participates() && bodies[id].certificate.AwaitingStop?
    && bodies[id].available && !bodies[id].uncontrolled
  }

  predicate WaitsForFlight(bodies: map<Id, Body>, id: Id)
    requires id in bodies
  {
    exists k :: 0 <= k < |bodies[id].blockers| && InFlight(bodies, bodies[id].blockers[k])
  }

  /** A chain of stuck bodies, each naming the next among its blockers, whose last one is blocked by
      a body in flight. */
  ghost predicate Chain(bodies: map<Id, Body>, p: seq<Id>) {
    && p != [] && (forall i :: 0 <= i < |p| ==> Stuck(bodies, p[i]))
    && (forall i :: 0 <= i < |p| - 1 ==> p[i + 1] in bodies[p[i]].blockers)
    && WaitsForFlight(bodies, p[|p| - 1])
  }

  ghost predicate Deferred(bodies: map<Id, Body>, id: Id) {
    exists p :: Chain(bodies, p) && p[0] == id
  }

  /** The bodies in id order. */
  ghost predicate Lists(bodies: map<Id, Body>, order: seq<Id>) {
    && (forall id :: id in bodies <==> id in order)
    && (forall i, j :: 0 <= i < j < |order| ==> order[i] != order[j])
  }

  ghost predicate StuckList(bodies: map<Id, Body>, stuck: seq<Id>) {
    && (forall id :: id in stuck <==> Stuck(bodies, id))
    && (forall i, j :: 0 <= i < j < |stuck| ==> stuck[i] != stuck[j])
  }

  method ListStuck(bodies: map<Id, Body>, order: seq<Id>) returns (stuck: seq<Id>)
    requires Lists(bodies, order)
    ensures StuckList(bodies, stuck)
  {
    hide Stuck;
    stuck := [];
    for k := 0 to |order|
      invariant forall id :: id in stuck <==> id in order[..k] && Stuck(bodies, id)
      invariant forall i, j :: 0 <= i < j < |stuck| ==> stuck[i] != stuck[j]
    {
      assert order[..k + 1] == order[..k] + [order[k]];
      assert order[k] !in order[..k];
      if Stuck(bodies, order[k]) { stuck := stuck + [order[k]]; }
    }
    assert order[..|order|] == order;
    assert forall id :: Stuck(bodies, id) ==> id in bodies by { StuckIsKnown(bodies); }
  }

  lemma StuckIsKnown(bodies: map<Id, Body>)
    ensures forall id :: Stuck(bodies, id) ==> id in bodies
  {
  }

  lemma ChainGrows(bodies: map<Id, Body>, id: Id, next: Id)
    requires Stuck(bodies, id) && next in bodies[id].blockers && Deferred(bodies, next)
    ensures Deferred(bodies, id)
  {
    hide Stuck, WaitsForFlight;
    var p :| Chain(bodies, p) && p[0] == next;
    var q := [id] + p;
    forall i | 0 <= i < |q| - 1 ensures q[i] in bodies && q[i + 1] in bodies[q[i]].blockers {
      StuckIsKnown(bodies);
      if i > 0 { assert q[i] == p[i - 1] && q[i + 1] == p[i]; }
    }
    assert Chain(bodies, q) && q[0] == id;
  }

  /** A set that holds everybody who waits for a flight and everybody who waits for a member holds
      every chain. */
  lemma {:induction false} ClosedHoldsChains(bodies: map<Id, Body>, d: set<Id>, p: seq<Id>)
    requires Chain(bodies, p)
    requires forall id :: Stuck(bodies, id) && WaitsForFlight(bodies, id) ==> id in d
    requires forall id, o :: Stuck(bodies, id) && o in bodies[id].blockers && o in d ==> id in d
    ensures p[0] in d
  {
    if |p| > 1 {
      var q := p[1..];
      assert p[1] in bodies[p[0]].blockers;
      forall i | 0 <= i < |q| - 1 ensures q[i + 1] in bodies[q[i]].blockers {
        assert p[i + 1 + 1] in bodies[p[i + 1]].blockers;
      }
      ClosedHoldsChains(bodies, d, q);
    }
  }

  /** One pass of the growing loop over the stuck bodies. */
  method Grow(bodies: map<Id, Body>, stuck: seq<Id>, was: set<Id>) returns (d: set<Id>, grown: bool)
    requires StuckList(bodies, stuck)
    requires forall id :: id in was ==> Stuck(bodies, id) && Deferred(bodies, id)
    ensures was <= d && (forall id :: id in d ==> Stuck(bodies, id) && Deferred(bodies, id))
    ensures grown ==> exists id :: id in d && id !in was
    ensures !grown ==> d == was && forall id, o :: Stuck(bodies, id) && o in bodies[id].blockers && o in d ==> id in d
  {
    hide Deferred, WaitsForFlight;
    StuckIsKnown(bodies);
    hide Stuck;
    d, grown := was, false;
    for k := 0 to |stuck|
      invariant was <= d && forall id :: id in d ==> Stuck(bodies, id) && Deferred(bodies, id)
      invariant grown ==> exists id :: id in d && id !in was
      invariant !grown ==> d == was
      invariant !grown ==> forall j, o :: 0 <= j < k && o in bodies[stuck[j]].blockers && o in d ==> stuck[j] in d
    {
      var id := stuck[k];
      if id !in d {
        var blockers := bodies[id].blockers;
        var hit := false;
        var n := 0;
        while n < |blockers| && !hit
          invariant n <= |blockers| && (hit ==> 0 < n && blockers[n - 1] in d)
          invariant !hit ==> forall m :: 0 <= m < n ==> blockers[m] !in d
        {
          hit := blockers[n] in d;
          n := n + 1;
        }
        if hit {
          ChainGrows(bodies, id, blockers[n - 1]);
          d := d + {id};
          grown := true;
        }
      }
    }
  }

  /** The closure: exactly the stuck bodies from which a chain leads to a body in flight. */
  method DeferredSet(bodies: map<Id, Body>, stuck: seq<Id>) returns (d: set<Id>)
    requires StuckList(bodies, stuck)
    ensures forall id :: id in d <==> Stuck(bodies, id) && Deferred(bodies, id)
  {
    d := FirstDeferred(bodies, stuck);
    var grown := true;
    ghost var all := set id | id in stuck;
    while grown
      invariant forall id :: id in d ==> Stuck(bodies, id) && Deferred(bodies, id)
      invariant forall id :: Stuck(bodies, id) && WaitsForFlight(bodies, id) ==> id in d
      invariant !grown ==> forall id, o :: Stuck(bodies, id) && o in bodies[id].blockers && o in d ==> id in d
      decreases all - d, grown
    {
      hide Deferred, WaitsForFlight, Stuck;
      ghost var was := d;
      d, grown := Grow(bodies, stuck, d);
      if grown {
        ghost var id :| id in d && id !in was;
        assert id in all - was && id !in all - d;
      }
    }
    forall id | Stuck(bodies, id) && Deferred(bodies, id) ensures id in d {
      var p :| Chain(bodies, p) && p[0] == id;
      ClosedHoldsChains(bodies, d, p);
    }
  }

  method FirstDeferred(bodies: map<Id, Body>, stuck: seq<Id>) returns (d: set<Id>)
    requires StuckList(bodies, stuck)
    ensures forall id :: id in d ==> Stuck(bodies, id) && Deferred(bodies, id)
    ensures forall id :: Stuck(bodies, id) && WaitsForFlight(bodies, id) ==> id in d
  {
    StuckIsKnown(bodies);
    hide Stuck, WaitsForFlight;
    d := {};
    for k := 0 to |stuck|
      invariant forall id :: id in d <==> id in stuck[..k] && id in bodies && WaitsForFlight(bodies, id)
    {
      assert stuck[..k + 1] == stuck[..k] + [stuck[k]];
      if WaitsForFlight(bodies, stuck[k]) { d := d + {stuck[k]}; }
    }
    assert stuck[..|stuck|] == stuck;
    forall id | id in d ensures Deferred(bodies, id) {
      assert Chain(bodies, [id]) && [id][0] == id;
    }
  }

  /** Sorted and without repetitions. */
  function InsertOnce(names: seq<Id>, id: Id): (r: seq<Id>)
    ensures forall o :: o in r <==> o in names || o == id
  {
    if id in names then names else InsertId(names, id)
  }

  method Culprits(bodies: map<Id, Body>, stuck: seq<Id>, d: set<Id>, id: Id) returns (who: seq<Id>)
    requires id in bodies
    ensures forall o :: o in who <==>
              o in bodies[id].blockers || (o in stuck && o != id && o !in d)
  {
    who := [];
    for k := 0 to |bodies[id].blockers|
      invariant forall o :: o in who <==> o in bodies[id].blockers[..k]
    {
      assert bodies[id].blockers[..k + 1] == bodies[id].blockers[..k] + [bodies[id].blockers[k]];
      who := InsertOnce(who, bodies[id].blockers[k]);
    }
    assert bodies[id].blockers[..|bodies[id].blockers|] == bodies[id].blockers;
    for k := 0 to |stuck|
      invariant forall o :: o in who <==>
                  o in bodies[id].blockers || (o in stuck[..k] && o != id && o !in d)
    {
      assert stuck[..k + 1] == stuck[..k] + [stuck[k]];
      if stuck[k] != id && stuck[k] !in d { who := InsertOnce(who, stuck[k]); }
    }
    assert stuck[..|stuck|] == stuck;
  }

  const NOBODY_MOVES := "nobody can move and no parking move helps"

  /** The refusals of the report, in id order: one for each stuck body that waits for nobody in
      flight, and for no other. */
  method Report(bodies: map<Id, Body>, order: seq<Id>) returns (moves: seq<Move>)
    requires Lists(bodies, order)
    ensures forall k :: 0 <= k < |moves| ==>
              && moves[k].RejectMove? && moves[k].reason == Reason.Deadlock
              && Stuck(bodies, moves[k].id) && !Deferred(bodies, moves[k].id)
              && (forall o :: o in moves[k].blockers <==>
                    o in bodies[moves[k].id].blockers
                    || (Stuck(bodies, o) && !Deferred(bodies, o) && o != moves[k].id))
    ensures forall id :: Stuck(bodies, id) && !Deferred(bodies, id) ==>
              exists k :: 0 <= k < |moves| && moves[k].id == id
    ensures forall j, k :: 0 <= j < k < |moves| ==> moves[j].id != moves[k].id
  {
    var stuck := ListStuck(bodies, order);
    var d := DeferredSet(bodies, stuck);
    StuckIsKnown(bodies);
    hide Deferred, Stuck;
    moves := [];
    for n := 0 to |stuck|
      invariant forall k :: 0 <= k < |moves| ==> moves[k].id in stuck[..n]
      invariant forall k :: 0 <= k < |moves| ==>
                  && moves[k].RejectMove? && moves[k].reason == Reason.Deadlock
                  && moves[k].id in bodies && moves[k].id !in d
                  && (forall o :: o in moves[k].blockers <==>
                        o in bodies[moves[k].id].blockers || (o in stuck && o != moves[k].id && o !in d))
      invariant forall i :: 0 <= i < n && stuck[i] !in d ==> Listed(moves, stuck[i])
      invariant forall j, k :: 0 <= j < k < |moves| ==> moves[j].id != moves[k].id
    {
      assert stuck[..n + 1] == stuck[..n] + [stuck[n]];
      ghost var was := moves;
      if stuck[n] !in d {
        var who := Culprits(bodies, stuck, d, stuck[n]);
        moves := moves + [RejectMove(stuck[n], Reason.Deadlock, NOBODY_MOVES, who)];
        assert moves[|was|].id == stuck[n];
      }
      forall i | 0 <= i < n && stuck[i] !in d ensures Listed(moves, stuck[i]) {
        var k :| 0 <= k < |was| && was[k].id == stuck[i];
        assert moves[k].id == stuck[i];
      }
    }
    forall id | Stuck(bodies, id) && !Deferred(bodies, id) ensures Listed(moves, id) {
      assert id in stuck;
      var i :| 0 <= i < |stuck| && stuck[i] == id;
    }
  }

  ghost predicate Listed(moves: seq<Move>, id: Id) { exists k :: 0 <= k < |moves| && moves[k].id == id }
}
