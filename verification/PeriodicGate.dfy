/** PeriodicGate (periodic_gate.h): a gate that opens once per period, catching up on missed
    periods, at most ten of them, without drifting. */
module PeriodicGate {

  datatype Gate = Gate(initialized: bool, last: real)

  const CLOSED := Gate(false, 0.0)

  /** Periods that fit between two stamps. */
  function Periods(last: real, now: real, period: real): int
    requires period > 0.0
  {
    ((now - last) / period).Floor
  }

  lemma OnePeriodLess(last: real, now: real, period: real)
    requires period > 0.0 && now - last >= period
    ensures Periods(last, now, period) >= 1
    ensures Periods(last + period, now, period) == Periods(last, now, period) - 1
  {
    var x := (now - last) / period;
    assert x * period == now - last;
    if x < 1.0 { Positive(1.0 - x, period); }
    assert (1.0 - x) * period == period - x * period;
    DivisionShift(now - last, period);
    assert now - (last + period) == (now - last) - period;
    FloorShift(x);
  }

  lemma DivisionShift(a: real, p: real)
    requires p > 0.0
    ensures (a - p) / p == a / p - 1.0
  {
    var x, y := a / p, (a - p) / p;
    assert x * p == a && y * p == a - p;
    var d := y - x + 1.0;
    assert d * p == 0.0;
    if d > 0.0 { Positive(d, p); }
    if d < 0.0 { Positive(-d, p); }
  }

  lemma Positive(x: real, y: real)
    requires x > 0.0 && y > 0.0
    ensures x * y > 0.0
  {
  }

  lemma FloorShift(x: real)
    ensures (x - 1.0).Floor == x.Floor - 1
  {
  }

  /** The while loop: whole periods are added until less than one is left. */
  function CatchUp(last: real, now: real, period: real): (r: real)
    requires period > 0.0
    ensures now - r < period && r >= last && (last <= now ==> r <= now)
    decreases if now - last >= period && Periods(last, now, period) >= 0 then Periods(last, now, period) + 1 else 0
  {
    if now - last >= period then
      OnePeriodLess(last, now, period);
      CatchUp(last + period, now, period)
    else last
  }

  predicate Opens(g: Gate, now: real, period: real) {
    period > 0.0 && (!g.initialized || now < g.last || now - g.last >= period)
  }

  function Due(g: Gate, now: real, period: real): Gate {
    if period <= 0.0 then g
    else if !g.initialized || now < g.last then Gate(true, now)
    else if now - g.last < period then g
    else if now - g.last > 10.0 * period then g.(last := now)
    else g.(last := CatchUp(g.last, now, period))
  }

  /** Without the nudge of one unit in the last place. */
  function NextDue(g: Gate, now: real, period: real): real {
    if !g.initialized || now < g.last then now else g.last + period
  }

  /** After any call the gate rests at most one period behind the clock. */
  lemma RestsWithinAPeriod(g: Gate, now: real, period: real)
    requires period > 0.0
    ensures var r := Due(g, now, period); r.initialized && r.last <= now < r.last + period
  {
  }

  /** The k-th stamp of the grid that starts at `last`. */
  function Grid(last: real, period: real, k: nat): real { last + (k as real) * period }

  /** The stamps stay on the grid of the period, with no more steps than periods have passed. */
  lemma {:induction false} CatchUpCounts(last: real, now: real, period: real, n: nat)
    requires period > 0.0 && last <= now <= Grid(last, period, n)
    ensures exists k: nat :: k <= n && CatchUp(last, now, period) == Grid(last, period, k)
    decreases n
  {
    if now - last < period {
      assert CatchUp(last, now, period) == Grid(last, period, 0);
    } else {
      assert n > 0;
      OnePeriodLess(last, now, period);
      OneMore(last, period, n - 1);
      CatchUpCounts(last + period, now, period, n - 1);
      var k: nat :| k <= n - 1 && CatchUp(last + period, now, period) == Grid(last + period, period, k);
      OneMore(last, period, k);
      assert CatchUp(last, now, period) == Grid(last, period, k + 1);
    }
  }

  lemma OneMore(last: real, period: real, k: nat)
    ensures Grid(last + period, period, k) == Grid(last, period, k + 1)
  {
  }

  /** The loop of the gate makes at most ten steps, and its stamps do not drift. */
  lemma AtMostTenSteps(g: Gate, now: real, period: real)
    requires g.initialized && period > 0.0 && g.last <= now
    requires now - g.last <= 10.0 * period
    ensures exists k: nat :: k <= 10 && Due(g, now, period).last == Grid(g.last, period, k)
  {
    assert now <= Grid(g.last, period, 10);
    CatchUpCounts(g.last, now, period, 10);
  }

  class PeriodicGateObject {
    var initialized: bool
    var last: real

    function View(): Gate reads this { Gate(initialized, last) }

    constructor ()
      ensures View() == CLOSED
    {
      initialized, last := false, 0.0;
    }

    method DueAt(now: real, period: real) returns (due: bool)
      modifies this
      ensures View() == Due(old(View()), now, period) && due == Opens(old(View()), now, period)
    {
      if period <= 0.0 { return false; }
      if !initialized || now < last {
        initialized, last := true, now;
        return true;
      }
      if now - last < period { return false; }
      if now - last > 10.0 * period {
        last := now;
      } else {
        ghost var from := last;
        while now - last >= period
          invariant initialized && CatchUp(last, now, period) == CatchUp(from, now, period)
          decreases if now - last >= period && Periods(last, now, period) >= 0
                    then Periods(last, now, period) + 1 else 0
        {
          OnePeriodLess(last, now, period);
          last := last + period;
        }
      }
      due := true;
    }

    method Reset()
      modifies this
      ensures View() == CLOSED
    {
      initialized, last := false, 0.0;
    }
  }
}
