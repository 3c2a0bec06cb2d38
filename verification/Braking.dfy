/** The speed profile of the tracker (reset_tracker.h): the braking speed for a distance, and the
    limit on its change. The square root is given with its law. */
module Braking {
  import opened ResetProtocol

  const LAG: real := 0.3

  ghost predicate IsRoot(sqrt: real -> real) {
    forall x: real :: x >= 0.0 ==> sqrt(x) >= 0.0 && sqrt(x) * sqrt(x) == x
  }

  /** Eight tenths of the declared acceleration are planned with. */
  function Planned(accV: real): real { accV * 0.8 }

  function StopSpeed(sqrt: real -> real, accV: real, distance: real): real
    requires accV > 0.0
  {
    var a := Planned(accV);
    a * (-LAG + sqrt(LAG * LAG + 2.0 * Max(0.0, distance) / a))
  }

  /** The way a vehicle still makes from speed v: the lag at v, then braking at a. */
  function StoppingDistance(v: real, a: real): real
    requires a > 0.0
  {
    v * LAG + v * v / (2.0 * a)
  }

  /** StopSpeed is the largest speed from which the vehicle stops within the distance. */
  lemma StopSpeedIsLargest(sqrt: real -> real, accV: real, distance: real, v: real)
    requires IsRoot(sqrt) && accV > 0.0 && v >= 0.0
    ensures StopSpeed(sqrt, accV, distance) >= 0.0
    ensures StoppingDistance(v, Planned(accV)) <= Max(0.0, distance)
       <==> v <= StopSpeed(sqrt, accV, distance)
  {
  }

  function Slew(current: real, desired: real, step: real): real {
    current + Clamp(desired - current, -step, step)
  }

  /** n periods of slewing towards a constant command. */
  function Slewed(current: real, desired: real, step: real, n: nat): real {
    if n == 0 then current else Slew(Slewed(current, desired, step, n - 1), desired, step)
  }

  /** Slewing never overshoots, changes by at most a step a period, and arrives when the steps add up
      to the gap. */
  lemma {:induction false} SlewArrives(current: real, desired: real, step: real, n: nat)
    requires step > 0.0
    ensures var x := Slewed(current, desired, step, n);
            Abs(desired - x) == Max(0.0, Abs(desired - current) - Total(n, step))
            && Min(current, desired) <= x <= Max(current, desired)
  {
    hide Total, Slew;
    TotalMore(n, step);
    if n > 0 {
      SlewArrives(current, desired, step, n - 1);
      OneSlew(current, desired, step, Slewed(current, desired, step, n - 1), Total(n - 1, step));
    }
  }

  function Total(n: nat, step: real): real { (n as real) * step }

  lemma TotalMore(n: nat, step: real)
    requires step > 0.0
    ensures Total(0, step) == 0.0
    ensures n > 0 ==> Total(n - 1, step) >= 0.0 && Total(n, step) == Total(n - 1, step) + step
  {
  }

  lemma OneSlew(current: real, desired: real, step: real, x: real, gone: real)
    requires step > 0.0 && gone >= 0.0
    requires Abs(desired - x) == Max(0.0, Abs(desired - current) - gone)
    requires Min(current, desired) <= x <= Max(current, desired)
    ensures var y := Slew(x, desired, step);
            Abs(desired - y) == Max(0.0, Abs(desired - current) - (gone + step))
            && Min(current, desired) <= y <= Max(current, desired)
  {
  }
}
