/** VelocityEstimator (reset_tracker.h): planar speed and yaw rate from the pose stream alone, over
    a sliding window. The squared speed is kept, so no square root is needed. */
module Velocity {
  import opened ResetProtocol

  const WINDOW: real := 0.4
  const MIN_SPAN: real := 0.2

  datatype Entry = Entry(t: real, pose: Pose)

  datatype Estimate = Estimate(history: seq<Entry>, speed2: real, yawRate: real, valid: bool)

  const EMPTY := Estimate([], 0.0, 0.0, false)

  /** What remains of the window when the newest stamp is `stamp`. */
  function Trim(h: seq<Entry>, stamp: real): (r: seq<Entry>)
    requires |h| > 0
    ensures 0 < |r| <= |h|
  {
    if |h| > 2 && stamp - h[1].t >= WINDOW then Trim(h[1..], stamp) else h
  }

  /** The squared mean speed and the mean yaw rate of the chord between two entries. */
  function ChordSpeed2(first: Entry, last: Entry): real
    requires first.t < last.t
  {
    Dist2(last.pose.x, last.pose.y, first.pose.x, first.pose.y)
      / (last.t - first.t) / (last.t - first.t)
  }

  function ChordYawRate(first: Entry, last: Entry): real
    requires first.t < last.t
  {
    WrapAngle(last.pose.yaw - first.pose.yaw) / (last.t - first.t)
  }

  lemma {:induction false} TrimIsSuffix(h: seq<Entry>, stamp: real)
    requires |h| > 0
    ensures var r := Trim(h, stamp);
            && r == h[|h| - |r|..]
            && (r == h || stamp - r[0].t >= WINDOW)
            && (|r| <= 2 || stamp - r[1].t < WINDOW)
  {
    if |h| > 2 && stamp - h[1].t >= WINDOW {
      TrimIsSuffix(h[1..], stamp);
    }
  }

  function Added(e: Estimate, stamp: real, pose: Pose): Estimate {
    if e.history != [] && stamp <= e.history[|e.history| - 1].t then e
    else
      var h := Trim(e.history + [Entry(stamp, pose)], stamp);
      var span := stamp - h[0].t;
      if span >= MIN_SPAN then
        Estimate(h, ChordSpeed2(h[0], Entry(stamp, pose)), ChordYawRate(h[0], Entry(stamp, pose)),
                 true)
      else e.(history := h)
  }

  ghost predicate Increasing(h: seq<Entry>) {
    forall i, j :: 0 <= i < j < |h| ==> h[i].t < h[j].t
  }

  /** Speed and rate, times the span, are the way and the turn between two entries: the turn is the
      difference of the headings up to whole turns, at most half a turn. */
  ghost predicate ChordOf(speed2: real, yawRate: real, first: Entry, last: Entry) {
    var span := last.t - first.t;
    var dx, dy, dyaw := last.pose.x - first.pose.x, last.pose.y - first.pose.y, last.pose.yaw - first.pose.yaw;
    && speed2 * (span * span) == dx * dx + dy * dy
    && -K_PI <= yawRate * span < K_PI
    && exists k: int :: yawRate * span == Unwound(dyaw, k)
  }

  /** The window invariant: stamps increase, and a valid estimate is the chord of the window that
      is held now, which spans at least MIN_SPAN. */
  ghost predicate WindowInv(e: Estimate) {
    && Increasing(e.history)
    && (e.valid ==>
          && |e.history| >= 2
          && var first, last := e.history[0], e.history[|e.history| - 1];
          && last.t - first.t >= MIN_SPAN && ChordOf(e.speed2, e.yawRate, first, last))
  }

  lemma QuotientTimes(a: real, t: real)
    requires t > 0.0
    ensures a / t * t == a && a / t / t * (t * t) == a
  {
    var q := a / t;
    assert q * t == a && q / t * t == q;
    assert q / t * (t * t) == q / t * t * t;
  }

  lemma ChordIsOf(first: Entry, last: Entry)
    requires first.t < last.t
    ensures ChordOf(ChordSpeed2(first, last), ChordYawRate(first, last), first, last)
  {
    var span, dyaw := last.t - first.t, last.pose.yaw - first.pose.yaw;
    WrapAngleMeans(dyaw);
    QuotientTimes(Dist2(last.pose.x, last.pose.y, first.pose.x, first.pose.y), span);
    QuotientTimes(WrapAngle(dyaw), span);
    hide WrapAngle, Unwound;
    var k: int :| WrapAngle(dyaw) == Unwound(dyaw, k);
    assert ChordYawRate(first, last) * span == Unwound(dyaw, k);
  }

  /** Trimming keeps the newest entry and the order, and never shortens a window below WINDOW. */
  lemma TrimKeepsOrder(h: seq<Entry>, stamp: real)
    requires |h| > 0 && Increasing(h)
    ensures var r := Trim(h, stamp);
            Increasing(r) && r[|r| - 1] == h[|h| - 1] && (r == h || stamp - r[0].t >= WINDOW)
            && (|h| >= 2 ==> |r| >= 2)
    decreases |h|
  {
    if |h| > 2 && stamp - h[1].t >= WINDOW {
      assert Increasing(h[1..]);
      TrimKeepsOrder(h[1..], stamp);
    }
  }

  lemma AppendIncreases(h: seq<Entry>, n: Entry)
    requires Increasing(h) && (h != [] ==> h[|h| - 1].t < n.t)
    ensures Increasing(h + [n])
  {
  }

  /** Once a window has been long enough it stays so: sliding never leaves a valid estimate over a
      window shorter than MIN_SPAN, although `valid` is never cleared by `add`. */
  lemma AddKeepsWindow(e: Estimate, stamp: real, pose: Pose)
    requires WindowInv(e)
    ensures WindowInv(Added(e, stamp, pose))
  {
    hide ChordSpeed2, ChordYawRate, ChordOf, Increasing, Trim;
    if e.history == [] || e.history[|e.history| - 1].t < stamp {
      var all := e.history + [Entry(stamp, pose)];
      AppendIncreases(e.history, Entry(stamp, pose));
      TrimKeepsOrder(all, stamp);
      var h := Trim(all, stamp);
      if stamp - h[0].t >= MIN_SPAN { ChordIsOf(h[0], Entry(stamp, pose)); }
    }
  }

  /** After a fresh pose the window ends with it, and holds nothing that was not there before. */
  lemma AddedWindow(e: Estimate, stamp: real, pose: Pose)
    requires e.history != [] ==> e.history[|e.history| - 1].t < stamp
    ensures var h := Added(e, stamp, pose).history;
            && h != [] && h[|h| - 1] == Entry(stamp, pose)
            && forall i :: 0 <= i < |h| - 1 ==> h[i] in e.history
  {
    hide ChordSpeed2, ChordYawRate, Trim;
    var all := e.history + [Entry(stamp, pose)];
    TrimIsSuffix(all, stamp);
    var h := Added(e, stamp, pose).history;
    assert h == Trim(all, stamp);
    SuffixEntries(e.history, Entry(stamp, pose), h);
  }

  lemma SuffixEntries(h: seq<Entry>, n: Entry, r: seq<Entry>)
    requires 0 < |r| <= |h| + 1 && r == (h + [n])[|h| + 1 - |r|..]
    ensures r[|r| - 1] == n && forall i :: 0 <= i < |r| - 1 ==> r[i] in h
  {
    forall i | 0 <= i < |r| - 1 ensures r[i] in h {
      assert r[i] == h[|h| + 1 - |r| + i];
    }
  }

  class VelocityEstimator {
    var history: seq<Entry>
    var speed2: real
    var yawRate: real
    var valid: bool

    ghost function View(): Estimate reads this { Estimate(history, speed2, yawRate, valid) }

    constructor ()
      ensures View() == EMPTY
    {
      history, speed2, yawRate, valid := [], 0.0, 0.0, false;
    }

    method Reset()
      modifies this
      ensures View() == EMPTY
    {
      history, speed2, yawRate, valid := [], 0.0, 0.0, false;
    }

    method Add(stamp: real, pose: Pose)
      modifies this
      ensures View() == Added(old(View()), stamp, pose)
    {
      hide ChordSpeed2, ChordYawRate;
      if |history| > 0 && stamp <= history[|history| - 1].t {
        return;
      }
      history := history + [Entry(stamp, pose)];
      ghost var all := history;
      while |history| > 2 && stamp - history[1].t >= WINDOW
        invariant |history| > 0 && Trim(history, stamp) == Trim(all, stamp)
        invariant unchanged(`speed2) && unchanged(`yawRate) && unchanged(`valid)
        decreases |history|
      {
        history := history[1..];
      }
      assert history == Trim(all, stamp);
      var first := history[0];
      var span := stamp - first.t;
      if span >= MIN_SPAN {
        speed2 := ChordSpeed2(first, Entry(stamp, pose));
        yawRate := ChordYawRate(first, Entry(stamp, pose));
        valid := true;
      }
    }
  }
}
