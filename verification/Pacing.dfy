/**
 The deadline pacing loop with its rebase. Times are real numbers. For each event three delays
 come from outside: before it starts, while it is published, and oversleeping afterwards.
 */
module Pacing {
  datatype Delay = Delay(before: real, during: real, over: real)

  datatype Plan = Plan(start: real, interval: real, delays: seq<Delay>)

  predicate PlanOk(p: Plan) {
    && p.interval >= 0.0
    && forall i :: 0 <= i < |p.delays| ==>
         p.delays[i].before >= 0.0 && p.delays[i].during >= 0.0 && p.delays[i].over >= 0.0
  }

  /** The clock and the deadline when the loop reaches an event. */
  datatype Clock = Clock(now: real, deadline: real)

  function After(c: Clock, interval: real, d: Delay): Clock {
    var published := c.now + d.before + d.during;
    var next := c.deadline + interval;
    var deadline := if published - next > interval then published else next;
    Clock(if published < deadline then deadline + d.over else published, deadline)
  }

  function At(p: Plan, k: nat): Clock
    requires k <= |p.delays|
  {
    if k == 0 then Clock(p.start, p.start) else After(At(p, k - 1), p.interval, p.delays[k - 1])
  }

  function StartOf(p: Plan, k: nat): real
    requires k < |p.delays|
  {
    At(p, k).now + p.delays[k].before
  }

  /** The loop itself; `starts` are the times at which the events start. */
  method Pace(p: Plan) returns (starts: seq<real>)
    requires PlanOk(p)
    ensures |starts| == |p.delays| && forall k :: 0 <= k < |starts| ==> starts[k] == StartOf(p, k)
    ensures forall k :: 0 <= k < |starts| ==> starts[k] >= p.start + k as real * p.interval
    ensures forall i, j :: 0 <= i < j < |starts| ==> starts[j] - starts[i] >= (j - i - 2) as real * p.interval
    ensures forall k :: 0 <= k < |starts| ==> starts[k] <= p.start + k as real * p.interval + Delays(p, k) + p.delays[k].before
  {
    hide Delays;
    starts := [];
    var nextDeadline, now := p.start, p.start;
    for k := 0 to |p.delays|
      invariant |starts| == k && At(p, k) == Clock(now, nextDeadline)
      invariant forall i :: 0 <= i < k ==> starts[i] == StartOf(p, i)
    {
      now := now + p.delays[k].before;
      starts := starts + [now];
      now := now + p.delays[k].during;
      nextDeadline := nextDeadline + p.interval;
      var lateness := now - nextDeadline;
      if lateness > 0.0 {
        if lateness > p.interval {
          nextDeadline := now;
        }
      }
      if now < nextDeadline {
        now := nextDeadline + p.delays[k].over;
      }
    }
    forall k | 0 <= k < |starts| ensures starts[k] >= p.start + k as real * p.interval {
      NeverEarly(p, k);
    }
    forall k | 0 <= k < |starts|
      ensures starts[k] <= p.start + k as real * p.interval + Delays(p, k) + p.delays[k].before
    {
      NeverIdle(p, k);
    }
    forall i, j | 0 <= i < j < |starts| ensures starts[j] - starts[i] >= (j - i - 2) as real * p.interval {
      NoLongBurst(p, i, j);
    }
  }

  lemma OneMore(k: int, x: real)
    ensures (k + 1) as real * x == k as real * x + x
  {
    assert (k + 1) as real == k as real + 1.0;
  }

  lemma DeadlineAdvances(c: Clock, interval: real, d: Delay)
    requires interval >= 0.0 && d.over >= 0.0
    ensures After(c, interval, d).deadline >= c.deadline + interval
    ensures After(c, interval, d).now >= After(c, interval, d).deadline
  {
  }

  lemma {:induction false} DeadlinesAdvance(p: Plan, i: nat, j: nat)
    requires PlanOk(p) && i <= j <= |p.delays|
    ensures At(p, j).deadline >= At(p, i).deadline + (j - i) as real * p.interval
    ensures At(p, j).now >= At(p, j).deadline
    decreases j - i, j
  {
    hide After;
    if 0 < j { DeadlineAdvances(At(p, j - 1), p.interval, p.delays[j - 1]); }
    if i < j {
      DeadlinesAdvance(p, i, j - 1);
      OneMore(j - 1 - i, p.interval);
    }
  }

  /** Event k starts no earlier than k intervals after the start. */
  lemma NeverEarly(p: Plan, k: nat)
    requires PlanOk(p) && k < |p.delays|
    ensures StartOf(p, k) >= p.start + k as real * p.interval
  {
    hide After;
    DeadlinesAdvance(p, 0, k);
    assert (k - 0) as real == k as real;
  }

  /** All delays before event k. */
  function Delays(p: Plan, k: nat): real
    requires k <= |p.delays|
  {
    if k == 0 then 0.0 else Delays(p, k - 1) + p.delays[k - 1].before + p.delays[k - 1].during + p.delays[k - 1].over
  }

  lemma OneEvent(c: Clock, interval: real, d: Delay)
    requires c.deadline <= c.now && interval >= 0.0 && d.before >= 0.0 && d.during >= 0.0 && d.over >= 0.0
    ensures After(c, interval, d).now <= c.now + interval + d.before + d.during + d.over
  {
  }

  /** The loop waits for nothing but its schedule: event k is late by at most the delays before it. */
  lemma {:induction false} NeverIdle(p: Plan, k: nat)
    requires PlanOk(p) && k <= |p.delays|
    ensures At(p, k).now <= p.start + k as real * p.interval + Delays(p, k)
  {
    hide After;
    if k > 0 {
      NeverIdle(p, k - 1);
      DeadlinesAdvance(p, 0, k - 1);
      OneEvent(At(p, k - 1), p.interval, p.delays[k - 1]);
      OneMore(k - 1, p.interval);
    }
  }

  /** When every event is published within its interval, each starts exactly on schedule. */
  lemma {:induction false} OnSchedule(p: Plan, k: nat)
    requires PlanOk(p) && k <= |p.delays|
    requires forall i :: 0 <= i < k ==> p.delays[i].before + p.delays[i].during <= p.interval && p.delays[i].over == 0.0
    ensures At(p, k) == Clock(p.start + k as real * p.interval, p.start + k as real * p.interval)
  {
    if k > 0 {
      OnSchedule(p, k - 1);
      OneMore(k - 1, p.interval);
    }
  }

  /** The rebase: the next deadline is never more than one interval behind the clock. */
  lemma RebaseCatchesUp(p: Plan, k: nat)
    requires PlanOk(p) && k < |p.delays|
    ensures StartOf(p, k) <= At(p, k + 1).deadline + p.interval
  {
  }

  /** Any run of consecutive gaps is at most two intervals shorter than planned, whatever the delays. */
  lemma NoLongBurst(p: Plan, i: nat, j: nat)
    requires PlanOk(p) && i < j < |p.delays|
    ensures StartOf(p, j) - StartOf(p, i) >= (j - i - 2) as real * p.interval
  {
    hide After, At;
    RebaseCatchesUp(p, i);
    DeadlinesAdvance(p, i + 1, j);
    OneMore(j - i - 2, p.interval);
  }

  // ----- the two intervals are needed -----

  /** One stall of exactly two intervals before the first of n + 1 events, and no other delay. */
  function Stalled(n: nat, interval: real): Plan {
    Plan(0.0, interval, [Delay(interval + interval, 0.0, 0.0)] + seq(n, _ => Delay(0.0, 0.0, 0.0)))
  }

  lemma {:induction false} StalledClock(n: nat, interval: real, k: nat)
    requires interval > 0.0 && 2 <= k <= n + 1
    ensures At(Stalled(n, interval), k) == Clock(k as real * interval, k as real * interval)
  {
    var p := Stalled(n, interval);
    assert p.delays[0] == Delay(interval + interval, 0.0, 0.0);
    assert forall i :: 0 < i < |p.delays| ==> p.delays[i] == Delay(0.0, 0.0, 0.0);
    assert At(p, 1) == Clock(interval + interval, interval);
    if k == 2 {
      assert At(p, 2) == Clock(interval + interval, interval + interval);
    } else {
      StalledClock(n, interval, k - 1);
      OneMore(k - 1, interval);
    }
  }

  /** The bound of `NoLongBurst` is met exactly. */
  lemma BurstBoundIsTight(n: nat, interval: real)
    requires interval > 0.0 && n >= 2
    ensures PlanOk(Stalled(n, interval))
    ensures StartOf(Stalled(n, interval), n) - StartOf(Stalled(n, interval), 0) == (n - 2) as real * interval
  {
    var p := Stalled(n, interval);
    StalledClock(n, interval, n);
    OneMore(n - 2, interval);
    OneMore(n - 1, interval);
  }
}
