/** The stats watcher's exit on inactivity. Times are in nanoseconds from the watcher's start, ticks are
    ideal, and `activity` lists when a job was counted, as completed or failed, in order. */
module Inactivity {
  import opened Wrappers

  const MINUTE: int := 60_000_000_000

  /** The longest duration; the distance from the zero time to now is cut off to it. */
  const MAX_DURATION: int := 0x7FFF_FFFF_FFFF_FFFF

  function Period(d: int): int
  {
    if 0 < d < MINUTE then d / 2 else MINUTE
  }

  predicate Ordered(activity: seq<int>)
  {
    forall i, j | 0 <= i < j < |activity| :: activity[i] <= activity[j]
  }

  /** The latest activity at or before `t`. */
  function LastBy(activity: seq<int>, t: int): (r: Option<int>)
    ensures r.Some? ==> r.value in activity && r.value <= t
    ensures Ordered(activity) ==> forall a | a in activity && a <= t :: r.Some? && a <= r.value
  {
    if activity == [] then None
    else
      var last := activity[|activity| - 1];
      if last <= t then Some(last)
      else
        assert activity == activity[..|activity| - 1] + [last];
        LastBy(activity[..|activity| - 1], t)
  }

  /** How long ago the last activity was; without one `lastActivityAt` is still the zero time. */
  function SinceLast(activity: seq<int>, t: int): int
  {
    match LastBy(activity, t)
    case None => MAX_DURATION
    case Some(a) => t - a
  }

  predicate Idle(activity: seq<int>, t: int, d: int) { SinceLast(activity, t) > d }

  datatype Watched = NeverCancels | TickerPanics | CancelsAt(tick: nat, time: int)

  /** The time of the k-th tick. */
  function Tick(d: int, k: nat): int { k * Period(d) }

  /** The `k`-th tick is the first that finds the scraper idle. */
  predicate FirstIdleTick(activity: seq<int>, d: int, k: nat)
  {
    k > 0 && Idle(activity, Tick(d, k), d) && forall i: nat | 0 < i < k :: !Idle(activity, Tick(d, i), d)
  }

  lemma AppendKeepsOrder(activity: seq<int>, now: int)
    requires Ordered(activity) && forall a | a in activity :: a <= now
    ensures Ordered(activity + [now])
  {
    forall i | 0 <= i < |activity| ensures activity[i] <= now { assert activity[i] in activity; }
  }

  /** The counters the workers and the watcher share, with the history of their updates. */
  class Stats {
    var completed: nat
    var failed: nat
    var lastActivityAt: Option<int>
    ghost var activity: seq<int>

    ghost predicate Valid()
      reads this
    {
      && Ordered(activity) && completed + failed == |activity|
      && lastActivityAt == if activity == [] then None else Some(activity[|activity| - 1])
    }

    constructor ()
      ensures Valid() && activity == [] && lastActivityAt == None
    {
      completed, failed, lastActivityAt, activity := 0, 0, None, [];
    }

    method IncJobsCompleted(now: int)
      requires Valid() && forall a | a in activity :: a <= now
      modifies this
      ensures Valid() && activity == old(activity) + [now]
      ensures completed == old(completed) + 1 && failed == old(failed)
    {
      AppendKeepsOrder(activity, now);
      completed, lastActivityAt, activity := completed + 1, Some(now), activity + [now];
    }

    method IncJobsFailed(now: int)
      requires Valid() && forall a | a in activity :: a <= now
      modifies this
      ensures Valid() && activity == old(activity) + [now]
      ensures failed == old(failed) + 1 && completed == old(completed)
    {
      AppendKeepsOrder(activity, now);
      failed, lastActivityAt, activity := failed + 1, Some(now), activity + [now];
    }

    /** What the watcher reads at time `now` is the latest activity up to then. */
    method GetStats(now: int) returns (c: nat, f: nat, last: Option<int>)
      requires Valid() && forall a | a in activity :: a <= now
      ensures c == completed && f == failed && last == LastBy(activity, now)
    {
      c, f, last := completed, failed, lastActivityAt;
      assert activity != [] ==> activity[|activity| - 1] in activity;
    }
  }

  /** The watcher's loop, for a run whose recorded activity is `activity`. */
  method Watch(activity: seq<int>, d: int) returns (r: Watched)
    requires d < MAX_DURATION && Ordered(activity)
    ensures d <= 0 <==> r == NeverCancels
    ensures d == 1 <==> r == TickerPanics
    ensures d >= 2 ==> r.CancelsAt? && forall k: nat :: FirstIdleTick(activity, d, k) <==> k == r.tick
    // The ticks come every half limit, but at least once a minute.
    ensures d >= 2 ==> r.time == r.tick * if d < 60_000_000_000 then d / 2 else 60_000_000_000
    // The first of them that finds no activity within the limit cancels.
    ensures d >= 2 ==> forall a | a in activity :: a < r.time - d || a > r.time
  {
    if d <= 0 { return NeverCancels; }
    var period := Period(d);
    if period <= 0 { return TickerPanics; }
    var tick, now := 0, 0;
    ghost var last := if activity == [] then 0 else activity[|activity| - 1];
    while true
      invariant now == Tick(d, tick) >= 0
      invariant forall i: nat | 0 < i <= tick :: !Idle(activity, Tick(d, i), d)
      decreases (if last > 0 then last else 0) + d + period - now
    {
      assert Tick(d, tick + 1) == now + period;
      tick, now := tick + 1, now + period;
      if SinceLast(activity, now) > d {
        FirstIdleTickIsUnique(activity, d, tick);
        IdleIffNotRecentlyActive(activity, now, d);
        NotRecently(activity, now, d);
        return CancelsAt(tick, now);
      }
      assert LastBy(activity, now).Some?;
      assert LastBy(activity, now).value <= last;
    }
  }

  lemma FirstIdleTickIsUnique(activity: seq<int>, d: int, k: nat)
    requires FirstIdleTick(activity, d, k)
    ensures forall j: nat :: FirstIdleTick(activity, d, j) <==> j == k
  {
  }

  /** When the first tick finds an activity within the last `d`, scraping is cancelled later than `d`, and
      no later than one period more, after the last recorded activity. */
  lemma CancelledWithinOnePeriod(activity: seq<int>, d: int, k: nat)
    requires 2 <= d < MAX_DURATION && Ordered(activity) && FirstIdleTick(activity, d, k)
    requires RecentlyActive(activity, Period(d), d)
    ensures var last := LastBy(activity, Tick(d, k));
            && last.Some?
            && d < Tick(d, k) - last.value <= d + if d < 60_000_000_000 then d / 2 else 60_000_000_000
  {
    assert Tick(d, 1) == Period(d);
    var a :| a in activity && Period(d) - d <= a <= Period(d);
    TicksGrow(d, k);
    var before := LastBy(activity, Tick(d, k - 1));
    if k > 1 {
      TicksGrow(d, k - 1);
      assert !Idle(activity, Tick(d, k - 1), d);
      assert before.Some?;
      assert before.value <= Tick(d, k);
    }
  }

  lemma TicksGrow(d: int, k: nat)
    requires d >= 2 && k > 0
    ensures Tick(d, k) == Tick(d, k - 1) + Period(d) && Tick(d, k) >= Period(d) > 0
  {
    assert (k - 1) * Period(d) >= 0;
  }

  /** The first tick cancels exactly when no activity has been recorded within the last `d`. Of activity
      recorded after the watcher started that means none by then: a start slower than the first period
      counts as inactivity. */
  lemma FirstTickCancelsIffNothingRecorded(activity: seq<int>, d: int)
    requires 2 <= d < MAX_DURATION && Ordered(activity)
    ensures FirstIdleTick(activity, d, 1) <==> !RecentlyActive(activity, Period(d), d)
    ensures (forall a | a in activity :: a >= 0) ==>
              (FirstIdleTick(activity, d, 1) <==> forall a | a in activity :: a > Period(d))
  {
    assert Tick(d, 1) == Period(d) <= d;
    IdleIffNotRecentlyActive(activity, Period(d), d);
  }

  lemma NotRecently(activity: seq<int>, t: int, d: int)
    requires !RecentlyActive(activity, t, d)
    ensures forall a | a in activity :: a < t - d || a > t
  {
  }

  /** A tick finds the scraper idle exactly when nothing was recorded within the last `d`. */
  lemma IdleIffNotRecentlyActive(activity: seq<int>, t: int, d: int)
    requires d < MAX_DURATION && Ordered(activity)
    ensures Idle(activity, t, d) <==> !RecentlyActive(activity, t, d)
  {
    var last := LastBy(activity, t);
    if last.Some? { assert last.value in activity; }
  }

  /** Scraping goes on past every tick up to which each tick finds an activity within the last `d`, and
      ends at the first tick that finds none. */
  lemma CancelledAtTheFirstTickWithoutActivity(activity: seq<int>, d: int, k: nat)
    requires 2 <= d < 0x7FFF_FFFF_FFFF_FFFF && Ordered(activity) && k > 0
    ensures FirstIdleTick(activity, d, k)
            <==> !RecentlyActive(activity, Tick(d, k), d)
                 && forall i: nat | 0 < i < k :: RecentlyActive(activity, Tick(d, i), d)
  {
    forall i: nat ensures RecentlyActive(activity, Tick(d, i), d) <==> !Idle(activity, Tick(d, i), d) {
      IdleIffNotRecentlyActive(activity, Tick(d, i), d);
    }
  }

  ghost predicate RecentlyActive(activity: seq<int>, t: int, d: int)
  {
    exists a :: a in activity && t - d <= a <= t
  }
}
