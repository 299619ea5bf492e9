/**
 * Cron schedules as an abstract "least tick strictly after" function, and the
 * bounded walk that finds the tick a policy is due to act on.
 */
module Schedule {
  import opened Base

  type Time = int

  const MaxCatchup: nat := 100

  /** How many coming gaps the lookback window is measured from. */
  const LookbackSamples: nat := 4

  /** next(t) is later than t and is the same for every time up to it: nothing lies between. */
  ghost predicate IsSchedule(next: Time -> Time) {
    && (forall t :: next(t) > t)
    && forall t, u :: t <= u < next(t) ==> next(u) == next(t)
  }

  /** x is a tick: the least one after the instant before it. */
  predicate Tick(next: Time -> Time, x: Time) {
    next(x - 1) == x
  }

  /** The number of ticks in (a, b]. */
  ghost function Count(next: Time -> Time, a: Time, b: Time): nat
    requires IsSchedule(next)
    decreases b - a
  {
    if next(a) > b then 0 else 1 + Count(next, next(a), b)
  }

  /** The last tick in (a, b], if there is one. */
  ghost function Latest(next: Time -> Time, a: Time, b: Time): Option<Time>
    requires IsSchedule(next)
    decreases b - a
  {
    if next(a) > b then None
    else if next(next(a)) > b then Some(next(a))
    else Latest(next, next(a), b)
  }

  // ---- What next gives ----

  /** next(t) is the least tick after t. */
  lemma NextIsLeast(next: Time -> Time, t: Time)
    requires IsSchedule(next)
    ensures Tick(next, next(t))
    ensures forall x :: t < x && Tick(next, x) ==> next(t) <= x
  {
    assert next(next(t) - 1) == next(t);
    forall x | t < x && Tick(next, x) ensures next(t) <= x {
      assert t <= x - 1 < next(t) ==> next(x - 1) == next(t);
    }
  }

  ghost function Ticks(next: Time -> Time, a: Time, b: Time): set<Time> {
    set x: Time | a < x <= b && Tick(next, x)
  }

  /** Count really counts. */
  lemma {:induction false} CountIsCardinality(next: Time -> Time, a: Time, b: Time)
    requires IsSchedule(next)
    ensures Count(next, a, b) == |Ticks(next, a, b)|
    decreases b - a
  {
    NextIsLeast(next, a);
    if next(a) > b {
      assert Ticks(next, a, b) == {};
    } else {
      CountIsCardinality(next, next(a), b);
      assert Ticks(next, a, b) == {next(a)} + Ticks(next, next(a), b);
    }
  }

  /** Latest really is the greatest tick of the window, and next(b) the least one past it. */
  lemma {:induction false} LatestIsGreatest(next: Time -> Time, a: Time, b: Time)
    requires IsSchedule(next)
    ensures Latest(next, a, b) == None <==> Ticks(next, a, b) == {}
    ensures Latest(next, a, b).Some? ==>
              var d := Latest(next, a, b).value; d in Ticks(next, a, b) && next(d) == next(b) && forall x :: x in Ticks(next, a, b) ==> x <= d
    decreases b - a
  {
    NextIsLeast(next, a);
    if next(a) <= b {
      NextIsLeast(next, next(a));
      if next(next(a)) <= b {
        LatestIsGreatest(next, next(a), b);
        assert next(next(a)) in Ticks(next, next(a), b);
      }
      assert next(a) in Ticks(next, a, b);
    }
  }

  lemma {:induction false} CountSplit(next: Time -> Time, a: Time, m: Time, b: Time)
    requires IsSchedule(next) && a <= m <= b
    ensures Count(next, a, b) == Count(next, a, m) + Count(next, m, b)
    decreases b - a
  {
    if next(a) <= m {
      CountSplit(next, next(a), m, b);
    }
  }

  // ---- The walk ----

  datatype Due = Backlog | Nothing(next: Time) | Act(tick: Time, next: Time)

  /**
   * nextSchedule: the greatest tick in (earliest, now] and the least one after now,
   * giving up exactly when more than maxCatchup + 1 ticks lie in between.  On a clock
   * behind `earliest` there is nothing due, and the next tick is the one after `earliest`.
   */
  method NextSchedule(next: Time -> Time, earliest: Time, now: Time, maxCatchup: nat) returns (r: Due)
    requires IsSchedule(next)
    ensures r == Backlog <==> |Ticks(next, earliest, now)| > maxCatchup + 1
    ensures r.Nothing? ==> Ticks(next, earliest, now) == {} && r.next == next(Max(earliest, now))
    ensures r.Act? ==> Latest(next, earliest, now) == Some(r.tick) && r.next == next(now)
  {
    CountIsCardinality(next, earliest, now);
    LatestIsGreatest(next, earliest, now);
    var t := next(earliest);
    if t > now {
      return Nothing(t);
    }
    var last := t;
    var n := 0;
    while true
      invariant earliest < last <= now && t == last && 0 <= n <= maxCatchup
      invariant Count(next, earliest, now) == n + 1 + Count(next, last, now)
      invariant Latest(next, earliest, now) == if next(last) > now then Some(last) else Latest(next, last, now)
      decreases now - last
    {
      t := next(t);
      if t > now {
        break;
      }
      if n >= maxCatchup {
        return Backlog;
      }
      last := t;
      n := n + 1;
    }
    r := Act(last, t);
  }

  // ---- The lookback window ----

  /** The gap between tick k and tick k + 1 after `now`, counting from zero. */
  function TickAfter(next: Time -> Time, now: Time, k: nat): Time {
    if k == 0 then next(now) else next(TickAfter(next, now, k - 1))
  }

  function GapAfter(next: Time -> Time, now: Time, k: nat): int {
    TickAfter(next, now, k + 1) - TickAfter(next, now, k)
  }

  function Max(a: int, b: int): int { if a < b then b else a }

  function Widest(next: Time -> Time, now: Time, k: nat): (w: int)
    ensures w >= 0 && forall i :: 0 <= i < k ==> GapAfter(next, now, i) <= w
    ensures w == 0 || exists i :: 0 <= i < k && GapAfter(next, now, i) == w
  {
    if k == 0 then 0 else Max(Widest(next, now, k - 1), GapAfter(next, now, k - 1))
  }

  function Lookback(next: Time -> Time, now: Time): int {
    2 * Widest(next, now, LookbackSamples)
  }

  /** lookbackFloor: twice the widest of the next four gaps. */
  method LookbackFloor(next: Time -> Time, now: Time) returns (floor: int)
    ensures floor == Lookback(next, now)
  {
    var t := next(now);
    var widest := 0;
    for i := 0 to LookbackSamples
      invariant t == TickAfter(next, now, i) && widest == Widest(next, now, i)
    {
      var n := next(t);
      if n - t > widest {
        widest := n - t;
      }
      t := n;
    }
    floor := 2 * widest;
  }

  // ---- Evenly spaced schedules ----

  ghost predicate Even(next: Time -> Time, period: int) {
    forall t :: Tick(next, t) ==> next(t) == t + period
  }

  lemma EvenNext(next: Time -> Time, period: int, t: Time)
    requires IsSchedule(next) && Even(next, period)
    ensures next(next(t)) == next(t) + period && period > 0
  {
    NextIsLeast(next, t);
  }

  lemma EvenGap(next: Time -> Time, period: int, now: Time, k: nat)
    requires IsSchedule(next) && Even(next, period)
    ensures GapAfter(next, now, k) == period
  {
    EvenNext(next, period, if k == 0 then now else TickAfter(next, now, k - 1));
  }

  lemma EvenFloor(next: Time -> Time, period: int, now: Time)
    requires IsSchedule(next) && Even(next, period)
    ensures Lookback(next, now) == 2 * period && period > 0
  {
    EvenNext(next, period, now);
    EvenGap(next, period, now, 0);
    EvenGap(next, period, now, 1);
    EvenGap(next, period, now, 2);
    EvenGap(next, period, now, 3);
  }

  lemma TwoPeriods(next: Time -> Time, period: int, earliest: Time, now: Time)
    requires IsSchedule(next) && Even(next, period) && earliest >= now - 2 * period
    ensures |Ticks(next, earliest, now)| <= 2
  {
    CountIsCardinality(next, earliest, now);
    var a := next(earliest);
    EvenNext(next, period, earliest);
    EvenNext(next, period, a);
    assert Count(next, next(a), now) == 0;
  }

  /** However far behind, the window of an evenly spaced schedule holds at most two ticks. */
  lemma EvenSeesTwo(next: Time -> Time, period: int, earliest: Time, now: Time)
    requires IsSchedule(next) && Even(next, period) && earliest >= now - Lookback(next, now)
    ensures |Ticks(next, earliest, now)| <= 2
  {
    EvenFloor(next, period, now);
    TwoPeriods(next, period, earliest, now);
  }

  /** Every hour on the hour, in seconds. */
  function Hourly(t: Time): Time { (t / 3600 + 1) * 3600 }

  lemma HourlyIsEven()
    ensures IsSchedule(Hourly) && Even(Hourly, 3600)
  {
    forall t, u | t <= u < Hourly(t) ensures Hourly(u) == Hourly(t) {
      assert u / 3600 == t / 3600;
    }
    forall t | Tick(Hourly, t) ensures Hourly(t) == t + 3600 {
      assert t == ((t - 1) / 3600 + 1) * 3600;
      assert t / 3600 == (t - 1) / 3600 + 1;
    }
  }

  // ---- An uneven schedule that the window does not tame ----

  /** Every minute from 09:00 to 09:59, in minutes. */
  function NineOClock(t: Time): Time {
    var day, m := t / 1440, t % 1440;
    if m < 540 then day * 1440 + 540
    else if m < 599 then t + 1
    else (day + 1) * 1440 + 540
  }

  lemma NineOClockIsSchedule()
    ensures IsSchedule(NineOClock)
  {
    forall t, u | t <= u < NineOClock(t) ensures NineOClock(u) == NineOClock(t) {
      if t % 1440 < 540 {
        assert u / 1440 == t / 1440;
      } else if t % 1440 >= 599 {
        assert u / 1440 == t / 1440 || u / 1440 == t / 1440 + 1;
      }
    }
  }

  predicate StepsAt(next: Time -> Time, t: Time) {
    next(t) == t + 1
  }

  /** A stretch with a tick every minute. */
  lemma {:induction false} Dense(next: Time -> Time, a: Time, b: Time)
    requires IsSchedule(next) && a <= b && forall t :: a <= t < b ==> StepsAt(next, t)
    ensures Count(next, a, b) == b - a
    decreases b - a
  {
    if a < b {
      assert StepsAt(next, a);
      Dense(next, a + 1, b);
    }
  }

  lemma NineOClockHour(day: int, t: Time)
    requires 1440 * day + 539 <= t < 1440 * day + 599
    ensures StepsAt(NineOClock, t)
  {
    assert t / 1440 == day;
  }

  lemma NineOClockCount(day: int, k: nat)
    requires k <= 60
    ensures IsSchedule(NineOClock) && Count(NineOClock, 1440 * day + 539, 1440 * day + 539 + k) == k
  {
    NineOClockIsSchedule();
    forall t | 1440 * day + 539 <= t < 1440 * day + 539 + k ensures StepsAt(NineOClock, t) {
      NineOClockHour(day, t);
    }
    Dense(NineOClock, 1440 * day + 539, 1440 * day + 539 + k);
  }

  lemma NineOClockFloor(day: int)
    ensures Lookback(NineOClock, 1440 * day + 598) >= 2762
  {
    var now := 1440 * day + 598;
    NineOClockHour(day, now);
    assert (now + 1) / 1440 == day;
    assert TickAfter(NineOClock, now, 0) == now + 1;
    assert TickAfter(NineOClock, now, 1) == NineOClock(now + 1);
    assert GapAfter(NineOClock, now, 0) == 1381;
  }

  lemma CountMonotone(next: Time -> Time, a: Time, c: Time, d: Time, b: Time)
    requires IsSchedule(next) && a <= c <= d <= b
    ensures Count(next, a, b) >= Count(next, c, d) + Count(next, d, b)
  {
    CountSplit(next, a, c, b);
    CountSplit(next, c, d, b);
  }

  lemma TwoStretches(next: Time -> Time, start: Time, y: Time, x: Time, now: Time)
    requires IsSchedule(next) && start <= y && y + 60 <= x <= now
    ensures Count(next, start, now) >= Count(next, y, y + 60) + Count(next, x, now)
  {
    CountMonotone(next, start, y, y + 60, now);
    CountMonotone(next, y + 60, x, now, now);
  }

  lemma TwoBusyHours(day: int, start: Time)
    requires start <= 1440 * day + 598 - 2762
    ensures IsSchedule(NineOClock) && Count(NineOClock, start, 1440 * day + 598) > MaxCatchup + 1
  {
    NineOClockIsSchedule();
    var y, x := 1440 * (day - 1) + 539, 1440 * day + 539;
    NineOClockCount(day - 1, 60);
    NineOClockCount(day, 59);
    TwoStretches(NineOClock, start, y, x, 1440 * day + 598);
  }

  /**
   * The window alone does not keep a policy from giving up: at 09:58 on this schedule it
   * reaches back past yesterday's hour, and both hours together are over the limit.
   */
  lemma UnevenOverflows(day: int)
    ensures IsSchedule(NineOClock)
    ensures var now := 1440 * day + 598; |Ticks(NineOClock, now - Lookback(NineOClock, now), now)| > MaxCatchup + 1
  {
    NineOClockIsSchedule();
    NineOClockFloor(day);
    var now := 1440 * day + 598;
    var start := now - Lookback(NineOClock, now);
    CountIsCardinality(NineOClock, start, now);
    TwoBusyHours(day, start);
  }

  /** Before nine nothing is due, and the coming gaps are one minute each. */
  lemma NineOClockGap(day: int, t: Time)
    requires 1440 * day <= t < 1440 * day + 540
    ensures NineOClock(t) == 1440 * day + 540
  {
    assert t / 1440 == day;
  }

  lemma NineOClockTicks(day: int, k: nat)
    requires k <= 5
    ensures TickAfter(NineOClock, 1440 * day + 480, k) == 1440 * day + 540 + k
  {
    if k == 0 {
      NineOClockGap(day, 1440 * day + 480);
    } else {
      NineOClockTicks(day, k - 1);
      NineOClockHour(day, 1440 * day + 540 + k - 1);
    }
  }

  lemma NineOClockShort(day: int)
    ensures Lookback(NineOClock, 1440 * day + 480) == 2
  {
    var now := 1440 * day + 480;
    forall k: nat | k <= 5 ensures TickAfter(NineOClock, now, k) == 1440 * day + 540 + k {
      NineOClockTicks(day, k);
    }
    assert forall k: nat :: k < 4 ==> GapAfter(NineOClock, now, k) == 1;
    assert GapAfter(NineOClock, now, 0) == 1;
  }
}
