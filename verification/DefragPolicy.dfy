/**
 * A defragmentation policy: which tick it acts on, and what it remembers of it.
 *
 * The clock is arbitrary: it may stand still, jump ahead or run backwards
 * between reconciles.
 */
module DefragPolicy {
  import opened Base
  import opened Schedule

  /** The parts of spec a reconcile reads. */
  datatype Settings = Settings(deadline: Option<nat>, forbidConcurrent: bool, suspended: bool, scheduleValid: bool)

  /** What the API server answers to the Create of a run, if the pass gets that far. */
  datatype Reply = Accepted | Rejected

  /** `lost`: the pass stops before its closing status write. */
  datatype Visit = Visit(now: Time, settings: Settings, active: nat, reply: Reply, lost: bool)

  /**
   * last: status.lastScheduleTime.  runs: the names of the runs that exist, keyed by minute.
   * stamped: the ticks whose run was created, in order of creation.
   */
  datatype Policy = Policy(created: Time, last: Option<Time>, runs: set<int>, stamped: seq<Time>)

  function Anchor(p: Policy): Time {
    match p.last
    case Some(t) => t
    case None => p.created
  }

  function Cutoff(next: Time -> Time, s: Settings, now: Time): Time {
    match s.deadline
    case Some(d) => now - d
    case None => now - Lookback(next, now)
  }

  function Earliest(next: Time -> Time, p: Policy, v: Visit): Time {
    Max(Anchor(p), Cutoff(next, v.settings, v.now))
  }

  /** The run's name depends on the tick's minute only. */
  function RunKey(tick: Time): int { tick / 60 }

  predicate Scheduling(s: Settings) { !s.suspended && s.scheduleValid }

  /** The tick a visit acts on. */
  ghost function DueTick(next: Time -> Time, p: Policy, v: Visit): Option<Time>
    requires IsSchedule(next)
  {
    var from := Earliest(next, p, v);
    if !Scheduling(v.settings) || |Ticks(next, from, v.now)| > MaxCatchup + 1 then None
    else Latest(next, from, v.now)
  }

  function Record(p: Policy, tick: Time, lost: bool): Policy {
    if lost then p else p.(last := Some(tick))
  }

  /** What a visit does about its tick: skip it, find it stamped already, or stamp it; then record it. */
  function ActOn(p: Policy, tick: Time, v: Visit): Policy {
    if v.settings.forbidConcurrent && v.active > 0 then Record(p, tick, v.lost)
    else if RunKey(tick) in p.runs then Record(p, tick, v.lost)
    else if v.reply == Rejected then p
    else Record(p.(runs := p.runs + {RunKey(tick)}, stamped := p.stamped + [tick]), tick, v.lost)
  }

  /** One reconcile. */
  ghost function Visited(next: Time -> Time, p: Policy, v: Visit): Policy
    requires IsSchedule(next)
  {
    match DueTick(next, p, v)
    case None => p
    case Some(tick) => ActOn(p, tick, v)
  }

  // ---- The anchor ----

  /** Every write of lastScheduleTime moves it strictly forward, to the greatest tick not after now. */
  lemma AnchorAdvances(next: Time -> Time, p: Policy, v: Visit)
    requires IsSchedule(next)
    ensures var q := Visited(next, p, v);
            q.last != p.last ==>
              && q.last.Some? && Anchor(p) < q.last.value <= v.now && Tick(next, q.last.value)
              && forall x :: q.last.value < x <= v.now ==> !Tick(next, x)
  {
    if DueTick(next, p, v).Some? {
      DueIsLater(next, p, v);
    }
  }

  // ---- Exactly when a policy acts on its latest tick ----

  /** The window holds the latest unhandled tick exactly when that tick is past the cutoff. */
  lemma WindowHolds(next: Time -> Time, a: Time, from: Time, now: Time)
    requires IsSchedule(next) && a <= from
    ensures var d := Latest(next, a, now);
            Latest(next, from, now) == if d.Some? && d.value > from then d else None
  {
    LatestIsGreatest(next, a, now);
    LatestIsGreatest(next, from, now);
    assert Ticks(next, from, now) <= Ticks(next, a, now);
    var d, e := Latest(next, a, now), Latest(next, from, now);
    assert d.Some? && d.value > from ==> d.value in Ticks(next, from, now);
  }

  /**
   * For every schedule and every clock: the policy acts on the latest tick it has not handled
   * exactly when there is none, or when the cutoff has not passed it and the window is not
   * crowded.
   */
  lemma ResumesExactlyWhen(next: Time -> Time, p: Policy, v: Visit)
    requires IsSchedule(next) && Scheduling(v.settings)
    ensures var latest := Latest(next, Anchor(p), v.now);
            DueTick(next, p, v) == latest <==>
              || latest.None?
              || (latest.value > Cutoff(next, v.settings, v.now) && |Ticks(next, Earliest(next, p, v), v.now)| <= MaxCatchup + 1)
  {
    var from := Earliest(next, p, v);
    WindowHolds(next, Anchor(p), from, v.now);
    LatestIsGreatest(next, Anchor(p), v.now);
    LatestIsGreatest(next, from, v.now);
  }

  /** A policy on an evenly spaced schedule with no deadline acts on the latest unhandled tick, however far behind it is. */
  lemma EvenAlwaysResumes(next: Time -> Time, period: int, p: Policy, v: Visit)
    requires IsSchedule(next) && Even(next, period) && Scheduling(v.settings) && v.settings.deadline == None
    ensures DueTick(next, p, v) == Latest(next, Anchor(p), v.now)
  {
    EvenSeesTwo(next, period, Earliest(next, p, v), v.now);
    EvenFloor(next, period, v.now);
    EvenInWindow(next, period, Anchor(p), v.now);
    ResumesExactlyWhen(next, p, v);
  }

  /** The last tick of an evenly spaced schedule is less than a period old. */
  lemma EvenInWindow(next: Time -> Time, period: int, a: Time, now: Time)
    requires IsSchedule(next) && Even(next, period) && period > 0
    ensures var d := Latest(next, a, now); d.Some? ==> d.value > now - 2 * period
  {
    LatestIsGreatest(next, a, now);
    var d := Latest(next, a, now);
    if d.Some? {
      assert Tick(next, d.value);
      assert next(now) > now;
    }
  }

  /** The window is crowded: a tick is due, and none is acted on. */
  lemma CrowdedWindowStops(next: Time -> Time, p: Policy, v: Visit)
    requires IsSchedule(next) && |Ticks(next, Earliest(next, p, v), v.now)| > MaxCatchup + 1
    ensures DueTick(next, p, v) == None && Latest(next, Anchor(p), v.now).Some?
  {
    var from := Earliest(next, p, v);
    LatestIsGreatest(next, from, v.now);
    WindowHolds(next, Anchor(p), from, v.now);
  }

  lemma FarBehind(next: Time -> Time, p: Policy, v: Visit)
    requires v.settings.deadline == None && Anchor(p) <= v.now - Lookback(next, v.now)
    ensures Earliest(next, p, v) == v.now - Lookback(next, v.now)
  {
  }

  /** First failure: a window that reaches back over two busy hours is too crowded, and the policy stops. */
  lemma UnevenPolicyStops(day: int, p: Policy, v: Visit)
    requires v.now == 1440 * day + 598 && v.settings.deadline == None
    requires Anchor(p) <= v.now - Lookback(NineOClock, v.now)
    ensures IsSchedule(NineOClock)
    ensures DueTick(NineOClock, p, v) == None && Latest(NineOClock, Anchor(p), v.now).Some?
  {
    UnevenOverflows(day);
    FarBehind(NineOClock, p, v);
    CrowdedWindowStops(NineOClock, p, v);
  }

  /** The window has lost the tick: it is dropped, with no backlog reported. */
  lemma ShortWindowSkips(next: Time -> Time, p: Policy, v: Visit, tick: Time)
    requires IsSchedule(next) && Scheduling(v.settings) && Anchor(p) < tick <= v.now && Tick(next, tick)
    requires next(Earliest(next, p, v)) > v.now
    ensures DueTick(next, p, v) == None && Latest(next, Anchor(p), v.now).Some?
    ensures |Ticks(next, Earliest(next, p, v), v.now)| <= MaxCatchup + 1
  {
    LatestIsGreatest(next, Anchor(p), v.now);
    assert tick in Ticks(next, Anchor(p), v.now);
    CountIsCardinality(next, Earliest(next, p, v), v.now);
  }

  /** Second failure: at 08:00 the window is two minutes long, and yesterday's last tick is skipped in silence. */
  lemma ShortWindowDrops(day: int, p: Policy, v: Visit)
    requires v.now == 1440 * day + 480 && v.settings.deadline == None && Scheduling(v.settings)
    requires Anchor(p) <= 1440 * (day - 1) + 598
    ensures IsSchedule(NineOClock)
    ensures DueTick(NineOClock, p, v) == None && Latest(NineOClock, Anchor(p), v.now).Some?
    ensures |Ticks(NineOClock, Earliest(NineOClock, p, v), v.now)| <= MaxCatchup + 1
  {
    NineOClockIsSchedule();
    NineOClockShort(day);
    NineOClockHour(day - 1, 1440 * (day - 1) + 598);
    FarBehind(NineOClock, p, v);
    NineOClockGap(day, v.now - 2);
    ShortWindowSkips(NineOClock, p, v, 1440 * (day - 1) + 599);
  }

  // ---- No tick is acted on twice ----

  /** Ticks fall on whole minutes. */
  ghost predicate Minutely(next: Time -> Time) {
    forall x :: Tick(next, x) ==> x % 60 == 0
  }

  /** What has been stamped is either recorded in status or still there under its name. */
  ghost predicate Remembered(next: Time -> Time, p: Policy) {
    && (forall i :: 0 <= i < |p.stamped| ==> Tick(next, p.stamped[i]))
    && (forall i :: 0 <= i < |p.stamped| ==> p.stamped[i] <= Anchor(p) || RunKey(p.stamped[i]) in p.runs)
    && forall i, j :: 0 <= i < j < |p.stamped| ==> p.stamped[i] != p.stamped[j]
  }

  datatype Event = Reconcile(visit: Visit) | Collect(key: int)

  ghost function Next(next: Time -> Time, p: Policy, e: Event): Policy
    requires IsSchedule(next)
  {
    match e
    case Reconcile(v) => Visited(next, p, v)
    case Collect(k) => p.(runs := p.runs - {k})
  }

  /** A run may be deleted once the policy has recorded its tick. */
  ghost predicate Timely(p: Policy, e: Event) {
    e.Collect? ==> forall i :: 0 <= i < |p.stamped| && RunKey(p.stamped[i]) == e.key ==> p.stamped[i] <= Anchor(p)
  }

  lemma SameKeySameTick(next: Time -> Time, x: Time, y: Time)
    requires Minutely(next) && Tick(next, x) && Tick(next, y)
    ensures RunKey(x) == RunKey(y) <==> x == y
  {
  }

  lemma ActRemembers(next: Time -> Time, p: Policy, tick: Time, v: Visit)
    requires Minutely(next) && Remembered(next, p) && Tick(next, tick) && Anchor(p) < tick
    ensures Remembered(next, ActOn(p, tick, v))
  {
    forall i | 0 <= i < |p.stamped| ensures RunKey(p.stamped[i]) == RunKey(tick) <==> p.stamped[i] == tick {
      SameKeySameTick(next, p.stamped[i], tick);
    }
  }

  lemma DueIsLater(next: Time -> Time, p: Policy, v: Visit)
    requires IsSchedule(next) && DueTick(next, p, v).Some?
    ensures var tick := DueTick(next, p, v).value;
            Tick(next, tick) && Anchor(p) < tick <= v.now && forall x :: tick < x <= v.now ==> !Tick(next, x)
  {
    var from, tick := Earliest(next, p, v), DueTick(next, p, v).value;
    LatestIsGreatest(next, from, v.now);
    forall x | tick < x <= v.now ensures !Tick(next, x) {
      assert x in Ticks(next, from, v.now) <==> Tick(next, x);
    }
  }

  lemma VisitRemembers(next: Time -> Time, p: Policy, v: Visit)
    requires IsSchedule(next) && Minutely(next) && Remembered(next, p)
    ensures Remembered(next, Visited(next, p, v))
  {
    var due := DueTick(next, p, v);
    if due.Some? {
      DueIsLater(next, p, v);
      ActRemembers(next, p, due.value, v);
    }
  }

  ghost function Run(next: Time -> Time, p: Policy, es: seq<Event>): Policy
    requires IsSchedule(next)
  {
    if es == [] then p else Next(next, Run(next, p, es[..|es| - 1]), es[|es| - 1])
  }

  /**
   * Over every history, whatever the clock does and wherever reconciles are cut short, no
   * tick is stamped twice, provided a run outlives the recording of its tick.
   */
  lemma {:induction false} NoTickTwice(next: Time -> Time, p: Policy, es: seq<Event>)
    requires IsSchedule(next) && Minutely(next) && Remembered(next, p)
    requires forall k :: 0 <= k < |es| ==> Timely(Run(next, p, es[..k]), es[k])
    ensures Remembered(next, Run(next, p, es))
  {
    if es != [] {
      var n := |es| - 1;
      forall k | 0 <= k < n ensures Timely(Run(next, p, es[..n][..k]), es[..n][k]) {
        assert es[..n][..k] == es[..k];
      }
      NoTickTwice(next, p, es[..n]);
      if es[n].Reconcile? {
        VisitRemembers(next, Run(next, p, es[..n]), es[n].visit);
      }
    }
  }

  /** Over every history lastScheduleTime never moves back. */
  lemma {:induction false} AnchorNeverMovesBack(next: Time -> Time, p: Policy, es: seq<Event>)
    requires IsSchedule(next)
    ensures var q := Run(next, p, es); Anchor(p) <= Anchor(q) && (p.last.Some? ==> q.last.Some?)
  {
    if es != [] {
      var q := Run(next, p, es[..|es| - 1]);
      AnchorNeverMovesBack(next, p, es[..|es| - 1]);
      match es[|es| - 1]
      case Reconcile(v) => AnchorAdvances(next, q, v);
      case Collect(_) =>
    }
  }

  /** Without that proviso a tick is stamped again: the pass is cut after Create, and the run is collected. */
  lemma EarlyCollectionRepeats(next: Time -> Time, p: Policy, v: Visit)
    requires IsSchedule(next) && p.runs == {} && v.reply == Accepted && !v.settings.forbidConcurrent
    requires v.lost && DueTick(next, p, v).Some?
    ensures var tick := DueTick(next, p, v).value;
            var collected := Next(next, Visited(next, p, v), Collect(RunKey(tick)));
            Visited(next, collected, v).stamped == p.stamped + [tick, tick]
  {
    var tick := DueTick(next, p, v).value;
    var collected := Next(next, Visited(next, p, v), Collect(RunKey(tick)));
    assert collected == p.(runs := {}, stamped := p.stamped + [tick]);
    assert DueTick(next, collected, v) == Some(tick);
  }

  // ---- The controller ----

  class EtcdDefragPolicy {
    const created: Time
    var lastScheduleTime: Option<Time>
    var runs: set<int>
    ghost var stamped: seq<Time>

    constructor (created: Time)
      ensures Value() == Policy(created, None, {}, [])
    {
      this.created := created;
      lastScheduleTime, runs, stamped := None, {}, [];
    }

    ghost function Value(): Policy
      reads this
    {
      Policy(created, lastScheduleTime, runs, stamped)
    }

    method WindowStart(next: Time -> Time, v: Visit) returns (earliest: Time)
      ensures earliest == Earliest(next, Value(), v)
    {
      earliest := created;
      if lastScheduleTime.Some? {
        earliest := lastScheduleTime.value;
      }
      var floor := LookbackFloor(next, v.now);
      var cutoff := v.now - floor;
      if v.settings.deadline.Some? {
        cutoff := v.now - v.settings.deadline.value;
      }
      if cutoff > earliest {
        earliest := cutoff;
      }
    }

    /** The tick to act on and the one to wake up for, found without changing anything. */
    method FindDue(next: Time -> Time, v: Visit) returns (due: Due)
      requires IsSchedule(next) && Scheduling(v.settings)
      ensures DueTick(next, Value(), v) == if due.Act? then Some(due.tick) else None
      ensures due != Backlog ==> due.next > v.now
    {
      var earliest := WindowStart(next, v);
      due := NextSchedule(next, earliest, v.now, MaxCatchup);
      LatestIsGreatest(next, earliest, v.now);
    }

    method Stamp(tick: Time, v: Visit) returns (settled: bool)
      modifies this
      ensures Value() == ActOn(old(Value()), tick, v)
    {
      if !(v.settings.forbidConcurrent && v.active > 0) && RunKey(tick) !in runs {
        if v.reply == Rejected {
          return false;
        }
        runs := runs + {RunKey(tick)};
        stamped := stamped + [tick];
      }
      if v.lost {
        return false;
      }
      lastScheduleTime := Some(tick);
      settled := true;
    }

    /** Reconcile; the result is the next tick to wake up for, if any. */
    method Reconcile(next: Time -> Time, v: Visit) returns (wake: Option<Time>)
      requires IsSchedule(next)
      modifies this
      ensures Value() == Visited(next, old(Value()), v)
      ensures wake.Some? ==> wake.value > v.now
    {
      if v.settings.suspended || !v.settings.scheduleValid {
        return None;
      }
      var due := FindDue(next, v);
      match due
      case Backlog => return None;
      case Nothing(n) => return Some(n);
      case Act(tick, n) =>
        var settled := Stamp(tick, v);
        wake := if settled then Some(n) else None;
    }
  }
}
