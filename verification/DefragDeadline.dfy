/**
 * The run deadline against the slowest healthy sweep.
 *
 * A sweep of n members needs n + 1 passes: one per row and one to close the
 * run.  Between two deadline checks lie everything the earlier pass still does,
 * the requeue gap and the probes of the later pass.
 */
module DefragDeadline {
  import opened Base
  import opened Defrag
  import opened DefragRuns

  /** The time one pass spends after its deadline check, then the requeue gap, then the next pass's probes. */
  datatype Gap = Gap(moveLeader: nat, defragment: nat, status: nat, requeue: nat, probes: seq<nat>)

  function Total(xs: seq<nat>): nat {
    if xs == [] then 0 else Total(xs[..|xs| - 1]) + xs[|xs| - 1]
  }

  function Length(g: Gap): nat {
    g.moveLeader + g.defragment + g.status + g.requeue + Total(g.probes)
  }

  /** Leadership is moved off a member that leads when it is called, if there is another. */
  predicate MovesLeader(f: Facts, name: string) {
    && f.Probed? && |f.backends| > 1
    && Lookup(f.backends, name).Some? && IsLeader(Lookup(f.backends, name).value.probe)
  }

  /** After a pass on status `s`, each call that the pass makes stays within its timeout, and calls it does not make take no time. */
  predicate WithinTimeouts(spec: Spec, s: Status, p: Pass, g: Gap, n: nat) {
    var called := Called(spec, s, p.head, p.facts, p.now);
    && g.moveLeader <= (if called.Some? && MovesLeader(p.facts, called.value) then MoveLeaderTimeout else 0)
    && g.defragment <= (if called.Some? then RpcTimeout else 0)
    && g.status <= (if called.Some? && p.facts.Probed? && p.facts.rpc.ok then StatusTimeout else 0)
    && g.requeue <= RequeueAfter
    && |g.probes| == n && forall i :: 0 <= i < n ==> g.probes[i] <= StatusTimeout
  }

  ghost predicate SweepWithinTimeouts(spec: Spec, ps: seq<Pass>, from: nat, n: nat, gs: seq<Gap>) {
    && |gs| == n && |ps| == from + n + 1
    && forall k :: 0 <= k < n ==> WithinTimeouts(spec, Run(spec, ps[..from + k]), ps[from + k], gs[k], n)
  }

  /** Time from the first deadline check to check number k. */
  function Elapsed(gs: seq<Gap>, k: nat): nat
    requires k <= |gs|
  {
    if k == 0 then 0 else Elapsed(gs, k - 1) + Length(gs[k - 1])
  }

  /**
   * The passes from number `from` on find the same n healthy members and are all written
   * back, with the given gaps between their deadline checks.
   */
  ghost predicate HealthySweep(spec: Spec, ps: seq<Pass>, from: nat, n: nat, start: Time, gs: seq<Gap>) {
    && |gs| == n && |ps| == from + n + 1
    && forall k :: 0 <= k <= n ==> HealthyPass(spec, ps[from + k], n, start + Elapsed(gs, k))
  }

  ghost predicate HealthyPass(spec: Spec, p: Pass, n: nat, now: Time) {
    && !p.lost && p.head == spec.name && p.now == now
    && p.facts.Probed? && Sound(p.facts.backends) && Healthy(n, p.facts.backends) && p.facts.desired == n
  }

  /** The run is open, has not started, and is still allowed to. */
  ghost predicate AboutToStart(spec: Spec, s: Status, now: Time) {
    Ok(s) && !Terminal(s.phase) && s.times.started.None? && !Exceeded(spec, None, now)
  }

  ghost predicate Underway(s: Status, n: nat, start: Time, k: nat) {
    && Ok(s) && s.phase == Running && s.times.started == Some(start)
    && |s.work.rows| == n && CountOf(s.work.rows, Waiting) == n - k
  }

  ghost predicate OutOfTime(s: Status) {
    s.phase == Failed && s.verdict == Some((false, DeadlineExceeded))
  }

  lemma FirstPass(spec: Spec, s: Status, p: Pass, n: nat, start: Time)
    requires AboutToStart(spec, s, start) && HealthyPass(spec, p, n, start)
    ensures n > 0 && Underway(After(spec, s, p), n, start, 1)
  {
    SweepProgress(spec, s, p.head, p.facts, p.now);
    StepKeepsOk(spec, s, p.head, p.facts, p.now);
    WorkListOk(s, n, p.facts.backends);
  }

  lemma LaterPass(spec: Spec, s: Status, p: Pass, n: nat, start: Time, k: nat, late: nat)
    requires Underway(s, n, start, k) && HealthyPass(spec, p, n, start + late) && k < n
    ensures late <= ActiveDeadline ==> Underway(After(spec, s, p), n, start, k + 1)
    ensures late > ActiveDeadline ==> OutOfTime(After(spec, s, p))
  {
    if late <= ActiveDeadline {
      SweepProgress(spec, s, p.head, p.facts, p.now);
      StepKeepsOk(spec, s, p.head, p.facts, p.now);
      StepContinues(spec, s, p.head, p.facts, p.now);
    }
  }

  lemma {:induction false} ElapsedGrows(gs: seq<Gap>, j: nat, k: nat)
    requires j <= k <= |gs|
    ensures Elapsed(gs, j) <= Elapsed(gs, k)
  {
    if j < k {
      ElapsedGrows(gs, j, k - 1);
    }
  }

  lemma NextPass(spec: Spec, s: Status, p: Pass, n: nat, start: Time, k: nat, before: nat, late: nat)
    requires if before <= ActiveDeadline then Underway(s, n, start, k) else OutOfTime(s)
    requires HealthyPass(spec, p, n, start + late) && k < n && before <= late
    ensures if late <= ActiveDeadline then Underway(After(spec, s, p), n, start, k + 1) else OutOfTime(After(spec, s, p))
  {
    if before <= ActiveDeadline {
      LaterPass(spec, s, p, n, start, k, late);
    }
  }

  lemma RunStep(spec: Spec, ps: seq<Pass>, m: nat)
    requires m < |ps|
    ensures Run(spec, ps[..m + 1]) == After(spec, Run(spec, ps[..m]), ps[m])
  {
    assert ps[..m + 1][..m] == ps[..m];
  }

  /** After k passes of a healthy sweep the run is k rows on, unless a check came too late. */
  lemma {:induction false} SweepAfter(spec: Spec, ps: seq<Pass>, from: nat, n: nat, start: Time, gs: seq<Gap>, k: nat)
    requires HealthySweep(spec, ps, from, n, start, gs) && AboutToStart(spec, Run(spec, ps[..from]), start)
    requires 1 <= k <= n
    ensures var s := Run(spec, ps[..from + k]);
            if Elapsed(gs, k - 1) <= ActiveDeadline then Underway(s, n, start, k) else OutOfTime(s)
  {
    var s, p := Run(spec, ps[..from + k - 1]), ps[from + (k - 1)];
    RunStep(spec, ps, from + k - 1);
    assert HealthyPass(spec, p, n, start + Elapsed(gs, k - 1));
    if k == 1 {
      FirstPass(spec, s, p, n, start);
    } else {
      SweepAfter(spec, ps, from, n, start, gs, k - 1);
      ElapsedGrows(gs, k - 2, k - 1);
      NextPass(spec, s, p, n, start, k - 1, Elapsed(gs, k - 2), Elapsed(gs, k - 1));
    }
  }

  lemma ClosingPass(spec: Spec, s: Status, p: Pass, n: nat, start: Time, late: nat)
    requires Underway(s, n, start, n) && HealthyPass(spec, p, n, start + late)
    ensures late > ActiveDeadline ==> OutOfTime(After(spec, s, p))
    ensures late <= ActiveDeadline ==> ClosedInTime(After(spec, s, p), n)
  {
    if late <= ActiveDeadline {
      SweepProgress(spec, s, p.head, p.facts, p.now);
    }
  }

  /** Every row settled, and Complete exactly when none failed. */
  ghost predicate ClosedInTime(s: Status, n: nat) {
    && !OutOfTime(s) && Terminal(s.phase)
    && |s.work.rows| == n && CountOf(s.work.rows, Waiting) == 0
    && (s.phase == Complete <==> forall i :: 0 <= i < n ==> s.work.rows[i].outcome != Broken)
  }

  /** A healthy sweep closes its run exactly when its last deadline check comes in time. */
  lemma SweepClosesIffInTime(spec: Spec, ps: seq<Pass>, from: nat, n: nat, start: Time, gs: seq<Gap>)
    requires HealthySweep(spec, ps, from, n, start, gs) && AboutToStart(spec, Run(spec, ps[..from]), start)
    ensures if Elapsed(gs, n) <= ActiveDeadline then ClosedInTime(Run(spec, ps), n) else OutOfTime(Run(spec, ps))
  {
    assert HealthyPass(spec, ps[from + 0], n, start + Elapsed(gs, 0));
    SweepAfter(spec, ps, from, n, start, gs, n);
    assert ps[..from + n] == ps[..|ps| - 1];
    assert HealthyPass(spec, ps[from + n], n, start + Elapsed(gs, n));
    ElapsedGrows(gs, n - 1, n);
    if Elapsed(gs, n - 1) <= ActiveDeadline {
      ClosingPass(spec, Run(spec, ps[..from + n]), ps[from + n], n, start, Elapsed(gs, n));
    }
  }

  // ---- Seven members fit, eight do not ----

  function WorstGap(n: nat): nat {
    MoveLeaderTimeout + RpcTimeout + StatusTimeout + RequeueAfter + StatusTimeout * n
  }

  lemma {:induction false} TotalAtMost(xs: seq<nat>, m: nat)
    requires forall i :: 0 <= i < |xs| ==> xs[i] <= m
    ensures Total(xs) <= m * |xs|
    ensures (forall i :: 0 <= i < |xs| ==> xs[i] == m) ==> Total(xs) == m * |xs|
  {
    if xs != [] {
      TotalAtMost(xs[..|xs| - 1], m);
    }
  }

  lemma {:induction false} ElapsedAtMost(gs: seq<Gap>, k: nat, m: nat)
    requires k <= |gs| && forall i :: 0 <= i < |gs| ==> Length(gs[i]) <= m
    ensures Elapsed(gs, k) <= k * m
  {
    if k > 0 {
      ElapsedAtMost(gs, k - 1, m);
      assert k * m == (k - 1) * m + m;
    }
  }

  /** The bound is exact: the slowest sweep fits for up to seven members and for no more. */
  lemma WorstCaseFits(n: nat)
    ensures n * WorstGap(n) <= ActiveDeadline <==> n <= MaxSupportedMembers
  {
    if n <= 7 {
      assert n * WorstGap(n) <= 7 * 360;
    } else {
      assert n * WorstGap(n) >= 8 * 365;
    }
  }

  /** Whatever the calls take within their timeouts, a healthy sweep of at most seven members closes. */
  lemma SevenMembersFit(spec: Spec, ps: seq<Pass>, from: nat, n: nat, start: Time, gs: seq<Gap>)
    requires HealthySweep(spec, ps, from, n, start, gs) && AboutToStart(spec, Run(spec, ps[..from]), start)
    requires n <= MaxSupportedMembers && SweepWithinTimeouts(spec, ps, from, n, gs)
    ensures ClosedInTime(Run(spec, ps), n)
  {
    forall i | 0 <= i < n ensures Length(gs[i]) <= WorstGap(n) {
      assert WithinTimeouts(spec, Run(spec, ps[..from + i]), ps[from + i], gs[i], n);
      TotalAtMost(gs[i].probes, StatusTimeout);
    }
    ElapsedAtMost(gs, n, WorstGap(n));
    WorstCaseFits(n);
    SweepClosesIffInTime(spec, ps, from, n, start, gs);
  }

  // ---- The slowest sweep of eight or more ----

  /** One slow row: the Defragment call, the size read, the requeue gap and the probes all take as long as they may. */
  function SlowGap(n: nat): nat {
    RpcTimeout + StatusTimeout + RequeueAfter + StatusTimeout * n
  }

  /** Every call is slow until the deadline has passed. */
  function Slowest(n: nat): seq<Gap> {
    seq(n, k requires 0 <= k < n =>
      if k * SlowGap(n) <= ActiveDeadline then Gap(0, RpcTimeout, StatusTimeout, RequeueAfter, seq(n, _ => StatusTimeout))
      else Gap(0, 0, 0, 0, seq(n, _ => 0)))
  }

  lemma SlowLength(n: nat, k: nat)
    requires k < n
    ensures Length(Slowest(n)[k]) == if k * SlowGap(n) <= ActiveDeadline then SlowGap(n) else 0
  {
    TotalAtMost(Slowest(n)[k].probes, if k * SlowGap(n) <= ActiveDeadline then StatusTimeout else 0);
  }

  lemma {:induction false} SlowElapsed(n: nat, k: nat)
    requires k <= n
    ensures Elapsed(Slowest(n), k) == k * SlowGap(n) || ActiveDeadline < Elapsed(Slowest(n), k) <= k * SlowGap(n)
  {
    if k > 0 {
      SlowElapsed(n, k - 1);
      SlowLength(n, k - 1);
      assert k * SlowGap(n) == (k - 1) * SlowGap(n) + SlowGap(n);
    }
  }

  lemma TooSlow(n: nat)
    requires n > MaxSupportedMembers
    ensures Elapsed(Slowest(n), n) > ActiveDeadline
  {
    SlowElapsed(n, n);
    assert n * SlowGap(n) >= 8 * 355;
  }

  function NameOf(i: nat): string { seq(i, _ => 'm') }

  /** A size that asks for defragmentation under every rule. */
  function BloatedSize(rule: Rule): Size {
    var free := if rule.freeSpaceAbove.Some? then rule.freeSpaceAbove.value else DefaultFreeSpace;
    Size(1 + if free > 0 then free else 0, 0)
  }

  function BloatedBackends(rule: Rule, n: nat): seq<Backend> {
    seq(n, i requires 0 <= i < n => Backend(NameOf(i), Some(Probe(Some(i + 1), 1, false, BloatedSize(rule)))))
  }

  lemma BloatedIsHealthy(rule: Rule, n: nat)
    requires n > 0
    ensures var bs := BloatedBackends(rule, n); Sound(bs) && Healthy(n, bs)
    ensures forall b, quota :: b in BloatedBackends(rule, n) ==> b.probe.Some? && Triggered(rule, b.probe.value.size, quota)
  {
    var bs := BloatedBackends(rule, n);
    forall i, j | 0 <= i < j < n ensures bs[i].name != bs[j].name {
      assert |bs[i].name| == i && |bs[j].name| == j;
    }
  }

  /** Every row belongs to a listed member. */
  ghost predicate AllListed(rows: seq<Row>, backends: seq<Backend>) {
    forall i :: 0 <= i < |rows| ==> Lookup(backends, rows[i].name).Some?
  }

  lemma PlanListed(backends: seq<Backend>)
    ensures AllListed(Planned(backends), backends)
  {
    RowsOfFacts(backends, false);
    RowsOfFacts(backends, true);
    forall r | r in Planned(backends) ensures Lookup(backends, r.name).Some? {
      assert r in RowsOf(backends, false) || r in RowsOf(backends, true);
    }
  }

  lemma StepListed(spec: Spec, s: Status, p: Pass)
    requires p.facts.Probed? && AllListed(s.work.rows, p.facts.backends)
    ensures AllListed(After(spec, s, p).work.rows, p.facts.backends)
  {
    PlanListed(p.facts.backends);
    var t := After(spec, s, p);
    if s.work.rows != [] {
      StepContinues(spec, s, p.head, p.facts, p.now);
    }
  }

  lemma {:induction false} RunListed(spec: Spec, ps: seq<Pass>, backends: seq<Backend>)
    requires forall i :: 0 <= i < |ps| ==> ps[i].facts.Probed? && ps[i].facts.backends == backends
    ensures AllListed(Run(spec, ps).work.rows, backends)
  {
    if ps != [] {
      RunListed(spec, ps[..|ps| - 1], backends);
      StepListed(spec, Run(spec, ps[..|ps| - 1]), ps[|ps| - 1]);
    }
  }

  /** A pass of a healthy sweep that is in time calls the member whose turn it is, if every member asks for it. */
  lemma InTimeCalls(spec: Spec, s: Status, p: Pass, n: nat, start: Time, k: nat, late: nat)
    requires k < n && late <= ActiveDeadline && HealthyPass(spec, p, n, start + late)
    requires if k == 0 then AboutToStart(spec, s, start) && late == 0 else Underway(s, n, start, k)
    requires AllListed(s.work.rows, p.facts.backends)
    requires forall b :: b in p.facts.backends ==> b.probe.Some? && Triggered(spec.rule, b.probe.value.size, p.facts.quota)
    ensures Called(spec, s, p.head, p.facts, p.now).Some?
  {
    PlanListed(p.facts.backends);
    WorkListOk(s, n, p.facts.backends);
    NoneWaiting(WorkList(s, p.facts.backends).rows);
    assert Sweeps(spec, s, p.head, p.facts, p.now);
  }

  function SlowSweep(spec: Spec, n: nat, start: Time): seq<Pass> {
    var facts := Probed(n, BloatedBackends(spec.rule, n), 0, Rpc(true, Some(0)));
    seq(n + 1, k requires 0 <= k <= n => Pass(spec.name, facts, start + Elapsed(Slowest(n), k), false))
  }

  lemma SlowSweepIsHealthy(spec: Spec, n: nat, start: Time)
    requires n > 0
    ensures HealthySweep(spec, SlowSweep(spec, n, start), 0, n, start, Slowest(n))
  {
    BloatedIsHealthy(spec.rule, n);
    var ps := SlowSweep(spec, n, start);
    forall k | 0 <= k <= n ensures HealthyPass(spec, ps[0 + k], n, start + Elapsed(Slowest(n), k)) {
      assert ps[k].facts == Probed(n, BloatedBackends(spec.rule, n), 0, Rpc(true, Some(0)));
    }
  }

  lemma FreshStarts(spec: Spec, ps: seq<Pass>, start: Time)
    requires !Exceeded(spec, None, start)
    ensures AboutToStart(spec, Run(spec, ps[..0]), start)
  {
    assert ps[..0] == [];
  }

  /** In a healthy sweep of members that all ask for it, a pass that is in time calls one. */
  lemma SweepCalls(spec: Spec, ps: seq<Pass>, n: nat, start: Time, gs: seq<Gap>, k: nat, backends: seq<Backend>)
    requires HealthySweep(spec, ps, 0, n, start, gs) && !Exceeded(spec, None, start) && k < n
    requires forall i :: 0 <= i < |ps| ==> ps[i].facts.Probed? && ps[i].facts.backends == backends
    requires forall b, quota :: b in backends ==> b.probe.Some? && Triggered(spec.rule, b.probe.value.size, quota)
    requires Elapsed(gs, k) <= ActiveDeadline
    ensures Called(spec, Run(spec, ps[..k]), ps[k].head, ps[k].facts, ps[k].now).Some?
  {
    assert HealthyPass(spec, ps[0 + k], n, start + Elapsed(gs, k));
    StatusAt(spec, ps, n, start, gs, k);
    RunListed(spec, ps[..k], backends);
    InTimeCalls(spec, Run(spec, ps[..k]), ps[k], n, start, k, Elapsed(gs, k));
  }

  lemma StatusAt(spec: Spec, ps: seq<Pass>, n: nat, start: Time, gs: seq<Gap>, k: nat)
    requires HealthySweep(spec, ps, 0, n, start, gs) && !Exceeded(spec, None, start) && k < n
    requires Elapsed(gs, k) <= ActiveDeadline
    ensures var s := Run(spec, ps[..k]);
            if k == 0 then AboutToStart(spec, s, start) else Underway(s, n, start, k)
  {
    FreshStarts(spec, ps, start);
    if k > 0 {
      ElapsedGrows(gs, k - 1, k);
      SweepAfter(spec, ps, 0, n, start, gs, k);
    }
  }

  lemma SlowCalls(spec: Spec, n: nat, start: Time, k: nat)
    requires k < n && !Exceeded(spec, None, start) && k * SlowGap(n) <= ActiveDeadline
    ensures var ps := SlowSweep(spec, n, start);
            Called(spec, Run(spec, ps[..k]), ps[k].head, ps[k].facts, ps[k].now).Some?
  {
    SlowSweepIsHealthy(spec, n, start);
    BloatedIsHealthy(spec.rule, n);
    SlowElapsed(n, k);
    SweepCalls(spec, SlowSweep(spec, n, start), n, start, Slowest(n), k, BloatedBackends(spec.rule, n));
  }

  /** The time that a slow pass takes is time its own calls take. */
  lemma SlowGapWithin(spec: Spec, s: Status, p: Pass, n: nat, k: nat)
    requires k < n && p.facts.Probed? && p.facts.rpc.ok
    requires k * SlowGap(n) <= ActiveDeadline ==> Called(spec, s, p.head, p.facts, p.now).Some?
    ensures WithinTimeouts(spec, s, p, Slowest(n)[k], n)
  {
  }

  lemma SlowSweepWithin(spec: Spec, n: nat, start: Time)
    requires !Exceeded(spec, None, start)
    ensures SweepWithinTimeouts(spec, SlowSweep(spec, n, start), 0, n, Slowest(n))
  {
    var ps := SlowSweep(spec, n, start);
    forall k | 0 <= k < n ensures WithinTimeouts(spec, Run(spec, ps[..0 + k]), ps[0 + k], Slowest(n)[k], n) {
      if k * SlowGap(n) <= ActiveDeadline {
        SlowCalls(spec, n, start, k);
      }
      SlowGapWithin(spec, Run(spec, ps[..k]), ps[k], n, k);
    }
  }

  /** From eight members on, every run can be killed in a healthy sweep whose calls all stay within their timeouts. */
  lemma EightMembersMayNot(spec: Spec, n: nat, start: Time) returns (ps: seq<Pass>, gs: seq<Gap>)
    requires n > MaxSupportedMembers && !Exceeded(spec, None, start)
    ensures HealthySweep(spec, ps, 0, n, start, gs) && SweepWithinTimeouts(spec, ps, 0, n, gs)
    ensures OutOfTime(Run(spec, ps))
  {
    ps, gs := SlowSweep(spec, n, start), Slowest(n);
    SlowSweepIsHealthy(spec, n, start);
    SlowSweepWithin(spec, n, start);
    TooSlow(n);
    FreshStarts(spec, ps, start);
    SweepClosesIffInTime(spec, ps, 0, n, start, gs);
  }

  /** The deadline outlasts every healthy sweep of n members, whatever its calls take, exactly for n up to seven. */
  lemma DeadlineFitsExactly(n: nat)
    ensures n <= MaxSupportedMembers <==>
            forall spec, ps, from, start, gs ::
              && HealthySweep(spec, ps, from, n, start, gs) && AboutToStart(spec, Run(spec, ps[..from]), start)
              && SweepWithinTimeouts(spec, ps, from, n, gs)
              ==> ClosedInTime(Run(spec, ps), n)
  {
    if n <= MaxSupportedMembers {
      forall spec, ps, from, start, gs
        | && HealthySweep(spec, ps, from, n, start, gs) && AboutToStart(spec, Run(spec, ps[..from]), start)
          && SweepWithinTimeouts(spec, ps, from, n, gs)
        ensures ClosedInTime(Run(spec, ps), n)
      {
        SevenMembersFit(spec, ps, from, n, start, gs);
      }
    } else {
      var spec := Spec("sweep", 0, Rule(false, None, None, None));
      var ps, gs := EightMembersMayNot(spec, n, 0);
      FreshStarts(spec, ps, 0);
    }
  }
}
