/** What every defragmentation run keeps, over all sequences of passes. */
module DefragRuns {
  import opened Base
  import opened Defrag

  // ---- The invariant of one run ----

  function CountOf(rows: seq<Row>, o: Outcome): (n: nat)
    ensures n <= |rows|
  {
    if rows == [] then 0 else CountOf(rows[..|rows| - 1], o) + if rows[|rows| - 1].outcome == o then 1 else 0
  }

  ghost predicate DistinctNames(rows: seq<Row>) {
    forall i, j :: 0 <= i < j < |rows| ==> rows[i].name != rows[j].name
  }

  /** Rows are processed front to back. */
  ghost predicate InOrder(rows: seq<Row>) {
    forall i, j :: 0 <= i < j < |rows| && rows[i].outcome == Waiting ==> rows[j].outcome == Waiting
  }

  ghost predicate WorkOk(w: Work) {
    && DistinctNames(w.rows)
    && LeaderLast(w.rows)
    && InOrder(w.rows)
    && w.defragmented == CountOf(w.rows, Defragmented)
  }

  ghost predicate Ok(s: Status) {
    && WorkOk(s.work)
    && (s.work.rows == [] <==> s.times.started.None?)
    && (Terminal(s.phase) <==> s.times.completed.Some?)
    && (s.phase == Running ==> s.times.started.Some?)
    && (s.phase == Complete ==> s.work.rows != [] && CountOf(s.work.rows, Waiting) == 0 && !AnyBroken(s.work.rows))
  }

  lemma {:induction false} CountUpdate(rows: seq<Row>, i: nat, row: Row, o: Outcome)
    requires i < |rows|
    ensures CountOf(rows[i := row], o) ==
            CountOf(rows, o) + (if row.outcome == o then 1 else 0) - if rows[i].outcome == o then 1 else 0
  {
    var n := |rows| - 1;
    if i < n {
      CountUpdate(rows[..n], i, row, o);
      assert rows[i := row][..n] == rows[..n][i := row];
    } else {
      assert rows[i := row][..n] == rows[..n];
    }
  }

  lemma {:induction false} CountNone(rows: seq<Row>, o: Outcome)
    ensures CountOf(rows, o) == 0 <==> forall i :: 0 <= i < |rows| ==> rows[i].outcome != o
    ensures CountOf(rows, o) == |rows| <==> forall i :: 0 <= i < |rows| ==> rows[i].outcome == o
  {
    if rows != [] {
      var n := |rows| - 1;
      CountNone(rows[..n], o);
      assert forall i :: 0 <= i < n ==> rows[..n][i] == rows[i];
    }
  }

  lemma {:induction false} Occurrences(s: seq<string>, x: string)
    ensures multiset(s)[x] >= 2 <==> exists i, j :: 0 <= i < j < |s| && s[i] == x && s[j] == x
  {
    if s != [] {
      var n := |s| - 1;
      Occurrences(s[..n], x);
      assert s == s[..n] + [s[n]];
      if multiset(s[..n])[x] >= 1 {
        var k :| 0 <= k < n && s[..n][k] == x;
        assert s[k] == x;
      }
      if i, j :| 0 <= i < j < |s| && s[i] == x && s[j] == x {
        assert s[..n][i] == x;
        assert j < n ==> s[..n][j] == x;
      }
      if i, j :| 0 <= i < j < n && s[..n][i] == x && s[..n][j] == x {
        assert s[i] == x && s[j] == x;
      }
    }
  }

  /** A fresh plan satisfies the invariant. */
  lemma PlanOk(desired: nat, backends: seq<Backend>)
    requires Healthy(desired, backends) && Sound(backends)
    ensures WorkOk(Work(Planned(backends), 0)) && |Planned(backends)| == desired
    ensures CountOf(Planned(backends), Waiting) == desired
  {
    var rows := Planned(backends);
    PlanIsPermutation(desired, backends);
    forall i, j | 0 <= i < j < |rows| ensures rows[i].name != rows[j].name {
      if rows[i].name == rows[j].name {
        var x := rows[i].name;
        assert Names(rows)[i] == x && Names(rows)[j] == x;
        Occurrences(Names(rows), x);
        Occurrences(BackendNames(backends), x);
        assert false;
      }
    }
    CountNone(rows, Waiting);
    CountNone(rows, Defragmented);
  }

  lemma WorkListOk(s: Status, desired: nat, backends: seq<Backend>)
    requires Ok(s) && Healthy(desired, backends) && Sound(backends)
    ensures WorkOk(WorkList(s, backends)) && WorkList(s, backends).rows != []
    ensures s.work.rows == [] ==>
              |WorkList(s, backends).rows| == desired && CountOf(WorkList(s, backends).rows, Waiting) == desired
  {
    if s.work.rows == [] {
      PlanOk(desired, backends);
    }
  }

  lemma AdvanceOk(w: Work, i: nat, row: Row)
    requires WorkOk(w) && i < |w.rows| && i == FirstWaiting(w.rows)
    requires row.name == w.rows[i].name && row.role == w.rows[i].role && row.outcome != Waiting
    ensures WorkOk(Advance(w, i, row))
    ensures CountOf(Advance(w, i, row).rows, Waiting) == CountOf(w.rows, Waiting) - 1
  {
    CountUpdate(w.rows, i, row, Defragmented);
    CountUpdate(w.rows, i, row, Waiting);
  }

  lemma NoneWaiting(rows: seq<Row>)
    ensures FirstWaiting(rows) == |rows| <==> CountOf(rows, Waiting) == 0
  {
    CountNone(rows, Waiting);
  }

  /** Every pass keeps the invariant. */
  lemma StepKeepsOk(spec: Spec, s: Status, head: string, f: Facts, now: Time)
    requires Ok(s) && SoundFacts(f)
    ensures Ok(Step(spec, s, head, f, now))
  {
    if Sweeps(spec, s, head, f, now) {
      SweepKeepsOk(spec, s, f, now);
    }
  }

  lemma SettledOk(spec: Spec, s: Status, f: Facts, now: Time)
    requires Ok(s) && f.Probed? && WorkOk(WorkList(s, f.backends)) && WorkList(s, f.backends).rows != []
    requires FirstWaiting(WorkList(s, f.backends).rows) < |WorkList(s, f.backends).rows| && !Terminal(s.phase)
    ensures Ok(Sweep(spec, s, f.backends, f.quota, f.rpc, now))
  {
    var work := WorkList(s, f.backends);
    var i := FirstWaiting(work.rows);
    AdvanceOk(work, i, Processed(spec.rule, work.rows[i], f.backends, f.quota, f.rpc, now));
  }

  lemma ClosedOk(s: Status, now: Time)
    requires Ok(s) && s.work.rows != [] && CountOf(s.work.rows, Waiting) == 0
    ensures Ok(FinalStatus(s, now))
  {
  }

  lemma SweepKeepsOk(spec: Spec, s: Status, f: Facts, now: Time)
    requires Ok(s) && SoundFacts(f) && f.Probed? && Healthy(f.desired, f.backends) && !Terminal(s.phase)
    ensures Ok(Sweep(spec, s, f.backends, f.quota, f.rpc, now))
  {
    WorkListOk(s, f.desired, f.backends);
    var work := WorkList(s, f.backends);
    NoneWaiting(work.rows);
    if FirstWaiting(work.rows) < |work.rows| {
      SettledOk(spec, s, f, now);
    } else {
      assert s.(work := work) == s;
      ClosedOk(s, now);
    }
  }

  // ---- History ----

  /** s2 continues s1: nothing that was recorded is rewritten. */
  ghost predicate Continues(s1: Status, s2: Status) {
    && (Terminal(s1.phase) ==> s2 == s1)
    && (s1.times.started.Some? ==> s2.times.started == s1.times.started)
    && (s1.work.rows != [] ==> RowsKept(s1.work.rows, s2.work.rows))
    && s1.work.defragmented <= s2.work.defragmented
  }

  ghost predicate RowsKept(a: seq<Row>, b: seq<Row>) {
    && |a| == |b|
    && forall i :: 0 <= i < |a| ==>
         b[i].name == a[i].name && b[i].role == a[i].role && (a[i].outcome != Waiting ==> b[i] == a[i])
  }

  lemma ContinuesTransitive(a: Status, b: Status, c: Status)
    requires Continues(a, b) && Continues(b, c)
    ensures Continues(a, c)
  {
  }

  lemma StepContinues(spec: Spec, s: Status, head: string, f: Facts, now: Time)
    ensures Continues(s, Step(spec, s, head, f, now))
  {
  }

  /** A pass that reaches the work list settles exactly one waiting row, or closes the run. */
  lemma SweepProgress(spec: Spec, s: Status, head: string, f: Facts, now: Time)
    requires Ok(s) && SoundFacts(f) && Sweeps(spec, s, head, f, now)
    ensures var rows, next := WorkList(s, f.backends).rows, Step(spec, s, head, f, now);
            if CountOf(rows, Waiting) == 0 then
              && next.work.rows == rows
              && Terminal(next.phase)
              && (next.phase == Complete <==> forall i :: 0 <= i < |rows| ==> rows[i].outcome != Broken)
            else
              && next.phase == Running
              && |next.work.rows| == |rows|
              && CountOf(next.work.rows, Waiting) == CountOf(rows, Waiting) - 1
              && exists i :: 0 <= i < |rows| && rows[i].outcome == Waiting
                             && next.work.rows == rows[i := next.work.rows[i]] && next.work.rows[i].outcome != Waiting
  {
    WorkListOk(s, f.desired, f.backends);
    var work := WorkList(s, f.backends);
    var i := FirstWaiting(work.rows);
    NoneWaiting(work.rows);
    if i < |work.rows| {
      var row := Processed(spec.rule, work.rows[i], f.backends, f.quota, f.rpc, now);
      AdvanceOk(work, i, row);
      assert Step(spec, s, head, f, now).work.rows == work.rows[i := row];
    }
  }

  lemma CalledRow(spec: Spec, s: Status, head: string, f: Facts, now: Time)
    requires Sweeps(spec, s, head, f, now)
    ensures var work, called := WorkList(s, f.backends), Called(spec, s, head, f, now);
            var i := FirstWaiting(work.rows);
            if i == |work.rows| then called == None
            else
              && (called.Some? ==> called.value == work.rows[i].name && exists b :: b in f.backends && b.name == called.value)
              && (called.Some? && f.rpc.ok <==>
                  Processed(spec.rule, work.rows[i], f.backends, f.quota, f.rpc, now).outcome == Defragmented)
  {
  }

  /** The counter moves by one exactly when a Defragment call was made and succeeded. */
  lemma CounterCountsCalls(spec: Spec, s: Status, head: string, f: Facts, now: Time)
    ensures Step(spec, s, head, f, now).work.defragmented ==
            s.work.defragmented + if Called(spec, s, head, f, now).Some? && f.rpc.ok then 1 else 0
  {
    if Sweeps(spec, s, head, f, now) {
      CalledRow(spec, s, head, f, now);
    }
  }

  /**
   * A Defragment call goes out only on a healthy cluster, to a listed member whose row was
   * waiting, and reaches the leader's row only when no other row is left.
   */
  lemma CallsAreSafe(spec: Spec, s: Status, head: string, f: Facts, now: Time)
    requires Ok(s) && SoundFacts(f) && Called(spec, s, head, f, now).Some?
    ensures f.Probed? && Healthy(f.desired, f.backends)
    ensures exists b :: b in f.backends && b.name == Called(spec, s, head, f, now).value
    ensures exists i :: WaitsNext(WorkList(s, f.backends).rows, i, Called(spec, s, head, f, now).value)
  {
    WorkListOk(s, f.desired, f.backends);
    CalledRow(spec, s, head, f, now);
    var rows := WorkList(s, f.backends).rows;
    assert WaitsNext(rows, FirstWaiting(rows), Called(spec, s, head, f, now).value);
  }

  /** Row i belongs to `name` and is due: everything before it is settled, and a leader has nothing after it. */
  ghost predicate WaitsNext(rows: seq<Row>, i: nat, name: string) {
    && i < |rows| && rows[i].name == name && rows[i].outcome == Waiting
    && (forall j :: 0 <= j < i ==> rows[j].outcome != Waiting)
    && (rows[i].role == Leader ==> i == |rows| - 1)
  }

  // ---- Runs ----

  /** One reconcile; `lost` when it stops before its status write. */
  datatype Pass = Pass(head: string, facts: Facts, now: Time, lost: bool)

  function After(spec: Spec, s: Status, p: Pass): Status {
    if p.lost then s else Step(spec, s, p.head, p.facts, p.now)
  }

  function Run(spec: Spec, ps: seq<Pass>): Status {
    if ps == [] then Fresh else After(spec, Run(spec, ps[..|ps| - 1]), ps[|ps| - 1])
  }

  ghost predicate SoundRun(ps: seq<Pass>) {
    forall i :: 0 <= i < |ps| ==> SoundFacts(ps[i].facts)
  }

  lemma {:induction false} RunOk(spec: Spec, ps: seq<Pass>)
    requires SoundRun(ps)
    ensures Ok(Run(spec, ps))
  {
    if ps != [] {
      var n := |ps| - 1;
      RunOk(spec, ps[..n]);
      StepKeepsOk(spec, Run(spec, ps[..n]), ps[n].head, ps[n].facts, ps[n].now);
    }
  }

  /** From any point of any run on: recorded rows, the start time and a terminal phase stay. */
  lemma {:induction false} RunContinues(spec: Spec, ps: seq<Pass>, k: nat)
    requires k <= |ps|
    ensures Continues(Run(spec, ps[..k]), Run(spec, ps))
  {
    if k == |ps| {
      assert ps[..k] == ps;
    } else {
      var n := |ps| - 1;
      RunContinues(spec, ps[..n], k);
      assert ps[..n][..k] == ps[..k];
      var mid := Run(spec, ps[..n]);
      StepContinues(spec, mid, ps[n].head, ps[n].facts, ps[n].now);
      ContinuesTransitive(Run(spec, ps[..k]), mid, After(spec, mid, ps[n]));
    }
  }

  /** The number of passes that reached the work list and were written back. */
  function Sweepings(spec: Spec, ps: seq<Pass>): nat {
    if ps == [] then 0
    else
      var n := |ps| - 1;
      Sweepings(spec, ps[..n])
      + if !ps[n].lost && Sweeps(spec, Run(spec, ps[..n]), ps[n].head, ps[n].facts, ps[n].now) then 1 else 0
  }

  /**
   * The termination measure: while a run is open, every written sweep pass has settled one
   * row; so n members take at most n + 1 of them, and the last one closes the run.
   */
  lemma {:induction false} SweepBudget(spec: Spec, ps: seq<Pass>)
    requires SoundRun(ps)
    ensures var s := Run(spec, ps); var settled := |s.work.rows| - CountOf(s.work.rows, Waiting);
            if Terminal(s.phase) then settled <= Sweepings(spec, ps) <= settled + 1 else Sweepings(spec, ps) == settled
  {
    if ps != [] {
      var n := |ps| - 1;
      var s, p := Run(spec, ps[..n]), ps[n];
      SweepBudget(spec, ps[..n]);
      RunOk(spec, ps[..n]);
      if !p.lost && Sweeps(spec, s, p.head, p.facts, p.now) {
        SweepProgress(spec, s, p.head, p.facts, p.now);
        WorkListOk(s, p.facts.desired, p.facts.backends);
      }
    }
  }

  /** A run that took one written sweep pass more than it has rows is over. */
  lemma SweepsExhaust(spec: Spec, ps: seq<Pass>)
    requires SoundRun(ps) && Sweepings(spec, ps) > |Run(spec, ps).work.rows|
    ensures Terminal(Run(spec, ps).phase) && CountOf(Run(spec, ps).work.rows, Waiting) == 0
  {
    SweepBudget(spec, ps);
  }

  // ---- What the rows record ----

  /** Sizes balance: what a defragmentation took off is before minus after, and nothing else claims to have reclaimed. */
  predicate Balanced(r: Row) {
    var z := r.record.sizes;
    && z.reclaimed >= 0
    && (r.outcome == Waiting <==> r.record.finishedAt.None?)
    && (r.outcome == Waiting ==> z == Sizes(0, 0, 0))
    && (r.outcome != Defragmented || r.record.note == AfterSizeUnavailable ==> z.after == 0 && z.reclaimed == 0)
    && (r.outcome == Defragmented && r.record.note == NoNote && z.before >= z.after ==> z.before == z.after + z.reclaimed)
    && (z.before < z.after ==> z.reclaimed == 0)
  }

  ghost predicate AllBalanced(rows: seq<Row>) {
    forall i :: 0 <= i < |rows| ==> Balanced(rows[i])
  }

  /** A settled row balances and records the size its member was probed at. */
  lemma ProcessedBalances(rule: Rule, row: Row, backends: seq<Backend>, quota: int, rpc: Rpc, now: Time)
    requires Balanced(row) && row.outcome == Waiting
    requires rpc.after.Some? ==> rpc.after.value >= 0
    requires forall b :: b in backends && b.probe.Some? ==> b.probe.value.size.db >= 0
    ensures var next := Processed(rule, row, backends, quota, rpc, now);
            && Balanced(next) && next.record.finishedAt == Some(now)
            && (forall b :: Lookup(backends, row.name) == Some(b) && b.probe.Some? ==> next.record.sizes.before == b.probe.value.size.db)
  {
  }

  lemma {:induction false} PlanBalances(backends: seq<Backend>, leads: bool)
    ensures AllBalanced(RowsOf(backends, leads))
  {
    if backends != [] {
      PlanBalances(backends[..|backends| - 1], leads);
    }
  }

  /** Sizes reported by a live member are not negative. */
  ghost predicate Plausible(f: Facts) {
    f.Probed? ==>
      && (f.rpc.after.Some? ==> f.rpc.after.value >= 0)
      && forall b :: b in f.backends && b.probe.Some? ==> b.probe.value.size.db >= 0
  }

  lemma StepBalances(spec: Spec, s: Status, head: string, f: Facts, now: Time)
    requires AllBalanced(s.work.rows) && Plausible(f)
    ensures AllBalanced(Step(spec, s, head, f, now).work.rows)
  {
    if Sweeps(spec, s, head, f, now) {
      PlanBalances(f.backends, false);
      PlanBalances(f.backends, true);
      var rows := WorkList(s, f.backends).rows;
      var i := FirstWaiting(rows);
      if i < |rows| {
        ProcessedBalances(spec.rule, rows[i], f.backends, f.quota, f.rpc, now);
      }
    }
  }

  /** In every run the sizes of every row balance. */
  lemma {:induction false} RunBalances(spec: Spec, ps: seq<Pass>)
    requires forall i :: 0 <= i < |ps| ==> Plausible(ps[i].facts)
    ensures AllBalanced(Run(spec, ps).work.rows)
  {
    if ps != [] {
      var n := |ps| - 1;
      RunBalances(spec, ps[..n]);
      StepBalances(spec, Run(spec, ps[..n]), ps[n].head, ps[n].facts, ps[n].now);
    }
  }
}
