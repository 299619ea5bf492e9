/**
 * One EtcdDefrag run: a sweep that defragments the members of a cluster one per
 * pass, followers before the leader, deferring while the cluster is unhealthy.
 *
 * Step is one reconcile on values.  A crash before the closing status write
 * leaves the status as it was, so a run is any sequence of passes, each of
 * which takes effect or is lost.
 */
module Defrag {
  import opened Base

  type Time = nat

  // ---- Constants, in seconds ----

  const StatusTimeout: nat := 5
  const RpcTimeout: nat := 300
  const RequeueAfter: nat := 10
  const MoveLeaderTimeout: nat := 10
  const MaxSupportedMembers: nat := 7
  const ActiveDeadline: nat :=
    MaxSupportedMembers * (RpcTimeout + RequeueAfter + MaxSupportedMembers * StatusTimeout) + 300

  const DefaultFreeSpace: int := 200 * 1024 * 1024
  const DefaultMinReclaim: int := 32 * 1024 * 1024

  // ---- Data ----

  datatype Phase = NoPhase | Pending | Running | Complete | Failed

  datatype Outcome = Waiting | Defragmented | Skipped | Broken

  datatype Role = Leader | Follower

  datatype Note =
    | NoNote | MemberGone | BelowThreshold | RpcError | AfterSizeUnavailable
    | Queued | ClusterNotHealthy | Active | ClusterNotFound | DeadlineExceeded | MemberFailed | AllDone

  datatype Sizes = Sizes(before: int, after: int, reclaimed: int)

  /** What a finished row records. */
  datatype Record = Record(note: Note, finishedAt: Option<Time>, sizes: Sizes)

  datatype Row = Row(name: string, role: Role, outcome: Outcome, record: Record)

  datatype Rule = Rule(all: bool, freeSpaceAbove: Option<int>, minReclaim: Option<int>, quotaPercent: Option<nat>)

  /** created is 0 for an object the API server has not stamped. */
  datatype Spec = Spec(name: string, created: Time, rule: Rule)

  datatype Status = Status(phase: Phase, work: Work, times: Times, verdict: Option<(bool, Note)>)
  datatype Work = Work(rows: seq<Row>, defragmented: nat)
  datatype Times = Times(started: Option<Time>, completed: Option<Time>)

  const Fresh: Status := Status(NoPhase, Work([], 0), Times(None, None), None)

  /** A member's answer to a Status probe. */
  datatype Probe = Probe(memberId: Option<nat>, leader: nat, blocked: bool, size: Size)
  datatype Size = Size(db: int, inUse: int)

  datatype Backend = Backend(name: string, probe: Option<Probe>)

  /** The Defragment call on this pass's member, and the size read back after it. */
  datatype Rpc = Rpc(ok: bool, after: Option<int>)

  datatype Facts =
    | ClusterGone
    | ReadFailed
    | DialFailed
    | Probed(desired: nat, backends: seq<Backend>, quota: int, rpc: Rpc)

  // ---- Pure decisions ----

  predicate Terminal(p: Phase) { p == Complete || p == Failed }

  predicate Exceeded(spec: Spec, started: Option<Time>, now: Time) {
    match started
    case Some(s) => now > s + ActiveDeadline
    case None => spec.created != 0 && now > spec.created + ActiveDeadline
  }

  predicate Triggered(rule: Rule, size: Size, quota: int) {
    var reclaimable := size.db - size.inUse;
    var free := if rule.freeSpaceAbove.Some? then rule.freeSpaceAbove.value else DefaultFreeSpace;
    var least := if rule.minReclaim.Some? then rule.minReclaim.value else DefaultMinReclaim;
    || rule.all
    || reclaimable > free
    || (rule.quotaPercent.Some? && 0 < rule.quotaPercent.value < 100 && quota > 0
        && 100 * size.db > rule.quotaPercent.value * quota && reclaimable >= least)
  }

  predicate IsLeader(p: Option<Probe>) {
    p.Some? && p.value.memberId.Some? && p.value.leader != 0 && p.value.leader == p.value.memberId.value
  }

  /** Every desired member is present and reachable, none blocks, and all name the same leader. */
  predicate Healthy(desired: nat, backends: seq<Backend>) {
    && desired != 0 && |backends| == desired
    && (forall i :: 0 <= i < |backends| ==>
          backends[i].probe.Some? && !backends[i].probe.value.blocked && backends[i].probe.value.leader != 0)
    && forall i, j :: 0 <= i < j < |backends| && backends[i].probe.Some? && backends[j].probe.Some? ==>
          backends[i].probe.value.leader == backends[j].probe.value.leader
  }

  function NewRow(b: Backend): Row {
    Row(b.name, if IsLeader(b.probe) then Leader else Follower, Waiting, Record(NoNote, None, Sizes(0, 0, 0)))
  }

  /** The rows of the backends that lead, or that do not, in listing order. */
  function RowsOf(backends: seq<Backend>, leads: bool): seq<Row> {
    if backends == [] then []
    else
      var last := backends[|backends| - 1];
      RowsOf(backends[..|backends| - 1], leads) + if IsLeader(last.probe) == leads then [NewRow(last)] else []
  }

  function Planned(backends: seq<Backend>): seq<Row> {
    RowsOf(backends, false) + RowsOf(backends, true)
  }

  function FirstWaiting(rows: seq<Row>): (i: nat)
    ensures i <= |rows| && (i < |rows| ==> rows[i].outcome == Waiting)
    ensures forall j :: 0 <= j < i ==> rows[j].outcome != Waiting
  {
    if rows == [] || rows[0].outcome == Waiting then 0 else 1 + FirstWaiting(rows[1..])
  }

  function Lookup(backends: seq<Backend>, name: string): (b: Option<Backend>)
    ensures b.Some? ==> b.value in backends && b.value.name == name
    ensures b.None? ==> forall i :: 0 <= i < |backends| ==> backends[i].name != name
  {
    if backends == [] then None
    else if backends[0].name == name then Some(backends[0])
    else Lookup(backends[1..], name)
  }

  // ---- One pass ----

  function Finished(row: Row, outcome: Outcome, note: Note, size: Option<Size>, after: Option<int>, now: Time): Row {
    var sizes :=
      match size
      case None => row.record.sizes
      case Some(z) =>
        match after
        case None => row.record.sizes.(before := z.db)
        case Some(a) =>
          Sizes(z.db, a, if outcome == Defragmented && z.db >= a then z.db - a else row.record.sizes.reclaimed);
    row.(outcome := outcome, record := Record(note, Some(now), sizes))
  }

  /** What becomes of the row whose turn it is. */
  function Processed(rule: Rule, row: Row, backends: seq<Backend>, quota: int, rpc: Rpc, now: Time): Row {
    match Lookup(backends, row.name)
    case None => Finished(row, Broken, MemberGone, None, None, now)
    case Some(b) =>
      var size := if b.probe.Some? then b.probe.value.size else Size(0, 0);
      if !Triggered(rule, size, quota) then Finished(row, Skipped, BelowThreshold, Some(size), None, now)
      else if !rpc.ok then Finished(row, Broken, RpcError, Some(size), None, now)
      else Finished(row, Defragmented, if rpc.after.Some? then NoNote else AfterSizeUnavailable, Some(size), rpc.after, now)
  }

  function FailStatus(s: Status, note: Note, now: Time): Status {
    s.(phase := Failed, times := s.times.(completed := Some(now)), verdict := Some((false, note)))
  }

  predicate AnyBroken(rows: seq<Row>) {
    exists i :: 0 <= i < |rows| && rows[i].outcome == Broken
  }

  function FinalStatus(s: Status, now: Time): Status {
    var failed := AnyBroken(s.work.rows);
    Status(if failed then Failed else Complete, s.work, s.times.(completed := Some(now)),
           Some((!failed, if failed then MemberFailed else AllDone)))
  }

  function Advance(work: Work, i: nat, row: Row): Work
    requires i < |work.rows|
  {
    Work(work.rows[i := row], work.defragmented + if row.outcome == Defragmented then 1 else 0)
  }

  function WorkList(s: Status, backends: seq<Backend>): Work {
    if s.work.rows == [] then s.work.(rows := Planned(backends)) else s.work
  }

  /** A pass on a healthy cluster: the next waiting row is processed, or the run is closed. */
  function Sweep(spec: Spec, s: Status, backends: seq<Backend>, quota: int, rpc: Rpc, now: Time): Status {
    var work := WorkList(s, backends);
    var i := FirstWaiting(work.rows);
    if i == |work.rows| then FinalStatus(s.(work := work), now)
    else
      Status(Running,
             Advance(work, i, Processed(spec.rule, work.rows[i], backends, quota, rpc, now)),
             s.times.(started := if s.times.started.None? then Some(now) else s.times.started),
             Some((true, Active)))
  }

  function Deferred(s: Status): Status {
    s.(phase := if s.times.started.None? then Pending else s.phase, verdict := Some((false, ClusterNotHealthy)))
  }

  /** One reconcile of a run; `head` is the oldest active run of the cluster, "" if there is none. */
  function Step(spec: Spec, s: Status, head: string, f: Facts, now: Time): Status {
    if Terminal(s.phase) then s
    else if f.ClusterGone? then FailStatus(s, ClusterNotFound, now)
    else if f.ReadFailed? then s
    else if head != "" && head != spec.name then s.(phase := Pending, verdict := Some((false, Queued)))
    else if Exceeded(spec, s.times.started, now) then FailStatus(s, DeadlineExceeded, now)
    else if f.DialFailed? then s
    else if !Healthy(f.desired, f.backends) then Deferred(s)
    else Sweep(spec, s, f.backends, f.quota, f.rpc, now)
  }

  /** The pass gets as far as the work list. */
  predicate Sweeps(spec: Spec, s: Status, head: string, f: Facts, now: Time) {
    && !Terminal(s.phase)
    && f.Probed?
    && (head == "" || head == spec.name)
    && !Exceeded(spec, s.times.started, now)
    && Healthy(f.desired, f.backends)
  }

  /** The member a pass sends a Defragment call to. */
  function Called(spec: Spec, s: Status, head: string, f: Facts, now: Time): Option<string> {
    if !Sweeps(spec, s, head, f, now) then None
    else
      var rows := WorkList(s, f.backends).rows;
      var i := FirstWaiting(rows);
      if i == |rows| then None
      else
        match Lookup(f.backends, rows[i].name)
        case None => None
        case Some(b) =>
          if b.probe.Some? && Triggered(spec.rule, b.probe.value.size, f.quota) then Some(b.name) else None
  }

  // ---- Facts the cluster guarantees ----

  /** Objects have distinct names, and live members distinct etcd ids. */
  ghost predicate Sound(backends: seq<Backend>) {
    && (forall i, j :: 0 <= i < j < |backends| ==> backends[i].name != backends[j].name)
    && forall i, j :: 0 <= i < j < |backends| && IsLeader(backends[i].probe) && IsLeader(backends[j].probe) ==>
         backends[i].probe.value.memberId != backends[j].probe.value.memberId
  }

  ghost predicate SoundFacts(f: Facts) {
    f.Probed? ==> Sound(f.backends)
  }

  // ---- The plan ----

  function Names(rows: seq<Row>): seq<string> {
    seq(|rows|, i requires 0 <= i < |rows| => rows[i].name)
  }

  function BackendNames(backends: seq<Backend>): seq<string> {
    seq(|backends|, i requires 0 <= i < |backends| => backends[i].name)
  }

  lemma {:induction false} RowsOfFacts(backends: seq<Backend>, leads: bool)
    ensures forall r :: r in RowsOf(backends, leads) ==>
              r.outcome == Waiting && (r.role == Leader <==> leads)
    ensures forall r :: r in RowsOf(backends, leads) ==>
              exists i :: 0 <= i < |backends| && backends[i].name == r.name && IsLeader(backends[i].probe) == leads
  {
    if backends != [] {
      var n := |backends| - 1;
      RowsOfFacts(backends[..n], leads);
      forall r | r in RowsOf(backends, leads)
        ensures exists i :: 0 <= i < |backends| && backends[i].name == r.name && IsLeader(backends[i].probe) == leads
      {
        if r in RowsOf(backends[..n], leads) {
          var i :| 0 <= i < n && backends[..n][i].name == r.name && IsLeader(backends[..n][i].probe) == leads;
          assert backends[i].name == r.name;
        } else {
          assert backends[n].name == r.name;
        }
      }
    }
  }

  lemma {:induction false} PlanNames(backends: seq<Backend>)
    ensures multiset(Names(RowsOf(backends, false))) + multiset(Names(RowsOf(backends, true))) == multiset(BackendNames(backends))
  {
    if backends != [] {
      var n := |backends| - 1;
      PlanNames(backends[..n]);
      var last := backends[n];
      var leads := IsLeader(last.probe);
      assert Names(RowsOf(backends, leads)) == Names(RowsOf(backends[..n], leads)) + [last.name];
      assert RowsOf(backends, !leads) == RowsOf(backends[..n], !leads);
      assert BackendNames(backends) == BackendNames(backends[..n]) + [last.name];
    }
  }

  lemma {:induction false} NoLeaderRows(backends: seq<Backend>)
    requires forall i :: 0 <= i < |backends| ==> !IsLeader(backends[i].probe)
    ensures RowsOf(backends, true) == []
  {
    if backends != [] {
      NoLeaderRows(backends[..|backends| - 1]);
    }
  }

  /** Members of one listing that agree on a leader contain at most one leader row. */
  lemma {:induction false} OneLeaderRow(backends: seq<Backend>)
    requires Sound(backends)
    requires forall i, j :: 0 <= i < j < |backends| && backends[i].probe.Some? && backends[j].probe.Some? ==>
               backends[i].probe.value.leader == backends[j].probe.value.leader
    ensures |RowsOf(backends, true)| <= 1
  {
    if backends != [] {
      var n := |backends| - 1;
      if IsLeader(backends[n].probe) {
        NoLeaderRows(backends[..n]);
      } else {
        OneLeaderRow(backends[..n]);
      }
    }
  }

  ghost predicate LeaderLast(rows: seq<Row>) {
    forall i :: 0 <= i < |rows| && rows[i].role == Leader ==> i == |rows| - 1
  }

  /** The plan lists every backend once, all waiting, with at most one leader row, in last place. */
  lemma PlanIsPermutation(desired: nat, backends: seq<Backend>)
    requires Healthy(desired, backends) && Sound(backends)
    ensures multiset(Names(Planned(backends))) == multiset(BackendNames(backends))
    ensures |Planned(backends)| == |backends|
    ensures forall i :: 0 <= i < |Planned(backends)| ==> Planned(backends)[i].outcome == Waiting
    ensures LeaderLast(Planned(backends))
  {
    var fs, ls := RowsOf(backends, false), RowsOf(backends, true);
    PlanNames(backends);
    assert Names(Planned(backends)) == Names(fs) + Names(ls);
    assert |multiset(Names(Planned(backends)))| == |multiset(BackendNames(backends))|;
    RowsOfFacts(backends, false);
    RowsOfFacts(backends, true);
    OneLeaderRow(backends);
    assert forall i :: 0 <= i < |fs| ==> fs[i] in fs;
    assert forall i :: 0 <= i < |ls| ==> ls[i] in ls;
  }
}
