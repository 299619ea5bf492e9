/**
 * The EtcdSnapshot controller: a one-shot record of a snapshot Job.
 */
module SnapshotController {
  import opened Base
  import opened SnapshotMarker

  datatype Phase = NoPhase | Pending | Started | Complete | Failed

  datatype Reason =
    | ImageMissing | ClusterNotFound | AuthLatchTimeout | JobLost | JobCreated | JobFailed | JobRunning | Stored

  /** ready: the single Ready condition. */
  datatype Status = Status(phase: Phase, ready: Option<(bool, Reason)>, artifact: Option<Artifact>)

  const Fresh: Status := Status(NoPhase, None, None)

  datatype Job = Job(failed: bool, succeeded: nat)

  datatype JobRead = Unreadable | Absent | Seen(job: Job)

  datatype ClusterRead = ClusterError | ClusterGone | Cluster(authWanted: bool, authOn: bool)

  /** The agent's log, or None while no succeeded Pod or no log is to be had. */
  datatype Env = Env(image: bool, cluster: ClusterRead, age: nat, jobs: Jobs, log: Option<Parsed>)

  /** What the cache and the API server say about the Job, and whether a Create goes through. */
  datatype Jobs = Jobs(cached: JobRead, live: JobRead, creates: bool)

  const AuthLatchSeconds: nat := 900

  predicate Terminal(p: Phase) { p == Complete || p == Failed }

  function Fail(s: Status, r: Reason): Status {
    s.(phase := Failed, ready := Some((false, r)))
  }

  function Begin(s: Status, r: Reason): Status {
    s.(phase := Started, ready := Some((false, r)))
  }

  predicate WaitsForAuth(c: ClusterRead) {
    c.Cluster? && c.authWanted && !c.authOn
  }

  /** The pass gets as far as looking for its Job. */
  predicate Looks(s: Status, e: Env) {
    && !Terminal(s.phase) && s.phase != NoPhase && e.image
    && e.cluster.Cluster? && !WaitsForAuth(e.cluster)
  }

  /** The pass creates a Job. */
  predicate Creates(s: Status, e: Env) {
    Looks(s, e) && e.jobs.cached.Absent? && s.phase != Started && e.jobs.creates
  }

  function WithoutJob(s: Status, j: Jobs): Status {
    if s.phase == Started then
      if j.live.Absent? then Fail(s, JobLost) else s
    else if j.creates then Begin(s, JobCreated)
    else s
  }

  function WithJob(s: Status, job: Job, log: Option<Parsed>): Status {
    if job.failed then Fail(s, JobFailed)
    else if job.succeeded < 1 then
      if s.phase != Started then Begin(s, JobRunning) else s
    else if log.Some? && log.value.Found? then
      Status(Complete, Some((true, Stored)), Some(log.value.artifact))
    else s
  }

  /** One reconcile, as far as the status it asks to be written. */
  function Step(s: Status, e: Env): Status {
    if Terminal(s.phase) then s
    else if s.phase == NoPhase then s.(phase := Pending)
    else if !e.image then Fail(s, ImageMissing)
    else if e.cluster.ClusterGone? then Fail(s, ClusterNotFound)
    else if e.cluster.ClusterError? then s
    else if WaitsForAuth(e.cluster) then
      if e.age > AuthLatchSeconds then Fail(s, AuthLatchTimeout) else s
    else
      match e.jobs.cached
      case Unreadable => s
      case Absent => WithoutJob(s, e.jobs)
      case Seen(job) => WithJob(s, job, e.log)
  }

  // ---- What every status keeps ----

  /** Ready is true exactly on a completed snapshot, and only that one has an artifact. */
  predicate Ok(s: Status) {
    && (s.ready.Some? && s.ready.value.0 <==> s.phase == Complete)
    && (s.artifact.Some? <==> s.phase == Complete)
  }

  function Rank(p: Phase): nat {
    match p
    case NoPhase => 0
    case Pending => 1
    case Started => 2
    case Complete => 3
    case Failed => 3
  }

  /** The lifecycle only moves forward, and a terminal status is final. */
  predicate Continues(a: Status, b: Status) {
    Rank(a.phase) <= Rank(b.phase) && (Terminal(a.phase) ==> b == a)
  }

  lemma StepOk(s: Status, e: Env)
    requires Ok(s)
    ensures Ok(Step(s, e)) && Continues(s, Step(s, e))
  {
  }

  // ---- Histories ----

  /** One reconcile; `lost` when its status write does not go through. */
  datatype Pass = Pass(env: Env, lost: bool)

  function Run(ps: seq<Pass>): Status {
    if ps == [] then Fresh
    else
      var s, p := Run(ps[..|ps| - 1]), ps[|ps| - 1];
      if p.lost then s else Step(s, p.env)
  }

  /** The number of Jobs created. */
  function Created(ps: seq<Pass>): nat {
    if ps == [] then 0
    else Created(ps[..|ps| - 1]) + if Creates(Run(ps[..|ps| - 1]), ps[|ps| - 1].env) then 1 else 0
  }

  lemma {:induction false} RunOk(ps: seq<Pass>)
    ensures Ok(Run(ps))
  {
    if ps != [] {
      var n := |ps| - 1;
      RunOk(ps[..n]);
      StepOk(Run(ps[..n]), ps[n].env);
    }
  }

  lemma {:induction false} RunContinues(ps: seq<Pass>, k: nat)
    requires k <= |ps|
    ensures Continues(Run(ps[..k]), Run(ps))
  {
    if k == |ps| {
      assert ps[..k] == ps;
    } else {
      var n := |ps| - 1;
      RunContinues(ps[..n], k);
      assert ps[..n][..k] == ps[..k];
      RunOk(ps[..n]);
      StepOk(Run(ps[..n]), ps[n].env);
    }
  }

  /** Once Started is recorded no further Job is created, wherever passes are cut and however stale the cache is. */
  lemma {:induction false} NoJobAfterStarted(ps: seq<Pass>, k: nat)
    requires k <= |ps| && Rank(Run(ps[..k]).phase) >= Rank(Started)
    ensures Created(ps) == Created(ps[..k])
  {
    if k == |ps| {
      assert ps[..k] == ps;
    } else {
      var n := |ps| - 1;
      assert ps[..n][..k] == ps[..k];
      NoJobAfterStarted(ps[..n], k);
      RunContinues(ps[..n], k);
    }
  }

  predicate CreatesAt(ps: seq<Pass>, i: nat) {
    i < |ps| && Creates(Run(ps[..i]), ps[i].env)
  }

  /** At pass i the recorded phase is still Pending, the cluster can be snapshot, the cache shows no Job and a create is accepted. */
  predicate FindsNoJob(ps: seq<Pass>, i: nat) {
    && i < |ps| && Run(ps[..i]).phase == Pending
    && ps[i].env.image && ps[i].env.cluster.Cluster? && (ps[i].env.cluster.authWanted ==> ps[i].env.cluster.authOn)
    && ps[i].env.jobs.cached.Absent? && ps[i].env.jobs.creates
  }

  /** A pass finds no Job and its status write is lost, and a later pass finds none while Started is still not recorded. */
  predicate Repeats(ps: seq<Pass>, i: nat, j: nat) {
    i < j && FindsNoJob(ps, i) && ps[i].lost && FindsNoJob(ps, j)
  }

  lemma CreatesAtPrefix(ps: seq<Pass>, n: nat, i: nat)
    requires i < n <= |ps|
    ensures CreatesAt(ps[..n], i) <==> CreatesAt(ps, i)
  {
    assert ps[..n][..i] == ps[..i];
  }

  function Creating(ps: seq<Pass>): set<nat> {
    set i: nat | i < |ps| && CreatesAt(ps, i)
  }

  lemma CreatedSnoc(ps: seq<Pass>, n: nat)
    requires |ps| == n + 1
    ensures Created(ps) == Created(ps[..n]) + if CreatesAt(ps, n) then 1 else 0
  {
  }

  lemma CreatingSnoc(ps: seq<Pass>, n: nat)
    requires |ps| == n + 1
    ensures Creating(ps) == Creating(ps[..n]) + if CreatesAt(ps, n) then {n} else {}
  {
    forall i: nat ensures i in Creating(ps) <==> i in Creating(ps[..n]) || (i == n && CreatesAt(ps, n)) {
      if i < n {
        CreatesAtPrefix(ps, n, i);
      }
    }
  }

  lemma {:induction false} CreatedCounts(ps: seq<Pass>)
    ensures Created(ps) == |Creating(ps)|
  {
    if ps != [] {
      var n := |ps| - 1;
      CreatedCounts(ps[..n]);
      CreatedSnoc(ps, n);
      CreatingSnoc(ps, n);
      assert n !in Creating(ps[..n]);
    }
  }

  lemma TwoElements(s: set<nat>)
    ensures |s| >= 2 <==> exists i, j :: i in s && j in s && i < j
  {
    if s != {} {
      var x :| x in s;
      assert |s - {x}| == |s| - 1;
      if y :| y in s - {x} {
        assert x < y || y < x;
      } else {
        assert s == {x};
      }
    }
  }

  /** A creating pass whose write goes through is the last one to create. */
  lemma WrittenCreateIsLast(ps: seq<Pass>, i: nat, j: nat)
    requires i < j && CreatesAt(ps, i) && CreatesAt(ps, j)
    ensures ps[i].lost
  {
    assert ps[..i + 1][..i] == ps[..i];
    assert ps[..j][..i + 1] == ps[..i + 1];
    RunContinues(ps[..j], i + 1);
  }

  /** A second Job is created exactly when a pass that finds no Job loses its write and a later one finds none either. */
  lemma SecondJobExactlyWhen(ps: seq<Pass>)
    ensures Created(ps) >= 2 <==> exists i: nat, j: nat :: Repeats(ps, i, j)
  {
    CreatedCounts(ps);
    TwoElements(Creating(ps));
    if i, j :| i in Creating(ps) && j in Creating(ps) && i < j {
      WrittenCreateIsLast(ps, i, j);
      assert Repeats(ps, i, j);
    }
    if i: nat, j: nat :| Repeats(ps, i, j) {
      assert i in Creating(ps) && j in Creating(ps);
    }
  }

  /** It happens: the first Job is collected before its creation was recorded. */
  lemma SecondJobHappens() returns (ps: seq<Pass>)
    ensures Created(ps) == 2
  {
    var env := Env(true, Cluster(false, false), 0, Jobs(Absent, Absent, true), None);
    var a, b := Pass(env, false), Pass(env, true);
    var one, two := [a], [a, b];
    ps := [a, b, a];
    assert one[..0] == [] && two[..1] == one && ps[..2] == two;
    assert Run(one) == Fresh.(phase := Pending) && Created(one) == 0;
    assert Run(two) == Run(one) && Created(two) == 1;
  }

  /** An artifact is always one that some log was read to contain. */
  lemma {:induction false} ArtifactFromLog(ps: seq<Pass>)
    requires Run(ps).artifact.Some?
    ensures exists i :: 0 <= i < |ps| && ps[i].env.log == Some(Found(Run(ps).artifact.value))
  {
    var n := |ps| - 1;
    var s, p := Run(ps[..n]), ps[n];
    if Run(ps).artifact == s.artifact {
      ArtifactFromLog(ps[..n]);
      var i :| 0 <= i < n && ps[..n][i].env.log == Some(Found(s.artifact.value));
      assert ps[i] == ps[..n][i];
    }
  }

  // ---- The controller ----

  class EtcdSnapshot {
    var phase: Phase
    var ready: Option<(bool, Reason)>
    var artifact: Option<Artifact>

    constructor ()
      ensures Value() == Fresh
    {
      phase, ready, artifact := NoPhase, None, None;
    }

    ghost function Value(): Status
      reads this
    {
      Status(phase, ready, artifact)
    }

    method SetPhase(p: Phase, isReady: bool, r: Reason)
      modifies this`phase, this`ready
      ensures phase == p && ready == Some((isReady, r))
    {
      phase := p;
      ready := Some((isReady, r));
    }

    /** Reconcile; `created` says whether the pass created a Job. */
    method Reconcile(e: Env) returns (created: bool)
      modifies this
      ensures Value() == Step(old(Value()), e) && (created <==> Creates(old(Value()), e))
    {
      created := false;
      if phase == Complete || phase == Failed {
        return;
      }
      if phase == NoPhase {
        phase := Pending;
        return;
      }
      if !e.image {
        SetPhase(Failed, false, ImageMissing);
        return;
      }
      if e.cluster.ClusterGone? {
        SetPhase(Failed, false, ClusterNotFound);
        return;
      }
      if e.cluster.ClusterError? {
        return;
      }
      if WaitsForAuth(e.cluster) {
        if e.age > AuthLatchSeconds {
          SetPhase(Failed, false, AuthLatchTimeout);
        }
        return;
      }
      match e.jobs.cached
      case Unreadable => return;
      case Absent =>
        if phase == Started {
          if e.jobs.live.Absent? {
            SetPhase(Failed, false, JobLost);
          }
        } else if e.jobs.creates {
          created := true;
          SetPhase(Started, false, JobCreated);
        }
      case Seen(job) =>
        if job.failed {
          SetPhase(Failed, false, JobFailed);
        } else if job.succeeded < 1 {
          if phase != Started {
            SetPhase(Started, false, JobRunning);
          }
        } else if e.log.Some? && e.log.value.Found? {
          artifact := Some(e.log.value.artifact);
          SetPhase(Complete, true, Stored);
        }
    }
  }
}
