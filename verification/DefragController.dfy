/** The defragmentation controller's in-place work on one EtcdDefrag object. */
module DefragController {
  import opened Base
  import opened Defrag
  import opened DefragRuns

  method ClusterHealthy(desired: nat, backends: seq<Backend>) returns (ok: bool)
    ensures ok <==> Healthy(desired, backends)
  {
    if desired == 0 || |backends| != desired {
      return false;
    }
    var leader := 0;
    for i := 0 to |backends|
      invariant forall j :: 0 <= j < i ==>
                  backends[j].probe.Some? && !backends[j].probe.value.blocked && backends[j].probe.value.leader != 0
      invariant i == 0 <==> leader == 0
      invariant forall j :: 0 <= j < i ==> backends[j].probe.value.leader == leader
    {
      var b := backends[i];
      if b.probe.None? || b.probe.value.blocked || b.probe.value.leader == 0 {
        return false;
      }
      if leader == 0 {
        leader := b.probe.value.leader;
      } else if b.probe.value.leader != leader {
        assert backends[0].probe.value.leader != backends[i].probe.value.leader;
        return false;
      }
    }
    ok := true;
  }

  method PlannedMembers(backends: seq<Backend>) returns (rows: seq<Row>)
    ensures rows == Planned(backends)
  {
    var followers: seq<Row>, leader: seq<Row> := [], [];
    for i := 0 to |backends|
      invariant followers == RowsOf(backends[..i], false) && leader == RowsOf(backends[..i], true)
    {
      assert backends[..i + 1][..i] == backends[..i];
      var row := NewRow(backends[i]);
      if IsLeader(backends[i].probe) {
        leader := leader + [row];
      } else {
        followers := followers + [row];
      }
    }
    assert backends[..|backends|] == backends;
    rows := followers + leader;
  }

  method FirstPendingMember(rows: seq<Row>) returns (i: nat)
    ensures i == FirstWaiting(rows)
  {
    i := 0;
    while i < |rows| && rows[i].outcome != Waiting
      invariant i <= |rows| && FirstWaiting(rows) == i + FirstWaiting(rows[i..])
    {
      assert rows[i..][1..] == rows[i + 1..];
      i := i + 1;
    }
  }

  method BackendByName(backends: seq<Backend>, name: string) returns (b: Option<Backend>)
    ensures b == Lookup(backends, name)
  {
    for i := 0 to |backends|
      invariant Lookup(backends, name) == Lookup(backends[i..], name)
    {
      if backends[i].name == name {
        return Some(backends[i]);
      }
      assert backends[i..][1..] == backends[i + 1..];
    }
    b := None;
  }

  class EtcdDefrag {
    const spec: Spec
    var phase: Phase
    var members: seq<Row>
    var defragmented: nat
    var startedAt: Option<Time>
    var completedAt: Option<Time>
    var verdict: Option<(bool, Note)>

    constructor (spec: Spec)
      ensures this.spec == spec && Value() == Fresh
    {
      this.spec := spec;
      phase, members, defragmented := NoPhase, [], 0;
      startedAt, completedAt, verdict := None, None, None;
    }

    ghost function Value(): Status
      reads this
    {
      Status(phase, Work(members, defragmented), Times(startedAt, completedAt), verdict)
    }

    /** markMember: records an outcome on the first row of that name. */
    method MarkMember(ghost k: nat, name: string, outcome: Outcome, note: Note, size: Option<Size>, after: Option<int>, now: Time)
      requires k < |members| && members[k].name == name && DistinctNames(members)
      modifies this`members
      ensures members == old(members)[k := Finished(old(members)[k], outcome, note, size, after, now)]
    {
      var i := 0;
      while i < |members|
        invariant 0 <= i <= k && members == old(members)
      {
        if members[i].name == name {
          members := members[i := Finished(members[i], outcome, note, size, after, now)];
          return;
        }
        i := i + 1;
      }
    }

    method Fail(note: Note, now: Time)
      modifies this`phase, this`completedAt, this`verdict
      ensures Value() == FailStatus(old(Value()), note, now)
    {
      phase := Failed;
      completedAt := Some(now);
      verdict := Some((false, note));
    }

    method Finalize(now: Time)
      modifies this`phase, this`completedAt, this`verdict
      ensures Value() == FinalStatus(old(Value()), now)
    {
      var failed := false;
      for i := 0 to |members|
        invariant !failed && forall j :: 0 <= j < i ==> members[j].outcome != Broken
      {
        if members[i].outcome == Broken {
          failed := true;
          break;
        }
      }
      phase := if failed then Failed else Complete;
      completedAt := Some(now);
      verdict := Some((!failed, if failed then MemberFailed else AllDone));
    }

    /** The pass's member: looked up, judged by the rule, defragmented and recorded. */
    method ProcessMember(i: nat, backends: seq<Backend>, quota: int, rpc: Rpc, now: Time)
      requires i < |members| && DistinctNames(members)
      modifies this`members, this`defragmented
      ensures Work(members, defragmented) ==
              Advance(old(Work(members, defragmented)), i,
                      Processed(spec.rule, old(members[i]), backends, quota, rpc, now))
    {
      var name := members[i].name;
      var b := BackendByName(backends, name);
      if b.None? {
        MarkMember(i, name, Broken, MemberGone, None, None, now);
        return;
      }
      var size := if b.value.probe.Some? then b.value.probe.value.size else Size(0, 0);
      if !Triggered(spec.rule, size, quota) {
        MarkMember(i, name, Skipped, BelowThreshold, Some(size), None, now);
        return;
      }
      if !rpc.ok {
        MarkMember(i, name, Broken, RpcError, Some(size), None, now);
        return;
      }
      var note := if rpc.after.Some? then NoNote else AfterSizeUnavailable;
      MarkMember(i, name, Defragmented, note, Some(size), rpc.after, now);
      defragmented := defragmented + 1;
    }

    /** The healthy part of a pass. */
    method SweepPass(desired: nat, backends: seq<Backend>, quota: int, rpc: Rpc, now: Time)
      requires Ok(Value()) && Sound(backends) && Healthy(desired, backends)
      modifies this
      ensures Value() == Sweep(spec, old(Value()), backends, quota, rpc, now)
    {
      WorkListOk(Value(), desired, backends);
      if |members| == 0 {
        members := PlannedMembers(backends);
      }
      var i := FirstPendingMember(members);
      if i == |members| {
        Finalize(now);
        return;
      }
      phase := Running;
      if startedAt.None? {
        startedAt := Some(now);
      }
      verdict := Some((true, Active));
      ProcessMember(i, backends, quota, rpc, now);
    }

    /** Reconcile, up to and including the status write. */
    method Reconcile(head: string, f: Facts, now: Time)
      requires Ok(Value()) && SoundFacts(f)
      modifies this
      ensures Value() == Step(spec, old(Value()), head, f, now) && Ok(Value())
    {
      StepKeepsOk(spec, Value(), head, f, now);
      if phase == Complete || phase == Failed {
        return;
      }
      if f.ClusterGone? {
        Fail(ClusterNotFound, now);
        return;
      }
      if f.ReadFailed? {
        return;
      }
      if head != "" && head != spec.name {
        verdict := Some((false, Queued));
        phase := Pending;
        return;
      }
      if f.DialFailed? {
        if Exceeded(spec, startedAt, now) {
          Fail(DeadlineExceeded, now);
        }
        return;
      }
      if Exceeded(spec, startedAt, now) {
        Fail(DeadlineExceeded, now);
        return;
      }
      var healthy := ClusterHealthy(f.desired, f.backends);
      if !healthy {
        verdict := Some((false, ClusterNotHealthy));
        if startedAt.None? {
          phase := Pending;
        }
        return;
      }
      SweepPass(f.desired, f.backends, f.quota, f.rpc, now);
    }
  }
}
