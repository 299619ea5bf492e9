/**
 * What an adoption leaves in the API is what the controllers are handed: after any number
 * of cut attempts and a complete one, the records are those of the plan, and membership
 * then stays as it is.
 */
module AdoptionOutcome {
  import opened Base
  import opened Membership
  import opened Adoption
  import opened AdoptionApply
  import opened AdoptionSafety
  import opened AdoptionHandOff
  import MI = MembershipInvariant

  // ---- Whatever was written came from the job ----

  /** The step writes what the job says. */
  predicate FromJob(job: Job, st: Step) {
    match st
    case CreateMember(m) => m in job.members
    case FillMember(n, p) => Planned(job, n, p)
    case _ => true
  }

  predicate Planned(job: Job, n: Name, p: Prefill) {
    exists m :: m in job.members && m.name == n && m.status == p
  }

  predicate RecordFrom(job: Job, n: Name, r: MemberRecord) {
    && (exists m :: m in job.members && m.name == n && r.(status := None) == Unfilled(m))
    && (r.status.Some? ==> Planned(job, n, r.status.value))
  }

  /** The new API holds nothing that does not come from the job. */
  ghost predicate Provenance(job: Job, a: NewApi) {
    && (a.cluster.Some? ==>
          a.cluster.value.spec == job.spec && (a.cluster.value.status == EmptyStatus || a.cluster.value.status == job.status))
    && forall n :: n in a.members ==> RecordFrom(job, n, a.members[n])
  }

  lemma ProvenanceStep(job: Job, st: Step, a: NewApi)
    requires Provenance(job, a) && FromJob(job, st) && ExecApi(job, st, a).Some?
    ensures Provenance(job, ExecApi(job, st, a).value)
  {
  }

  lemma {:induction false} ProvenanceRun(job: Job, steps: seq<Step>, s: Store)
    requires Provenance(job, s.api) && forall i :: 0 <= i < |steps| ==> FromJob(job, steps[i])
    ensures Provenance(job, Runs(job, steps, s).api)
  {
    if steps != [] && Exec(job, steps[0], s).Some? {
      ProvenanceStep(job, steps[0], s.api);
      ProvenanceRun(job, steps[1..], Exec(job, steps[0], s).value);
    }
  }

  lemma {:induction false} MemberStepsFromJob(job: Job, ms: seq<AdoptedMember>)
    requires forall i :: 0 <= i < |ms| ==> ms[i] in job.members
    ensures forall i :: 0 <= i < |MemberSteps(ms)| ==> FromJob(job, MemberSteps(ms)[i])
  {
    if ms != [] {
      MemberStepsFromJob(job, ms[..|ms| - 1]);
    }
  }

  lemma StepsFromJob(job: Job)
    ensures forall i :: 0 <= i < |Steps(job)| ==> FromJob(job, Steps(job)[i])
  {
    MemberStepsFromJob(job, job.members);
    AdoptStepsOnly(job.members);
    var a := ExtraSteps(job.extras) + [CreateCluster, FillCluster] + MemberSteps(job.members);
    assert forall i :: 0 <= i < |a| ==> FromJob(job, a[i]);
    var b := BeforePods(job);
    assert forall i :: 0 <= i < |b| ==> FromJob(job, b[i]);
  }

  lemma {:induction false} ProvenanceAttempts(job: Job, cuts: seq<nat>, s: Store)
    requires Provenance(job, s.api)
    ensures Provenance(job, Attempts(job, cuts, s).api)
  {
    if cuts != [] {
      var steps := Steps(job);
      var k := if cuts[0] <= |steps| then cuts[0] else |steps|;
      StepsFromJob(job);
      ProvenanceRun(job, steps[..k], s);
      ProvenanceAttempts(job, cuts[1..], Runs(job, steps[..k], s));
    }
  }

  // ---- A complete run fills everything in ----

  /** What a prefill achieves and no later step undoes. */
  predicate Prefilled(job: Job, st: Step, a: NewApi) {
    match st
    case FillCluster =>
      a.cluster.Some? && (a.cluster.value.status.clusterID.None? ==> a.cluster.value.status == job.status)
    case FillMember(n, p) => n in a.members && a.members[n].status.Some?
    case _ => true
  }

  lemma PrefilledKept(job: Job, st: Step, other: Step, a: NewApi)
    requires ExecApi(job, other, a).Some? && (st == other || Prefilled(job, st, a))
    ensures Prefilled(job, st, ExecApi(job, other, a).value)
  {
  }

  lemma {:induction false} PrefilledRun(job: Job, steps: seq<Step>, st: Step, s: Store)
    requires Succeeds(job, steps, s) && (st in steps || Prefilled(job, st, s.api))
    ensures Prefilled(job, st, Runs(job, steps, s).api)
  {
    if steps != [] {
      if st == steps[0] || Prefilled(job, st, s.api) {
        PrefilledKept(job, st, steps[0], s.api);
      }
      PrefilledRun(job, steps[1..], st, Exec(job, steps[0], s).value);
    }
  }

  lemma CompleteRun(job: Job, s: Store)
    requires Succeeds(job, Steps(job), s)
    ensures var a := Runs(job, Steps(job), s).api;
            && Prefilled(job, FillCluster, a)
            && forall i :: 0 <= i < |job.members| ==> job.members[i].name in a.members && a.members[job.members[i].name].status.Some?
  {
    StepsHold(job);
    PrefilledRun(job, Steps(job), FillCluster, s);
    var a := Runs(job, Steps(job), s).api;
    forall i | 0 <= i < |job.members|
      ensures job.members[i].name in a.members && a.members[job.members[i].name].status.Some?
    {
      var fill := FillMember(job.members[i].name, job.members[i].status);
      MemberStepIn(job, i);
      PrefilledRun(job, Steps(job), fill, s);
      assert Prefilled(job, fill, a);
    }
  }

  // ---- The hand-over ----

  /** The job carries out the plan. */
  predicate JobOf(plan: Plan, job: Job) {
    plan.Adopt? && job.spec == plan.spec && job.status == plan.status && job.members == plan.members
  }

  predicate ReadsAs(o: MemberRecord, r: Member) {
    && r.bootstrap == o.bootstrap && r.initialCluster == FlagNames(o.initialCluster) && !r.dormant && !r.deleting
    && r.memberID == if o.status.Some? then Some(o.status.value.memberID) else None
  }

  /** The controllers start on what the store holds, beside etcd as it was found. */
  ghost predicate Starts(facts: Facts, a: NewApi, w: World) {
    && a.cluster == Some(ClusterRecord(w.cl.spec, w.cl.status))
    && w.api.mem.Keys == a.members.Keys && (forall n :: n in a.members ==> ReadsAs(a.members[n], w.api.mem[n]))
    && EtcdAsFound(facts, w.etcd) && MI.Names(w.api) && MI.WorkersIdle(w)
  }

  /** All members of one plan carry the same flag, and none is a seed. */
  lemma PlanIsUniform(l: Legacy, translated: Option<Spec>, peerTLS: bool, facts: Facts, plan: Plan, a: AdoptedMember, b: AdoptedMember)
    requires IsPlan(l, translated, peerTLS, facts, plan) && plan.Adopt? && a in plan.members && b in plan.members
    ensures a.initialCluster == b.initialCluster && a.bootstrap == b.bootstrap
  {
  }

  lemma RecordIsPlanned(l: Legacy, translated: Option<Spec>, peerTLS: bool, facts: Facts, plan: Plan, job: Job,
                        n: Name, o: MemberRecord, r: Member)
    requires IsPlan(l, translated, peerTLS, facts, plan) && JobOf(plan, job)
    requires RecordFrom(job, n, o) && o.status.Some? && ReadsAs(o, r)
    ensures exists a :: a in plan.members && a.name == n && RecordOf(a, r)
  {
    var a :| a in job.members && a.name == n && o.(status := None) == Unfilled(a);
    var b :| b in job.members && b.name == n && b.status == o.status.value;
    PlanIsUniform(l, translated, peerTLS, facts, plan, a, b);
    assert RecordOf(b, r);
  }

  lemma NamesAgree(job: Job, a: NewApi)
    requires Provenance(job, a) && forall i :: 0 <= i < |job.members| ==> job.members[i].name in a.members
    ensures a.members.Keys == PlanNames(job.members)
  {
    forall n | n in a.members ensures n in PlanNames(job.members) {
      assert RecordFrom(job, n, a.members[n]);
    }
  }

  /**
   * For every plan: from a store without objects of the new API, after any number of cut
   * attempts and one that completes, what the controllers start on is the hand-over.
   */
  lemma AdoptionHandsOver(l: Legacy, translated: Option<Spec>, peerTLS: bool, facts: Facts, plan: Plan, job: Job,
                          cuts: seq<nat>, s: Store, w: World)
    requires IsPlan(l, translated, peerTLS, facts, plan) && JobOf(plan, job)
    requires s.api.cluster == None && s.api.members == map[]
    requires Succeeds(job, Steps(job), Attempts(job, cuts, s))
    requires Starts(facts, Runs(job, Steps(job), Attempts(job, cuts, s)).api, w)
    ensures HandedOver(plan, facts, w)
  {
    var mid := Attempts(job, cuts, s);
    var a := Runs(job, Steps(job), mid).api;
    ProvenanceAttempts(job, cuts, s);
    StepsFromJob(job);
    ProvenanceRun(job, Steps(job), mid);
    CompleteRun(job, mid);
    NamesAgree(job, a);
    forall n | n in w.api.mem ensures exists m :: m in plan.members && m.name == n && RecordOf(m, w.api.mem[n]) {
      assert n in a.members;
      var i :| 0 <= i < |job.members| && job.members[i].name == n;
      RecordIsPlanned(l, translated, peerTLS, facts, plan, job, n, a.members[n], w.api.mem[n]);
    }
  }

  /** So nothing touches the membership of an adopted cluster, however often the tool was cut, until a user acts. */
  lemma AdoptedClusterIsQuiet(l: Legacy, translated: Option<Spec>, peerTLS: bool, facts: Facts, plan: Plan, job: Job,
                              cuts: seq<nat>, s: Store, w: World, actions: seq<Action>)
    requires IsPlan(l, translated, peerTLS, facts, plan) && JobOf(plan, job) && DistinctFacts(facts.members)
    requires s.api.cluster == None && s.api.members == map[]
    requires Succeeds(job, Steps(job), Attempts(job, cuts, s))
    requires Starts(facts, Runs(job, Steps(job), Attempts(job, cuts, s)).api, w)
    requires NoUser(actions)
    ensures Untouched(w, Run(w, actions))
  {
    AdoptionHandsOver(l, translated, peerTLS, facts, plan, job, cuts, s, w);
    HandOverIsQuiet(l, translated, peerTLS, facts, plan, w, actions);
  }
}
