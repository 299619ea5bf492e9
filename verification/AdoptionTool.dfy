/** applyAdoption as the tool runs it: one call after another, until it is done, meets an error or is killed. */
module AdoptionTool {
  import opened Base
  import opened Membership
  import opened Adoption
  import opened AdoptionApply
  import opened AdoptionSafety

  lemma {:induction false} RunsSnoc(job: Job, steps: seq<Step>, st: Step, s: Store)
    ensures var t := Runs(job, steps, s);
            Runs(job, steps + [st], s) == if Succeeds(job, steps, s) && Exec(job, st, t).Some? then Exec(job, st, t).value else t
    ensures Succeeds(job, steps + [st], s) <==> Succeeds(job, steps, s) && Exec(job, st, Runs(job, steps, s)).Some?
  {
    if steps == [] {
      assert ([] + [st])[1..] == [];
    } else {
      assert (steps + [st])[1..] == steps[1..] + [st];
      if Exec(job, steps[0], s).Some? {
        RunsSnoc(job, steps[1..], st, Exec(job, steps[0], s).value);
      }
    }
  }

  function Cut(plan: seq<Step>, lifetime: nat): seq<Step> {
    if lifetime < |plan| then plan[..lifetime] else plan
  }

  class Tool {
    const job: Job
    /** How many calls the tool lives to make. */
    const lifetime: nat
    ghost const start: Store
    var store: Store
    var calls: nat
    var stopped: bool
    ghost var plan: seq<Step>

    constructor (job: Job, store: Store, lifetime: nat)
      ensures Valid() && this.job == job && start == store && this.lifetime == lifetime && plan == []
    {
      this.job, this.start, this.store := job, store, store;
      this.lifetime, calls, stopped, plan := lifetime, 0, false, [];
    }

    /** The store is what the calls planned so far make of it, cut where the tool's life ends. */
    ghost predicate Valid()
      reads this
    {
      && store == Runs(job, Cut(plan, lifetime), start)
      && (stopped <==> |plan| > lifetime || !Succeeds(job, plan, start))
      && (!stopped ==> calls == |plan|)
    }

    /** One call to the API server; nothing happens once the tool has stopped. */
    method Do(st: Step)
      requires Valid()
      modifies this
      ensures Valid() && plan == old(plan) + [st]
    {
      RunsSnoc(job, plan, st, start);
      plan := plan + [st];
      if stopped {
        assert |old(plan)| > lifetime ==> Cut(plan, lifetime) == Cut(old(plan), lifetime);
        return;
      }
      if calls == lifetime {
        stopped := true;
        assert Cut(plan, lifetime) == old(plan);
        return;
      }
      calls := calls + 1;
      match Exec(job, st, store)
      case None => stopped := true;
      case Some(t) => store := t;
    }

    method CreateMembers()
      requires Valid()
      modifies this
      ensures Valid() && plan == old(plan) + MemberSteps(job.members)
    {
      for i := 0 to |job.members|
        invariant Valid() && plan == old(plan) + MemberSteps(job.members[..i])
      {
        var m := job.members[i];
        assert job.members[..i + 1][..i] == job.members[..i];
        Do(CreateMember(m));
        Do(FillMember(m.name, m.status));
      }
      assert job.members[..|job.members|] == job.members;
    }

    method AdoptMembers()
      requires Valid()
      modifies this
      ensures Valid() && plan == old(plan) + AdoptSteps(job.members)
    {
      for i := 0 to |job.members|
        invariant Valid() && plan == old(plan) + AdoptSteps(job.members[..i])
      {
        var m := job.members[i];
        assert job.members[..i + 1][..i] == job.members[..i];
        Do(AdoptPod(m.name));
        Do(AdoptPVC(m.name));
      }
      assert job.members[..|job.members|] == job.members;
    }

    method CreateExtras()
      requires Valid()
      modifies this
      ensures Valid() && plan == old(plan) + ExtraSteps(job.extras)
    {
      for i := 0 to |job.extras|
        invariant Valid() && plan == old(plan) + ExtraSteps(job.extras)[..i]
      {
        Do(CreateExtra(job.extras[i]));
      }
    }

    /** Deletes the legacy control plane, leaving its children. */
    method Dismantle()
      requires Valid()
      modifies this
      ensures Valid()
      ensures plan == old(plan) + ((if job.deleteLegacy then [DeleteLegacy] else [])
                                   + [DeleteStatefulSet, AwaitStatefulSet, DeleteConfigMap, DeletePDB])
    {
      if job.deleteLegacy {
        Do(DeleteLegacy);
      }
      Do(DeleteStatefulSet);
      Do(AwaitStatefulSet);
      Do(DeleteConfigMap);
      Do(DeletePDB);
    }

    /** A fresh tool of any lifetime does a prefix of the steps of that length, up to the first error. */
    method ApplyAdoption() returns (ok: bool)
      requires Valid() && plan == []
      modifies this
      ensures store == Runs(job, Cut(Steps(job), lifetime), start)
      ensures ok <==> lifetime >= |Steps(job)| && Succeeds(job, Steps(job), start)
    {
      PrepareAndDismantle();
      AdoptMembers();
      CutOver();
      ok := !stopped;
    }

    method CutOver()
      requires Valid()
      modifies this
      ensures Valid() && plan == old(plan) + [RemoveClientService, CreateHeadless]
    {
      Do(RemoveClientService);
      Do(CreateHeadless);
    }

    method CreateObjects()
      requires Valid() && plan == []
      modifies this
      ensures Valid() && plan == ExtraSteps(job.extras) + [CreateCluster, FillCluster] + MemberSteps(job.members)
    {
      CreateExtras();
      Do(CreateCluster);
      Do(FillCluster);
      CreateMembers();
    }

    method PrepareAndDismantle()
      requires Valid() && plan == []
      modifies this
      ensures Valid() && plan == BeforePods(job)
    {
      CreateObjects();
      Do(PointService);
      Dismantle();
    }
  }
}
