/**
 * Carrying out an adoption plan: an ordered list of single writes, any of which
 * may be the last one before the tool dies.
 */
module AdoptionApply {
  import opened Base
  import opened Membership
  import opened Adoption

  // ---- The objects the tool writes ----

  datatype Kind = LegacyCluster | StatefulSet | NewCluster | NewMember | OtherKind(name: string)

  /** An owner reference; a name stands for the UID the API server gave the object when it was created. */
  datatype Ref = Ref(kind: Kind, name: string, controller: bool)

  datatype Object = Object(labels: map<string, string>, owners: seq<Ref>)

  datatype Service = Service(headless: bool, owners: seq<Ref>)

  datatype Presence = There | Leaving | Away

  datatype ClusterRecord = ClusterRecord(spec: Spec, status: Status)

  /** status is None until it has been prefilled. */
  datatype MemberRecord = MemberRecord(annotations: Annotations, bootstrap: bool, initialCluster: string, token: string,
                                       status: Option<Prefill>)

  datatype NewApi = NewApi(extras: set<string>, cluster: Option<ClusterRecord>, members: map<Name, MemberRecord>)

  datatype LegacyApi = LegacyApi(cluster: bool, statefulSet: Presence, configMap: bool, pdb: bool)

  datatype Data = Data(pods: map<string, Object>, pvcs: map<string, Object>)

  datatype Store = Store(api: NewApi, legacy: LegacyApi, services: map<string, Service>, data: Data)

  /** One cluster's adoption; deleteLegacy says whether the plan names a legacy object to delete. */
  datatype Job = Job(cluster: string, extras: seq<string>, spec: Spec, status: Status, members: seq<AdoptedMember>,
                     headless: string, deleteLegacy: bool)

  // ---- replaceControllerRef ----

  predicate Kept(o: Ref, ref: Ref) {
    !(o.kind == ref.kind && o.name == ref.name) && !o.controller
  }

  function KeptRefs(os: seq<Ref>, ref: Ref): seq<Ref> {
    if os == [] then []
    else KeptRefs(os[..|os| - 1], ref) + if Kept(os[|os| - 1], ref) then [os[|os| - 1]] else []
  }

  function ReplaceRef(os: seq<Ref>, ref: Ref): seq<Ref> {
    KeptRefs(os, ref) + [ref]
  }

  lemma {:induction false} KeptMember(os: seq<Ref>, ref: Ref, o: Ref)
    ensures o in KeptRefs(os, ref) <==> o in os && Kept(o, ref)
  {
    if os != [] {
      var n := |os| - 1;
      KeptMember(os[..n], ref, o);
      assert os == os[..n] + [os[n]];
    }
  }

  lemma {:induction false} KeptAgain(os: seq<Ref>, ref: Ref)
    ensures KeptRefs(KeptRefs(os, ref), ref) == KeptRefs(os, ref)
  {
    if os != [] {
      var n := |os| - 1;
      KeptAgain(os[..n], ref);
      var kept := KeptRefs(os[..n], ref);
      KeptAppend(kept, os[n], ref);
      assert !Kept(os[n], ref) ==> KeptRefs(os, ref) == kept;
    }
  }

  /** Afterwards the new owner is the only controller, and the other owners are kept. */
  lemma ReplaceRefOwners(os: seq<Ref>, ref: Ref, o: Ref)
    requires ref.controller
    ensures o in ReplaceRef(os, ref) && o.controller <==> o == ref
    ensures o in os && Kept(o, ref) ==> o in ReplaceRef(os, ref)
  {
    KeptMember(os, ref, o);
    assert ReplaceRef(os, ref)[|KeptRefs(os, ref)|] == ref;
  }

  /** Doing it again changes nothing. */
  lemma ReplaceRefTwice(os: seq<Ref>, ref: Ref)
    requires ref.controller
    ensures ReplaceRef(ReplaceRef(os, ref), ref) == ReplaceRef(os, ref)
  {
    KeptAgain(os, ref);
    KeptAppend(KeptRefs(os, ref), ref, ref);
  }

  lemma KeptAppend(os: seq<Ref>, o: Ref, ref: Ref)
    ensures KeptRefs(os + [o], ref) == KeptRefs(os, ref) + if Kept(o, ref) then [o] else []
  {
    assert (os + [o])[..|os|] == os;
  }

  /** The filter reuses the slice it reads: what is kept is moved to the front in place. */
  method FilterOwners(a: array<Ref>, ref: Ref) returns (k: nat)
    modifies a
    ensures k <= a.Length && a[..k] == KeptRefs(old(a[..]), ref)
  {
    k := 0;
    ghost var was := a[..];
    for i := 0 to a.Length
      invariant k <= i && (forall j :: i <= j < a.Length ==> a[j] == was[j])
      invariant a[..k] == KeptRefs(was[..i], ref)
    {
      var o := a[i];
      assert o == was[i] && was[..i + 1][..i] == was[..i];
      ghost var front := a[..k];
      if Kept(o, ref) {
        a[k] := o;
        assert a[..k] == front;
        k := k + 1;
        assert a[..k] == front + [o];
      }
    }
    assert was[..a.Length] == was;
  }

  // ---- Steps ----

  datatype Step =
    | CreateExtra(extra: string)
    | CreateCluster
    | FillCluster
    | CreateMember(member: AdoptedMember)
    | FillMember(name: Name, prefill: Prefill)
    | PointService
    | DeleteLegacy
    | DeleteStatefulSet
    | AwaitStatefulSet
    | DeleteConfigMap
    | DeletePDB
    | AdoptPod(name: Name)
    | AdoptPVC(name: Name)
    | RemoveClientService
    | CreateHeadless

  function MemberRefs(ms: seq<AdoptedMember>): seq<Ref> {
    seq(|ms|, i requires 0 <= i < |ms| => Ref(NewMember, ms[i].name, false))
  }

  function MemberLabels(cluster: string, member: string): map<string, string> {
    map["app.kubernetes.io/name" := "etcd",
        "app.kubernetes.io/instance" := cluster,
        "app.kubernetes.io/managed-by" := "etcd-operator",
        "app.kubernetes.io/component" := member,
        "etcd-operator.cozystack.io/cluster" := cluster]
  }

  const VoterLabel: map<string, string> := map["etcd-operator.cozystack.io/role" := "voter"]

  function PvcName(member: string): string { "data-" + member }

  function Adopted(o: Object, labels: map<string, string>, member: Name): Object {
    Object(o.labels + labels, ReplaceRef(o.owners, Ref(NewMember, member, true)))
  }

  /** Stamps labels on one object and makes the member its controller. */
  function AdoptIn(os: map<string, Object>, key: string, labels: map<string, string>, n: Name): Option<map<string, Object>> {
    if key in os then Some(os[key := Adopted(os[key], labels, n)]) else None
  }

  function NativeService(job: Job): Service {
    Service(true, [Ref(NewCluster, job.cluster, true)])
  }

  /** A member record as it is created: everything but its status. */
  function Unfilled(m: AdoptedMember): MemberRecord {
    MemberRecord(m.annotations, m.bootstrap, m.initialCluster, m.token, None)
  }

  const EmptyStatus: Status := Status("", None, None, None, false)

  function ExecApi(job: Job, st: Step, a: NewApi): Option<NewApi> {
    match st
    case CreateExtra(e) => Some(a.(extras := a.extras + {e}))
    case CreateCluster => Some(if a.cluster.Some? then a else a.(cluster := Some(ClusterRecord(job.spec, EmptyStatus))))
    case FillCluster =>
      if a.cluster.None? then None
      else if a.cluster.value.status.clusterID.None? then Some(a.(cluster := Some(a.cluster.value.(status := job.status))))
      else Some(a)
    case CreateMember(m) => Some(if m.name in a.members then a else a.(members := a.members[m.name := Unfilled(m)]))
    case FillMember(n, p) =>
      if n !in a.members then None
      else if a.members[n].status.None? then Some(a.(members := a.members[n := a.members[n].(status := Some(p))]))
      else Some(a)
    case _ => Some(a)
  }

  function ExecLegacy(st: Step, l: LegacyApi): Option<LegacyApi> {
    match st
    case DeleteLegacy => Some(l.(cluster := false))
    case DeleteStatefulSet => Some(if l.statefulSet == There then l.(statefulSet := Leaving) else l)
    case AwaitStatefulSet => if l.statefulSet == There then None else Some(l.(statefulSet := Away))
    case DeleteConfigMap => Some(l.(configMap := false))
    case DeletePDB => Some(l.(pdb := false))
    case _ => Some(l)
  }

  function ExecServices(job: Job, st: Step, ss: map<string, Service>): map<string, Service> {
    match st
    case PointService =>
      if job.headless in ss then ss[job.headless := ss[job.headless].(owners := MemberRefs(job.members))] else ss
    case RemoveClientService =>
      if job.cluster in ss && !ss[job.cluster].headless then ss - {job.cluster} else ss
    case CreateHeadless =>
      if job.cluster in ss then ss else ss[job.cluster := NativeService(job)]
    case _ => ss
  }

  function ExecData(job: Job, st: Step, d: Data): Option<Data> {
    match st
    case AdoptPod(n) =>
      var pods := AdoptIn(d.pods, n, MemberLabels(job.cluster, n) + VoterLabel, n);
      if pods.None? then None else Some(d.(pods := pods.value))
    case AdoptPVC(n) =>
      var pvcs := AdoptIn(d.pvcs, PvcName(n), MemberLabels(job.cluster, n), n);
      if pvcs.None? then None else Some(d.(pvcs := pvcs.value))
    case _ => Some(d)
  }

  /** One write; None when the tool stops with an error and nothing has changed. */
  function Exec(job: Job, st: Step, s: Store): Option<Store> {
    var a, l, d := ExecApi(job, st, s.api), ExecLegacy(st, s.legacy), ExecData(job, st, s.data);
    if a.None? || l.None? || d.None? then None
    else Some(Store(a.value, l.value, ExecServices(job, st, s.services), d.value))
  }

  function ExtraSteps(es: seq<string>): seq<Step> {
    seq(|es|, i requires 0 <= i < |es| => CreateExtra(es[i]))
  }

  function MemberSteps(ms: seq<AdoptedMember>): seq<Step> {
    if ms == [] then []
    else
      var m := ms[|ms| - 1];
      MemberSteps(ms[..|ms| - 1]) + [CreateMember(m), FillMember(m.name, m.status)]
  }

  function AdoptSteps(ms: seq<AdoptedMember>): seq<Step> {
    if ms == [] then []
    else
      var m := ms[|ms| - 1];
      AdoptSteps(ms[..|ms| - 1]) + [AdoptPod(m.name), AdoptPVC(m.name)]
  }

  function BeforePods(job: Job): seq<Step> {
    ExtraSteps(job.extras) + [CreateCluster, FillCluster] + MemberSteps(job.members)
    + [PointService] + (if job.deleteLegacy then [DeleteLegacy] else [])
    + [DeleteStatefulSet, AwaitStatefulSet, DeleteConfigMap, DeletePDB]
  }

  /** applyAdoption, write by write. */
  function Steps(job: Job): seq<Step> {
    BeforePods(job) + AdoptSteps(job.members) + [RemoveClientService, CreateHeadless]
  }

  /** The steps in order, up to the first error. */
  function Runs(job: Job, steps: seq<Step>, s: Store): Store {
    if steps == [] then s
    else
      match Exec(job, steps[0], s)
      case None => s
      case Some(t) => Runs(job, steps[1..], t)
  }

  /** A sequence of attempts, attempt i being cut after cuts[i] steps. */
  function Attempts(job: Job, cuts: seq<nat>, s: Store): Store {
    if cuts == [] then s
    else
      var steps := Steps(job);
      Attempts(job, cuts[1..], Runs(job, steps[..if cuts[0] <= |steps| then cuts[0] else |steps|], s))
  }

  // ---- Each step is done once and for all ----

  ghost predicate Done(job: Job, st: Step, s: Store) {
    Exec(job, st, s) == Some(s) && DoneMore(job, st, s)
  }

  /** What being done means beyond "doing it again changes nothing". */
  ghost predicate DoneMore(job: Job, st: Step, s: Store) {
    match st
    case AwaitStatefulSet => s.legacy.statefulSet == Away
    case DeleteStatefulSet => s.legacy.statefulSet != There
    case CreateCluster => s.api.cluster.Some?
    case CreateMember(m) => m.name in s.api.members
    case PointService => job.headless in s.services ==> s.services[job.headless].owners == MemberRefs(job.members)
    case RemoveClientService => job.cluster in s.services ==> s.services[job.cluster].headless
    case CreateHeadless => job.cluster in s.services && s.services[job.cluster].headless
    case _ => true
  }

  /**
   * The legacy headless Service does not share its name with the Service that the cut-over
   * replaces: either the names differ, or what holds the name is headless already.
   */
  predicate Separate(job: Job, s: Store) {
    job.headless != job.cluster || (job.headless in s.services && s.services[job.headless].headless)
  }
}
