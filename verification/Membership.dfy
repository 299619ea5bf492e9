/**
 * The two membership controllers as one crash-prone protocol.
 *
 * A `World` holds the three stores the operator works against: the apiserver
 * (cluster spec and status, EtcdMember records, Pods), etcd (member list and
 * auth state) and the clock.  It also holds what each worker remembers in the
 * middle of a reconcile: the cluster worker's control point `ctl` with the
 * reads `snap` it decided from, and one control point per member worker.
 *
 * Every action is one interaction with a store.  Actions of the environment,
 * of the cluster worker and of the member workers interleave arbitrarily, and
 * a worker can be cut off (`CCrash`, `MCrash`) before any interaction.
 */
module Membership {
  import opened Base

  type Name = string
  type Id = nat

  // ---- Cluster object ----

  datatype Storage = Storage(size: nat, medium: string, className: string)

  /** `rest` stands for the fields that are only copied and compared for equality. */
  datatype Spec = Spec(replicas: Option<nat>, version: string, storage: Storage, rest: string,
                       auth: bool, deadlineSeconds: Option<nat>)

  datatype Target = Target(replicas: nat, version: string, storage: Storage, rest: string)

  datatype Status = Status(token: string, clusterID: Option<Id>, observed: Option<Target>,
                           deadline: Option<int>, authEnabled: bool)

  const DefaultReplicas: nat := 3
  const DefaultDeadlineSeconds: nat := 600

  function SpecReplicas(spec: Spec): nat {
    if spec.replicas.Some? then spec.replicas.value else DefaultReplicas
  }

  function Snapshot(spec: Spec): Target {
    Target(SpecReplicas(spec), spec.version, spec.storage, spec.rest)
  }

  /** The storage class is copied into the target but not compared. */
  predicate SpecEqualsObserved(spec: Spec, observed: Option<Target>) {
    observed.Some? &&
    var o := observed.value;
    && o.replicas == SpecReplicas(spec)
    && o.version == spec.version
    && o.storage.size == spec.storage.size
    && o.storage.medium == spec.storage.medium
    && o.rest == spec.rest
  }

  function Deadline(spec: Spec, now: int): Option<int> {
    Some(now + if spec.deadlineSeconds.Some? then spec.deadlineSeconds.value else DefaultDeadlineSeconds)
  }

  predicate Expired(st: Status, now: int) {
    st.deadline.Some? && st.deadline.value <= now
  }

  // ---- Member objects ----

  /**
   * `initialCluster` is the set of members named by spec.initialCluster; {} is
   * the empty flag of a record whose follow-up patch has not landed.
   * `pod` says that status.podName is set.
   */
  datatype Member = Member(created: nat, bootstrap: bool, initialCluster: set<Name>, dormant: bool,
                           deleting: bool, finalizer: bool, memberID: Option<Id>, ready: bool, pod: bool)

  function NewMember(created: nat, bootstrap: bool): Member {
    Member(created, bootstrap, {}, false, false, false, None, false, false)
  }

  predicate Pending(m: Member) {
    !m.bootstrap && m.initialCluster == {}
  }

  type Listing = map<Name, Member>

  function Active(list: Listing): set<Name> {
    set n | n in list && !list[n].deleting
  }

  function Running(list: Listing): set<Name> {
    set n | n in list && !list[n].deleting && !list[n].dormant
  }

  function DormantIn(list: Listing): set<Name> {
    set n | n in list && !list[n].deleting && list[n].dormant
  }

  function PendingIn(list: Listing): set<Name> {
    set n | n in Running(list) && Pending(list[n])
  }

  function SeedsIn(list: Listing): set<Name> {
    set n | n in Running(list) && list[n].bootstrap
  }

  predicate PendingBootstrap(list: Listing) {
    exists n :: n in SeedsIn(list) && list[n].initialCluster == {}
  }

  predicate AllReady(list: Listing) {
    forall n :: n in Running(list) ==> list[n].ready
  }

  predicate Terminating(list: Listing) {
    exists n :: n in list && list[n].deleting
  }

  predicate Newer(list: Listing, a: Name, b: Name)
    requires a in list && b in list
  {
    list[a].created > list[b].created || (list[a].created == list[b].created && StringLeq(b, a))
  }

  /** The member at the head of the newest-first order. */
  predicate IsVictim(list: Listing, v: Name) {
    v in Running(list) && forall n :: n in Running(list) ==> Newer(list, v, n)
  }

  predicate Complete(st: Status, list: Listing) {
    && st.observed.Some?
    && |Running(list)| == st.observed.value.replicas
    && (st.observed.value.replicas > 0 ==> st.clusterID.Some?)
    && AllReady(list)
  }

  // ---- etcd ----

  /** `owner` is the member whose peer URL the entry carries. */
  datatype Entry = Entry(owner: Name, learner: bool)

  datatype EtcdAuth = EtcdAuth(on: bool, rootUser: bool, rootRole: bool, byOperator: bool)

  function Learners(etcd: map<Id, Entry>): set<Id> {
    set i | i in etcd && etcd[i].learner
  }

  function Voters(etcd: map<Id, Entry>): set<Id> {
    set i | i in etcd && !etcd[i].learner
  }

  function Owners(etcd: map<Id, Entry>): set<Name> {
    set i | i in etcd :: etcd[i].owner
  }

  predicate Registered(etcd: map<Id, Entry>, n: Name) {
    exists i :: i in etcd && etcd[i].owner == n
  }

  // ---- Workers ----

  /** What one cluster reconcile read at its start. */
  datatype Snap = Snap(spec: Spec, gen: nat, status: Status, list: Listing, at: int)

  /** The next interaction of the cluster worker. */
  datatype Ctl =
    | Idle
    | WriteStatus(st: Status, gen: nat)
    | SeedCreate
    | SeedPatch(seed: Name)
    | Discover(target: Name)
    | Wake(sleeper: Name)
    | JoinList
    | JoinCreate
    | JoinAdd(joiner: Name)
    | JoinPatch(patchee: Name, ic: set<Name>)
    | Promote(learner: Id, steady: bool)
    | ScaleDelete(victim: Name)
    | Park(survivor: Name)
    | SteadyList
    | AuthProbe | AuthUser | AuthGrant | AuthEnable | AuthLatch
    | Finish(pending: bool)

  /** Why a finalizer is about to be dropped. */
  datatype Cause = Gone | Alone | ClusterGone

  datatype MCtl = MBuilt(stateNew: bool) | MResolve | MRemove(id: Id) | MRelease(cause: Cause)

  /** The EtcdCluster object; `gen` counts spec edits and stands for its resourceVersion. */
  datatype ClusterObject = ClusterObject(spec: Spec, gen: nat, status: Status, deleting: bool)

  /** EtcdMember records, every name ever assigned, the next creation timestamp, and Pods (built with state=new or not). */
  datatype Records = Records(mem: Listing, used: set<Name>, stamp: nat, pods: map<Name, bool>)

  datatype Etcd = Etcd(list: map<Id, Entry>, nextId: Id, cluster: Id, auth: EtcdAuth)

  /** `rpcs` counts the membership RPCs issued by the reconcile in progress. */
  datatype ClusterWorker = ClusterWorker(ctl: Ctl, snap: Snap, rpcs: nat)

  datatype MemberWorkers = MemberWorkers(ctl: map<Name, MCtl>, rpcs: map<Name, nat>)

  datatype World = World(cl: ClusterObject, now: int, api: Records, etcd: Etcd, cw: ClusterWorker, mw: MemberWorkers)

  // ---- The cluster worker's decision ----

  function InitStatus(s: Snap): Status {
    var st := if s.status.token == "" then s.status.(token := "token") else s.status;
    if st.observed.None? then AdoptSpec(st, s) else st
  }

  function AdoptSpec(st: Status, s: Snap): Status {
    st.(observed := Some(Snapshot(s.spec)), deadline := Deadline(s.spec, s.at))
  }

  function DecideScaleUp(s: Snap, pick: Name): Ctl {
    if DormantIn(s.list) != {} then
      if pick in DormantIn(s.list) then Wake(pick) else Idle
    else JoinList
  }

  function DecideScaleDown(s: Snap, pick: Name): Ctl
    requires s.status.observed.Some?
  {
    if !IsVictim(s.list, pick) then Idle
    else if s.status.observed.value.replicas == 0 && |Running(s.list)| == 1 then Park(pick)
    else ScaleDelete(pick)
  }

  function DecideBootstrap(s: Snap, pick: Name): Ctl
    requires s.status.observed.Some?
  {
    if s.status.observed.value.replicas == 0 then Finish(false)
    else if Running(s.list) == {} || PendingBootstrap(s.list) then
      if SeedsIn(s.list) == {} then SeedCreate
      else if pick in SeedsIn(s.list) && s.list[pick].initialCluster == {} then SeedPatch(pick)
      else Idle
    else if pick in SeedsIn(s.list) && s.list[pick].pod then Discover(pick)
    else Idle
  }

  function AuthOrFinish(s: Snap): Ctl
    requires s.status.observed.Some?
  {
    var desired := s.status.observed.value.replicas;
    if s.spec.auth && !s.status.authEnabled && s.status.clusterID.Some?
       && desired != 0 && |Running(s.list)| == desired && AllReady(s.list)
    then AuthProbe else Finish(false)
  }

  function DecideScale(s: Snap, pick: Name): Ctl
    requires s.status.observed.Some?
  {
    var desired := s.status.observed.value.replicas;
    var current := |Running(s.list)|;
    if Terminating(s.list) then Idle
    else if PendingIn(s.list) != {} then DecideScaleUp(s, pick)
    else if current < desired then
      if DormantIn(s.list) != {} then DecideScaleUp(s, pick)
      else if !AllReady(s.list) then Idle
      else DecideScaleUp(s, pick)
    else if current > desired then DecideScaleDown(s, pick)
    else if Running(s.list) != {} then SteadyList
    else AuthOrFinish(s)
  }

  /**
   * EtcdClusterReconciler.Reconcile up to its first interaction after the
   * reads.  `pick` is the member a first-match search over the listing finds;
   * it ranges over every candidate, since the listing has no fixed order.
   */
  function Decide(s: Snap, pick: Name): Ctl {
    var st := s.status;
    if st.token == "" || st.observed.None? then WriteStatus(InitStatus(s), s.gen)
    else if !Complete(st, s.list) && Expired(st, s.at) then
      if st.clusterID.None? || SpecEqualsObserved(s.spec, st.observed) then Idle
      else WriteStatus(AdoptSpec(st, s), s.gen)
    else if Complete(st, s.list) && !SpecEqualsObserved(s.spec, st.observed) then
      WriteStatus(AdoptSpec(st, s), s.gen)
    else if st.clusterID.None? then DecideBootstrap(s, pick)
    else DecideScale(s, pick)
  }

  // ---- Actions ----

  /** How an interaction went: it failed, its client could not be built, or it took effect. */
  datatype Reply = Fail | Skip | Ok

  datatype Action =
    | EditSpec(spec: Spec)
    | Tick(d: nat)
    | ExtDelete(n: Name)
    | DeleteCluster
    | EtcdForm(n: Name, restored: EtcdAuth)
    | CStart(pick: Name)
    | CStep(x: Name, i: Id, r: Reply)
    | CCrash
    | MAddFinalizer(n: Name)
    | MBuildPod(n: Name, parentRead: bool)
    | MCreatePod(n: Name)
    | MPodGone(n: Name)
    | MPodStatus(n: Name)
    | MDiscover(n: Name, i: Id)
    | MReady(n: Name, up: bool)
    | MFinStart(n: Name)
    | MFinResolve(n: Name, i: Id)
    | MFinRemove(n: Name, r: Reply)
    | MFinRelease(n: Name)
    | MCrash(n: Name)

  predicate ClusterAction(a: Action) {
    a.CStart? || a.CStep? || a.CCrash?
  }

  /** What users do. */
  predicate UserAction(a: Action) {
    a.EditSpec? || a.ExtDelete? || a.DeleteCluster?
  }

  ghost predicate NoUser(s: seq<Action>) {
    forall k :: 0 <= k < |s| ==> !UserAction(s[k])
  }

  /** Delete on the apiserver: a finalizer-bearing record is only marked. */
  function DeleteRecord(api: Records, n: Name): Records {
    if n !in api.mem then api
    else if api.mem[n].finalizer then api.(mem := api.mem[n := api.mem[n].(deleting := true)])
    else api.(mem := api.mem - {n})
  }

  function CreateRecord(api: Records, x: Name, bootstrap: bool): Records {
    api.(mem := api.mem[x := NewMember(api.stamp, bootstrap)], used := api.used + {x}, stamp := api.stamp + 1)
  }

  /** Patch on the apiserver: no effect on a record that is gone. */
  function SetInitialCluster(api: Records, n: Name, ic: set<Name>): Records {
    if n in api.mem then api.(mem := api.mem[n := api.mem[n].(initialCluster := ic)]) else api
  }

  function SetDormant(api: Records, n: Name, dormant: bool): Records {
    if n in api.mem then api.(mem := api.mem[n := api.mem[n].(dormant := dormant)]) else api
  }

  function AddLearner(etcd: Etcd, n: Name): Etcd {
    etcd.(list := etcd.list[etcd.nextId := Entry(n, true)], nextId := etcd.nextId + 1)
  }

  function PromoteLearner(etcd: Etcd, id: Id): Etcd {
    if id in etcd.list then etcd.(list := etcd.list[id := etcd.list[id].(learner := false)]) else etcd
  }

  /** MemberList inside scaleUp, and the choice it leads to; without a running member there is no endpoint to dial. */
  function AfterJoinList(s: Snap, list: map<Id, Entry>, x: Name, i: Id): Ctl {
    if Running(s.list) == {} then Idle
    else if PendingIn(s.list) != {} then
      if x !in PendingIn(s.list) then Idle
      else if Registered(list, x) then JoinPatch(x, Owners(list))
      else JoinAdd(x)
    else if Learners(list) != {} then
      if i in Learners(list) then Promote(i, false) else Idle
    else JoinCreate
  }

  /** MemberList on the converged path, and the choice it leads to. */
  function AfterSteadyList(s: Snap, list: map<Id, Entry>, i: Id, r: Reply): Ctl {
    if s.status.observed.None? then Idle
    else if r == Skip then AuthOrFinish(s)
    else if r == Fail then Finish(true)
    else if Learners(list) == {} then AuthOrFinish(s)
    else if i in Learners(list) then Promote(i, true)
    else Finish(true)
  }

  /** The part of updateStatus that the protocol reads back: the progress deadline. */
  function FinishStatus(st: Status, list: Listing, pending: bool): Status {
    if st.observed.Some? && (st.observed.value.replicas == 0 || (!pending && Complete(st, list)))
    then st.(deadline := None) else st
  }

  function At(w: World, c: Ctl): World {
    w.(cw := w.cw.(ctl := c))
  }

  function Issued(w: World, c: Ctl): World {
    w.(cw := w.cw.(ctl := c, rpcs := w.cw.rpcs + 1))
  }

  function WithStatus(w: World, st: Status): World {
    w.(cl := w.cl.(status := st))
  }

  function WithAuth(w: World, auth: EtcdAuth): World {
    w.(etcd := w.etcd.(auth := auth))
  }

  /** One interaction of the cluster worker that went through. */
  function ClusterOk(w: World, x: Name, i: Id): World {
    match w.cw.ctl
    case Idle => w
    case WriteStatus(st, gen) => if gen == w.cl.gen then At(WithStatus(w, st), Idle) else At(w, Idle)
    case SeedCreate =>
      if x !in w.api.used then At(w.(api := CreateRecord(w.api, x, true)), SeedPatch(x)) else At(w, Idle)
    case SeedPatch(n) => At(w.(api := SetInitialCluster(w.api, n, {n})), Idle)
    case Discover(n) =>
      if |w.etcd.list| == 1 && Owners(w.etcd.list) == {n}
      then At(w, WriteStatus(w.cl.status.(clusterID := Some(w.etcd.cluster)), w.cw.snap.gen))
      else At(w, Idle)
    case Wake(n) => At(w.(api := SetDormant(w.api, n, false)), Idle)
    case JoinList => At(w, AfterJoinList(w.cw.snap, w.etcd.list, x, i))
    case JoinCreate =>
      if x !in w.api.used then At(w.(api := CreateRecord(w.api, x, false)), JoinAdd(x)) else At(w, Idle)
    case JoinAdd(n) =>
      var etcd := AddLearner(w.etcd, n);
      Issued(w.(etcd := etcd), JoinPatch(n, Owners(etcd.list)))
    case JoinPatch(n, ic) => At(w.(api := SetInitialCluster(w.api, n, ic)), Idle)
    case Promote(id, steady) =>
      Issued(w.(etcd := PromoteLearner(w.etcd, id)), if steady then Finish(true) else Idle)
    case ScaleDelete(n) => At(w.(api := DeleteRecord(w.api, n)), Idle)
    case Park(n) => At(w.(api := SetDormant(w.api, n, true)), Idle)
    case SteadyList => At(w, AfterSteadyList(w.cw.snap, w.etcd.list, i, Ok))
    case AuthProbe => At(w, if w.etcd.auth.on then AuthLatch else AuthUser)
    case AuthUser => At(WithAuth(w, w.etcd.auth.(rootUser := true)), AuthGrant)
    case AuthGrant =>
      if w.etcd.auth.rootUser then At(WithAuth(w, w.etcd.auth.(rootRole := true)), AuthEnable) else At(w, Finish(true))
    case AuthEnable => At(WithAuth(w, w.etcd.auth.(on := true, byOperator := true)), AuthLatch)
    case AuthLatch => At(WithStatus(w, w.cl.status.(authEnabled := true)), Finish(true))
    case Finish(pending) => At(WithStatus(w, FinishStatus(w.cl.status, w.cw.snap.list, pending)), Idle)
  }

  /** One interaction of the cluster worker that failed: where the code goes next. */
  function ClusterFail(w: World, r: Reply): World {
    match w.cw.ctl
    case JoinAdd(n) => Issued(w, Idle)
    case Promote(id, steady) => Issued(w, if steady then Finish(true) else Idle)
    case SteadyList => At(w, AfterSteadyList(w.cw.snap, w.etcd.list, 0, r))
    case AuthProbe => At(w, Finish(true))
    case AuthUser => At(w, Finish(true))
    case AuthGrant => At(w, Finish(true))
    case AuthEnable => At(w, Finish(true))
    case AuthLatch => At(w, if r == Skip then Idle else Finish(true))
    case _ => At(w, Idle)
  }

  /** Get and List: the reads a reconcile decides from. */
  function Reads(w: World): Snap {
    Snap(w.cl.spec, w.cl.gen, w.cl.status, w.api.mem, w.now)
  }

  function ClusterStart(w: World, pick: Name): World {
    if w.cw.ctl != Idle || w.cl.deleting then w
    else w.(cw := ClusterWorker(Decide(Reads(w), pick), Reads(w), 0))
  }

  /** Other active members, as the finalizer lists them. */
  function Others(list: Listing, n: Name): set<Name> {
    Active(list) - {n}
  }

  predicate Dialable(list: Listing, n: Name) {
    exists m :: m in Others(list, n) && list[m].pod
  }

  function FinStart(w: World, n: Name): World {
    if n !in w.api.mem || !w.api.mem[n].deleting || !w.api.mem[n].finalizer || n in w.mw.ctl then w
    else if w.cl.deleting then FinAt(w, n, MRelease(ClusterGone))
    else if Others(w.api.mem, n) == {} then FinAt(w, n, MRelease(Alone))
    else if !Dialable(w.api.mem, n) then w
    else if w.api.mem[n].memberID.Some? then FinAt(w, n, MRemove(w.api.mem[n].memberID.value))
    else FinAt(w, n, MResolve)
  }

  function FinAt(w: World, n: Name, c: MCtl): World {
    w.(mw := MemberWorkers(w.mw.ctl[n := c], w.mw.rpcs[n := 0]))
  }

  function FinResolve(w: World, n: Name, i: Id): World {
    if n !in w.mw.ctl || !w.mw.ctl[n].MResolve? then w
    else if !Registered(w.etcd.list, n) then w.(mw := w.mw.(ctl := w.mw.ctl[n := MRelease(Gone)]))
    else if i in w.etcd.list && w.etcd.list[i].owner == n then w.(mw := w.mw.(ctl := w.mw.ctl[n := MRemove(i)]))
    else w
  }

  function FinRemove(w: World, n: Name, r: Reply): World {
    if n !in w.mw.ctl || !w.mw.ctl[n].MRemove? || n !in w.mw.rpcs then w
    else
      var id := w.mw.ctl[n].id;
      var rpcs := w.mw.rpcs[n := w.mw.rpcs[n] + 1];
      if r == Ok && id in w.etcd.list
      then w.(etcd := w.etcd.(list := w.etcd.list - {id}), mw := MemberWorkers(w.mw.ctl[n := MRelease(Gone)], rpcs))
      else w.(mw := MemberWorkers(w.mw.ctl - {n}, rpcs))
  }

  function FinRelease(w: World, n: Name): World {
    if n in w.mw.ctl && w.mw.ctl[n].MRelease?
    then w.(api := w.api.(mem := w.api.mem - {n}), mw := w.mw.(ctl := w.mw.ctl - {n}))
    else w
  }

  /** --initial-cluster-state=new: only the seed, never seen in etcd, of a cluster not known to have formed. */
  predicate BuildsNew(m: Member, clusterFormed: bool) {
    m.bootstrap && m.memberID.None? && !clusterFormed
  }

  function BuildPod(w: World, n: Name, parentRead: bool): World {
    if n !in w.api.mem || n in w.mw.ctl || n in w.api.pods then w
    else
      var m := w.api.mem[n];
      if m.deleting || !m.finalizer || m.initialCluster == {} || m.dormant then w
      else w.(mw := w.mw.(ctl := w.mw.ctl[n := MBuilt(BuildsNew(m, parentRead && w.cl.status.clusterID.Some?))]))
  }

  function CreatePod(w: World, n: Name): World {
    if n in w.mw.ctl && w.mw.ctl[n].MBuilt?
    then w.(api := w.api.(pods := w.api.pods[n := w.mw.ctl[n].stateNew]), mw := w.mw.(ctl := w.mw.ctl - {n}))
    else w
  }

  /** The member worker's writes to a record of its own. */
  function FieldUpdate(api: Records, etcd: Etcd, a: Action): Member
    requires RecordAction(a)
    requires a.n in api.mem
  {
    var m := api.mem[a.n];
    if m.deleting then m
    else match a
      case MAddFinalizer(n) => m.(finalizer := true)
      case MPodStatus(n) =>
        if n in api.pods then m.(pod := true) else if m.dormant then m.(pod := false, ready := false) else m
      case MDiscover(n, i) =>
        if n in api.pods && i in etcd.list && etcd.list[i].owner == n && m.initialCluster != {} && !m.dormant && m.memberID.None?
        then m.(memberID := Some(i), ready := true) else m
      case MReady(n, up) => if up && m.memberID.None? then m else m.(ready := up)
  }

  function MemberWrite(w: World, a: Action): World
    requires RecordAction(a)
  {
    if a.n in w.api.mem
    then w.(api := w.api.(mem := w.api.mem[a.n := FieldUpdate(w.api, w.etcd, a)]))
    else w
  }

  /**
   * The seed's process starts on an empty data dir and forms a one-member
   * cluster, possibly from a snapshot that carries auth state.
   */
  function Form(w: World, n: Name, restored: EtcdAuth): World {
    if n !in w.api.mem || n !in w.api.pods || !w.api.pods[n] || w.cl.status.clusterID.Some? || Registered(w.etcd.list, n) then w
    else
      var m := w.api.mem[n];
      if m.deleting || !m.bootstrap || m.memberID.Some? then w
      else w.(etcd := Etcd(map[w.etcd.nextId := Entry(n, false)], w.etcd.nextId + 1, w.etcd.nextId,
                           restored.(byOperator := false)))
  }

  function EnvironmentNext(w: World, a: Action): World {
    match a
    case EditSpec(spec) => if spec.auth == w.cl.spec.auth then w.(cl := w.cl.(spec := spec, gen := w.cl.gen + 1)) else w
    case Tick(d) => w.(now := w.now + d)
    case ExtDelete(n) => w.(api := DeleteRecord(w.api, n))
    case DeleteCluster => w.(cl := w.cl.(deleting := true))
    case EtcdForm(n, restored) => Form(w, n, restored)
    case _ => w
  }

  function ClusterNext(w: World, a: Action): World {
    match a
    case CStart(pick) => ClusterStart(w, pick)
    case CStep(x, i, r) => if r == Ok then ClusterOk(w, x, i) else ClusterFail(w, r)
    case _ => At(w, Idle)
  }

  function FinalizerNext(w: World, a: Action): World {
    match a
    case MFinStart(n) => FinStart(w, n)
    case MFinResolve(n, i) => FinResolve(w, n, i)
    case MFinRemove(n, r) => FinRemove(w, n, r)
    case MFinRelease(n) => FinRelease(w, n)
    case MCrash(n) => w.(mw := w.mw.(ctl := w.mw.ctl - {n}))
    case _ => w
  }

  function PodNext(w: World, a: Action): World {
    match a
    case MBuildPod(n, parentRead) => BuildPod(w, n, parentRead)
    case MCreatePod(n) => CreatePod(w, n)
    case MPodGone(n) => w.(api := w.api.(pods := w.api.pods - {n}))
    case _ => w
  }

  predicate FinalizerAction(a: Action) {
    a.MFinStart? || a.MFinResolve? || a.MFinRemove? || a.MFinRelease? || a.MCrash?
  }

  predicate RecordAction(a: Action) {
    a.MAddFinalizer? || a.MPodStatus? || a.MDiscover? || a.MReady?
  }

  predicate PodAction(a: Action) {
    a.MBuildPod? || a.MCreatePod? || a.MPodGone?
  }

  /** One interaction of anyone with a store.  An action that is not enabled changes nothing. */
  function Next(w: World, a: Action): World {
    if ClusterAction(a) then ClusterNext(w, a)
    else if FinalizerAction(a) then FinalizerNext(w, a)
    else if RecordAction(a) then MemberWrite(w, a)
    else if PodAction(a) then PodNext(w, a)
    else EnvironmentNext(w, a)
  }

  function Run(w: World, actions: seq<Action>): World {
    if actions == [] then w else Next(Run(w, actions[..|actions| - 1]), actions[|actions| - 1])
  }

  lemma RunSnoc(w: World, s: seq<Action>, a: Action)
    ensures Run(w, s + [a]) == Next(Run(w, s), a)
  {
    assert (s + [a])[..|s|] == s;
  }

  lemma {:induction false} RunConcat(w: World, s: seq<Action>, t: seq<Action>)
    ensures Run(w, s + t) == Run(Run(w, s), t)
  {
    if t == [] {
      assert s + t == s;
    } else {
      assert (s + t)[..|s + t| - 1] == s + t[..|t| - 1];
      RunConcat(w, s, t[..|t| - 1]);
    }
  }
}
