/**
 * The inductive invariant of the membership protocol.  It holds in every state
 * of every run, whatever anyone deletes and wherever workers are cut off.
 */
module MembershipInvariant {
  import opened Base
  import opened Membership

  type EntryList = map<Id, Entry>

  // ---- The two stores ----

  ghost predicate Names(api: Records) {
    && (forall n :: n in api.mem ==> n in api.used && api.mem[n].created < api.stamp)
    && (forall n, m :: n in api.mem && m in api.mem && api.mem[n].created == api.mem[m].created ==> n == m)
  }

  /** Every peer URL is registered at most once, under an id that is never reused. */
  ghost predicate Entries(used: set<Name>, etcd: Etcd) {
    && (forall i :: i in etcd.list ==> i < etcd.nextId && etcd.list[i].owner in used)
    && (forall i, j :: i in etcd.list && j in etcd.list && etcd.list[i].owner == etcd.list[j].owner ==> i == j)
  }

  /** `id` is the only id under which `n` may be registered, and stands for nobody else. */
  ghost predicate IdOf(etcd: Etcd, n: Name, id: Id) {
    && id < etcd.nextId
    && (id in etcd.list ==> etcd.list[id].owner == n)
    && (forall i :: i in etcd.list && etcd.list[i].owner == n ==> i == id)
  }

  ghost predicate MemberIds(mem: Listing, etcd: Etcd) {
    forall n :: n in mem && mem[n].memberID.Some? ==>
      mem[n].initialCluster != {} && IdOf(etcd, n, mem[n].memberID.value)
  }

  ghost predicate OneLearner(list: EntryList) {
    forall i, j :: i in Learners(list) && j in Learners(list) ==> i == j
  }

  ghost predicate OnePending(mem: Listing) {
    forall n, m :: n in mem && m in mem && Pending(mem[n]) && Pending(mem[m]) ==> n == m
  }

  ghost predicate Newest(mem: Listing, n: Name) {
    n in mem && forall m :: m in mem ==> mem[m].created <= mem[n].created
  }

  ghost predicate LearnersOwnedBy(list: EntryList, n: Name) {
    forall i :: i in Learners(list) ==> list[i].owner == n
  }

  ghost predicate PendingNewest(mem: Listing, list: EntryList) {
    forall n :: n in mem && Pending(mem[n]) ==> Newest(mem, n) && !mem[n].dormant && LearnersOwnedBy(list, n)
  }

  ghost predicate LearnerNewest(mem: Listing, list: EntryList) {
    forall i :: i in Learners(list) && list[i].owner in mem ==> Newest(mem, list[i].owner)
  }

  ghost predicate Dormancy(mem: Listing) {
    forall n, m :: n in DormantIn(mem) && m in Active(mem) ==> n == m
  }

  ghost predicate OneSeed(mem: Listing) {
    forall n, m :: n in Active(mem) && m in Active(mem) && mem[n].bootstrap && mem[m].bootstrap ==> n == m
  }

  /** Before the cluster ID is latched there is nothing but seeds, and no learner. */
  ghost predicate PreLatch(st: Status, mem: Listing, list: EntryList) {
    st.clusterID.None? ==>
      && Learners(list) == {} && !st.authEnabled
      && forall n :: n in mem ==> mem[n].bootstrap && !mem[n].dormant
  }

  ghost predicate AuthState(st: Status, auth: EtcdAuth) {
    && (st.authEnabled ==> auth.on && st.clusterID.Some?)
    && (auth.byOperator ==> auth.on && auth.rootUser && auth.rootRole)
  }

  ghost predicate StoreInv(api: Records, etcd: Etcd) {
    && Names(api) && Entries(api.used, etcd) && MemberIds(api.mem, etcd)
    && OneLearner(etcd.list) && OnePending(api.mem)
    && PendingNewest(api.mem, etcd.list) && LearnerNewest(api.mem, etcd.list)
    && Dormancy(api.mem) && OneSeed(api.mem)
  }

  // ---- The cluster worker ----

  ghost predicate NoPending(mem: Listing) {
    forall n :: n in mem ==> !Pending(mem[n])
  }

  /** Nothing is pending but `n`, and every learner is its own. */
  ghost predicate OnlyPending(api: Records, list: EntryList, n: Name) {
    && n in api.used
    && (forall m :: m in api.mem && Pending(api.mem[m]) ==> m == n)
    && (n in api.mem ==> Pending(api.mem[n]) && !api.mem[n].dormant)
    && LearnersOwnedBy(list, n)
  }

  /** A status the worker may write: the ways Reconcile rewrites it. */
  ghost predicate Legit(st: Status, s: Snap) {
    || ((s.status.observed.None? || s.status.token == "") && st == InitStatus(s))
    || (s.status.observed.Some? && !SpecEqualsObserved(s.spec, s.status.observed) && st == AdoptSpec(s.status, s)
        && (Complete(s.status, s.list) || (Expired(s.status, s.at) && s.status.clusterID.Some?)))
    || (s.status.clusterID.None? && s.status.observed.Some? && exists c :: st == s.status.(clusterID := Some(c)))
  }

  predicate PreLatchPoint(c: Ctl) {
    c.SeedCreate? || c.SeedPatch? || c.Discover?
  }

  /** Points from which an add, promote, delete, park or wake is still to come or was issued. */
  predicate MembershipPoint(c: Ctl) {
    c.Wake? || c.JoinList? || c.JoinCreate? || c.JoinAdd? || c.JoinPatch? || c.Promote? || c.ScaleDelete? || c.Park? || c.SteadyList?
  }

  predicate AuthPoint(c: Ctl) {
    c.AuthProbe? || c.AuthUser? || c.AuthGrant? || c.AuthEnable? || c.AuthLatch?
  }

  /** The reads of the reconcile in progress still agree with what this worker alone writes. */
  ghost predicate SnapInv(cl: ClusterObject, now: int, cw: ClusterWorker) {
    cw.ctl != Idle ==>
      && cw.snap.gen <= cl.gen && (cw.snap.gen == cl.gen ==> cw.snap.spec == cl.spec)
      && cw.snap.spec.auth == cl.spec.auth && cw.snap.at <= now
      && cw.snap.status.clusterID == cl.status.clusterID && cw.snap.status.observed == cl.status.observed
      && (!cw.ctl.Finish? ==> cw.snap.status == cl.status)
      && (cw.ctl.WriteStatus? || cl.status.observed.Some?)
      && (MembershipPoint(cw.ctl) || AuthPoint(cw.ctl) ==> cl.status.clusterID.Some?)
      && (PreLatchPoint(cw.ctl) ==> cl.status.clusterID.None?)
      && (MembershipPoint(cw.ctl) ==> !Terminating(cw.snap.list))
  }

  ghost predicate NewestListed(list: Listing, n: Name) {
    n in list && forall m :: m in list ==> list[m].created <= list[n].created
  }

  /** Only the worker itself creates records, so what it listed bounds what exists. */
  ghost predicate Bounded(mem: Listing, list: Listing) {
    forall m :: m in mem ==> m in list && mem[m].created == list[m].created
  }

  /** What the worker knows of the stores at each of its control points. */
  ghost predicate CtlInv(c: Ctl, s: Snap, api: Records, etcd: Etcd) {
    match c
    case WriteStatus(st, gen) => gen == s.gen && Legit(st, s)
    case SeedCreate => Active(api.mem) == {}
    case SeedPatch(n) => n in api.mem ==> api.mem[n].bootstrap && api.mem[n].initialCluster == {}
    case JoinList =>
      && DormantIn(api.mem) == {}
      && (PendingIn(s.list) == {} ==> NoPending(api.mem))
      && (forall n :: n in PendingIn(s.list) ==> OnlyPending(api, etcd.list, n))
    case JoinCreate => DormantIn(api.mem) == {} && NoPending(api.mem) && Learners(etcd.list) == {}
    case JoinAdd(n) => OnlyPending(api, etcd.list, n) && !Registered(etcd.list, n)
    case JoinPatch(n, ic) => n in ic && (n in api.mem ==> Pending(api.mem[n]))
    case ScaleDelete(n) => Bounded(api.mem, s.list) && NewestListed(s.list, n)
    case Park(n) => Active(api.mem) <= {n} && (n in api.mem ==> !Pending(api.mem[n]))
    case _ => true
  }

  ghost predicate AuthInv(c: Ctl, spec: Spec, st: Status, auth: EtcdAuth) {
    && (AuthPoint(c) ==> spec.auth && !st.authEnabled)
    && (c.AuthGrant? ==> auth.rootUser)
    && (c.AuthEnable? ==> auth.rootUser && auth.rootRole)
    && (c.AuthLatch? ==> auth.on)
  }

  // ---- Both workers ----

  /** At most one membership RPC per reconcile of either controller. */
  ghost predicate ClusterRpcs(cw: ClusterWorker) {
    && cw.rpcs <= 1
    && (cw.ctl.JoinList? || cw.ctl.JoinCreate? || cw.ctl.JoinAdd? || cw.ctl.Promote? || cw.ctl.SteadyList? ==> cw.rpcs == 0)
  }

  ghost predicate MemberRpcs(mw: MemberWorkers) {
    && (forall n :: n in mw.rpcs ==> mw.rpcs[n] <= 1)
    && (forall n :: n in mw.ctl && (mw.ctl[n].MResolve? || mw.ctl[n].MRemove?) ==> n in mw.rpcs && mw.rpcs[n] == 0)
  }

  /** Removing `id` can only hit `n`'s own entry. */
  ghost predicate Harmless(etcd: Etcd, n: Name, id: Id) {
    id < etcd.nextId && (id in etcd.list ==> etcd.list[id].owner == n)
  }

  /** A finalizer in progress belongs to a record that is still there, and removes nobody else's entry. */
  ghost predicate Finalizers(mem: Listing, etcd: Etcd, ctl: map<Name, MCtl>) {
    forall n :: n in ctl && !ctl[n].MBuilt? ==>
      && n in mem && mem[n].deleting && mem[n].finalizer
      && (ctl[n].MRemove? ==> Harmless(etcd, n, ctl[n].id))
  }

  ghost predicate Inv(w: World) {
    && StoreInv(w.api, w.etcd)
    && PreLatch(w.cl.status, w.api.mem, w.etcd.list)
    && AuthState(w.cl.status, w.etcd.auth)
    && SnapInv(w.cl, w.now, w.cw)
    && CtlInv(w.cw.ctl, w.cw.snap, w.api, w.etcd)
    && AuthInv(w.cw.ctl, w.cl.spec, w.cl.status, w.etcd.auth)
    && ClusterRpcs(w.cw) && MemberRpcs(w.mw)
    && Finalizers(w.api.mem, w.etcd, w.mw.ctl)
  }

  // ---- Initial states ----

  ghost predicate WorkersIdle(w: World) {
    w.cw.ctl == Idle && w.cw.rpcs == 0 && w.mw == MemberWorkers(map[], map[]) && !w.cl.deleting
  }

  ghost predicate FreshStart(w: World) {
    && w.api.mem == map[] && w.api.pods == map[] && w.etcd.list == map[]
    && w.cl.status == Status("", None, None, None, false)
    && w.etcd.auth == EtcdAuth(false, false, false, false)
    && WorkersIdle(w)
  }

  /** What the migration tool leaves behind: one voter per record and no seed. */
  ghost predicate AdoptedStart(w: World) {
    && w.api.mem != map[] && Names(w.api)
    && (forall n :: n in w.api.mem ==>
          var m := w.api.mem[n];
          && !m.bootstrap && !m.dormant && !m.deleting && m.initialCluster != {}
          && m.memberID.Some? && m.memberID.value in w.etcd.list && w.etcd.list[m.memberID.value] == Entry(n, false))
    && (forall i :: i in w.etcd.list ==>
          i < w.etcd.nextId && w.etcd.list[i].owner in w.api.mem && w.api.mem[w.etcd.list[i].owner].memberID == Some(i))
    && w.cl.status.clusterID.Some? && w.cl.status.observed.Some? && w.cl.status.token != ""
    && !w.cl.status.authEnabled && !w.etcd.auth.byOperator
    && WorkersIdle(w)
  }

  ghost predicate Init(w: World) {
    FreshStart(w) || AdoptedStart(w)
  }

  lemma InitInv(w: World)
    requires Init(w)
    ensures Inv(w)
  {
    if AdoptedStart(w) {
      assert Learners(w.etcd.list) == {} && DormantIn(w.api.mem) == {};
    }
  }

  // ---- Steps that only take things away ----

  ghost predicate Kept(m: Member, m': Member) {
    && m'.created == m.created && m'.bootstrap == m.bootstrap && m'.initialCluster == m.initialCluster
    && m'.dormant == m.dormant && (m.deleting ==> m'.deleting)
  }

  /** Records keep their identity and may go or become Terminating. */
  ghost predicate Fewer(api: Records, api': Records) {
    && api'.used == api.used && api'.stamp == api.stamp
    && (forall n :: n in api'.mem ==> n in api.mem && Kept(api.mem[n], api'.mem[n]))
  }

  ghost predicate KeptIds(api: Records, api': Records) {
    forall n :: n in api'.mem ==> n in api.mem && api'.mem[n].memberID == api.mem[n].memberID
  }

  /** Entries may go or be promoted. */
  ghost predicate FewerEntries(etcd: Etcd, etcd': Etcd) {
    && etcd'.nextId == etcd.nextId
    && (forall i :: i in etcd'.list ==>
          i in etcd.list && etcd'.list[i].owner == etcd.list[i].owner && (etcd'.list[i].learner ==> etcd.list[i].learner))
  }

  lemma FewerSets(api: Records, api': Records, etcd: Etcd, etcd': Etcd)
    requires Fewer(api, api') && FewerEntries(etcd, etcd')
    ensures Active(api'.mem) <= Active(api.mem) && DormantIn(api'.mem) <= DormantIn(api.mem)
    ensures Learners(etcd'.list) <= Learners(etcd.list)
  {
  }

  lemma FewerRecords(api: Records, api': Records)
    requires Fewer(api, api')
    ensures Names(api) ==> Names(api')
    ensures OnePending(api.mem) ==> OnePending(api'.mem)
    ensures Dormancy(api.mem) ==> Dormancy(api'.mem)
    ensures OneSeed(api.mem) ==> OneSeed(api'.mem)
    ensures NoPending(api.mem) ==> NoPending(api'.mem)
  {
    assert Active(api'.mem) <= Active(api.mem) && DormantIn(api'.mem) <= DormantIn(api.mem);
  }

  lemma FewerIds(api: Records, api': Records, etcd: Etcd, etcd': Etcd)
    requires Fewer(api, api') && FewerEntries(etcd, etcd')
    ensures Entries(api.used, etcd) ==> Entries(api'.used, etcd')
    ensures forall n, id :: IdOf(etcd, n, id) ==> IdOf(etcd', n, id)
    ensures forall n, id :: Harmless(etcd, n, id) ==> Harmless(etcd', n, id)
    ensures MemberIds(api.mem, etcd) && KeptIds(api, api') ==> MemberIds(api'.mem, etcd')
    ensures OneLearner(etcd.list) ==> OneLearner(etcd'.list)
  {
    assert Learners(etcd'.list) <= Learners(etcd.list);
  }

  lemma FewerNewest(api: Records, api': Records, etcd: Etcd, etcd': Etcd)
    requires Fewer(api, api') && FewerEntries(etcd, etcd')
    ensures PendingNewest(api.mem, etcd.list) ==> PendingNewest(api'.mem, etcd'.list)
    ensures LearnerNewest(api.mem, etcd.list) ==> LearnerNewest(api'.mem, etcd'.list)
    ensures forall n :: OnlyPending(api, etcd.list, n) ==> OnlyPending(api', etcd'.list, n)
    ensures forall st :: PreLatch(st, api.mem, etcd.list) ==> PreLatch(st, api'.mem, etcd'.list)
  {
    FewerSets(api, api', etcd, etcd');
    forall n | n in api'.mem && Newest(api.mem, n) ensures Newest(api'.mem, n) {}
    forall n | LearnersOwnedBy(etcd.list, n) ensures LearnersOwnedBy(etcd'.list, n) {}
  }

  lemma FewerStores(api: Records, api': Records, etcd: Etcd, etcd': Etcd)
    requires Fewer(api, api') && FewerEntries(etcd, etcd') && StoreInv(api, etcd)
    requires KeptIds(api, api') || MemberIds(api'.mem, etcd')
    ensures StoreInv(api', etcd')
  {
    FewerRecords(api, api');
    FewerIds(api, api', etcd, etcd');
    FewerNewest(api, api', etcd, etcd');
  }

  lemma FewerCtl(c: Ctl, s: Snap, api: Records, api': Records, etcd: Etcd, etcd': Etcd)
    requires Fewer(api, api') && FewerEntries(etcd, etcd') && CtlInv(c, s, api, etcd)
    ensures CtlInv(c, s, api', etcd')
  {
    FewerSets(api, api', etcd, etcd');
    FewerRecords(api, api');
    FewerNewest(api, api', etcd, etcd');
  }
}
