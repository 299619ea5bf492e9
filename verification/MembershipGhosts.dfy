/**
 * The guard on deletions, and what every run that respects it keeps: members about
 * to be registered are there, and finalizers that are done left nothing in etcd.
 */
module MembershipGhosts {
  import opened Base
  import opened Membership
  import opened MembershipInvariant
  import opened MembershipPreservation
  import opened MembershipWorker

  /** The cluster worker is about to register `n`. */
  predicate Holds(cw: ClusterWorker, n: Name) {
    (cw.ctl.JoinList? && n in PendingIn(cw.snap.list)) || cw.ctl == JoinAdd(n)
  }

  /** The finalizer of `o` is on its way to remove entry `i`. */
  predicate Leaving(ctl: map<Name, MCtl>, o: Name, i: Id) {
    o in ctl && (ctl[o] == MResolve || ctl[o] == MRemove(i))
  }

  /** The reconcile in progress may still create a record: it can dial, nothing is pending, and no learner will be found. */
  predicate StillCreates(cw: ClusterWorker, list: EntryList, ctl: map<Name, MCtl>) {
    || cw.ctl.JoinCreate?
    || (cw.ctl.JoinList? && Running(cw.snap.list) != {} && PendingIn(cw.snap.list) == {}
        && forall i :: i in Learners(list) ==> Leaving(ctl, list[i].owner, i))
  }

  /** Some record is a voter in etcd. */
  predicate HasVoter(mem: Listing, list: EntryList) {
    exists i :: i in Voters(list) && list[i].owner in mem
  }

  /** A member that bears its finalizer is being registered beside others. */
  predicate Interrupts(w: World, n: Name) {
    Holds(w.cw, n) && n in Active(w.api.mem) && w.api.mem[n].finalizer && Others(w.api.mem, n) != {}
  }

  /** `n` is the last active member, the worker may still create another, and a record that stays behind is a voter in etcd. */
  predicate Strands(w: World, n: Name) {
    && StillCreates(w.cw, w.etcd.list, w.mw.ctl) && Active(w.api.mem) == {n}
    && HasVoter(DeleteRecord(w.api, n).mem, w.etcd.list)
  }

  /** What is asked of whoever deletes members. */
  predicate Allowed(w: World, a: Action) {
    a.ExtDelete? ==> !Interrupts(w, a.n) && !Strands(w, a.n)
  }

  /** Dropping the finalizer of `m` now would leave its entry in etcd, beside another member of a live, formed cluster. */
  ghost predicate BadRelease(w: World, m: Name) {
    && m in w.api.mem && m !in Next(w, MFinRelease(m)).api.mem
    && !w.cl.deleting && w.cl.status.clusterID.Some? && Others(w.api.mem, m) != {}
    && Registered(w.etcd.list, m)
  }

  ghost predicate Guarded(w: World, actions: seq<Action>) {
    actions == [] ||
    (Guarded(w, actions[..|actions| - 1]) && Allowed(Run(w, actions[..|actions| - 1]), actions[|actions| - 1]))
  }

  /** Let go, if at all, because nobody else was there. */
  predicate GoesAlone(ctl: map<Name, MCtl>, n: Name) {
    n in ctl ==> ctl[n].MBuilt? || ctl[n] == MRelease(Alone) || ctl[n] == MRelease(ClusterGone)
  }

  /** A member being registered is active, or has no record, or nobody else is active. */
  ghost predicate HeldLive(cw: ClusterWorker, mem: Listing, ctl: map<Name, MCtl>) {
    forall n :: Holds(cw, n) ==> HeldSafely(mem, ctl, n)
  }

  ghost predicate HeldSafely(mem: Listing, ctl: map<Name, MCtl>, n: Name) {
    || n !in mem
    || !mem[n].deleting
    || (Others(mem, n) == {} && GoesAlone(ctl, n))
  }

  /** A finalizer that is done with etcd left no entry behind; one about to remove an entry has the right one. */
  ghost predicate Clean(etcd: Etcd, ctl: map<Name, MCtl>) {
    forall n :: n in ctl ==>
      && (ctl[n] == MRelease(Gone) ==> !Registered(etcd.list, n))
      && (ctl[n].MRemove? ==> IdOf(etcd, n, ctl[n].id))
  }

  ghost predicate GhostFree(w: World) {
    HeldLive(w.cw, w.api.mem, w.mw.ctl) && Clean(w.etcd, w.mw.ctl)
  }

  // ---- Preservation ----

  lemma CleanFewer(etcd: Etcd, etcd': Etcd, ctl: map<Name, MCtl>)
    requires Clean(etcd, ctl) && FewerEntries(etcd, etcd')
    ensures Clean(etcd', ctl)
  {
    forall n | !Registered(etcd.list, n) ensures !Registered(etcd'.list, n) {}
  }

  lemma CleanAdd(etcd: Etcd, ctl: map<Name, MCtl>, n: Name)
    requires Clean(etcd, ctl) && GoesAlone(ctl, n)
    requires forall i :: i in etcd.list ==> i < etcd.nextId
    ensures Clean(AddLearner(etcd, n), ctl)
  {
    var etcd' := AddLearner(etcd, n);
    forall m | m != n && !Registered(etcd.list, m) ensures !Registered(etcd'.list, m) {}
  }

  lemma CleanForm(w: World, n: Name, restored: EtcdAuth)
    requires Clean(w.etcd, w.mw.ctl) && Finalizers(w.api.mem, w.etcd, w.mw.ctl)
    ensures Clean(Form(w, n, restored).etcd, w.mw.ctl)
  {
    var etcd' := Form(w, n, restored).etcd;
    if etcd' != w.etcd {
      forall m | m != n ensures !Registered(etcd'.list, m) {}
    }
  }

  lemma CleanFinalizer(w: World, a: Action)
    requires Inv(w) && Clean(w.etcd, w.mw.ctl) && FinalizerAction(a)
    ensures Clean(FinalizerNext(w, a).etcd, FinalizerNext(w, a).mw.ctl)
  {
    match a
    case MFinStart(n) => CleanStart(w, n);
    case MFinResolve(n, i) => CleanResolve(w, n, i);
    case MFinRemove(n, r) => CleanRemove(w, n, r);
    case _ =>
  }

  lemma CleanStart(w: World, n: Name)
    requires Clean(w.etcd, w.mw.ctl) && MemberIds(w.api.mem, w.etcd)
    ensures Clean(FinStart(w, n).etcd, FinStart(w, n).mw.ctl)
  {
  }

  lemma CleanResolve(w: World, n: Name, i: Id)
    requires Clean(w.etcd, w.mw.ctl) && Entries(w.api.used, w.etcd)
    ensures Clean(FinResolve(w, n, i).etcd, FinResolve(w, n, i).mw.ctl)
  {
    if i in w.etcd.list && w.etcd.list[i].owner == n {
      assert IdOf(w.etcd, n, i);
    }
  }

  lemma CleanRemove(w: World, n: Name, r: Reply)
    requires Clean(w.etcd, w.mw.ctl)
    ensures Clean(FinRemove(w, n, r).etcd, FinRemove(w, n, r).mw.ctl)
  {
    var v := FinRemove(w, n, r);
    if v.etcd != w.etcd {
      CleanFewer(w.etcd, v.etcd, w.mw.ctl);
      assert !Registered(v.etcd.list, n);
    }
  }

  lemma CleanCluster(w: World, a: Action)
    requires Inv(w) && GhostFree(w) && ClusterAction(a)
    ensures Clean(ClusterNext(w, a).etcd, w.mw.ctl)
  {
    if a.CStep? && a.r == Ok && w.cw.ctl.JoinAdd? {
      HeldGoesAlone(w, w.cw.ctl.joiner);
      CleanAdd(w.etcd, w.mw.ctl, w.cw.ctl.joiner);
    } else {
      ClusterEntries(w, a);
      CleanFewer(w.etcd, ClusterNext(w, a).etcd, w.mw.ctl);
    }
  }

  lemma ClusterEntries(w: World, a: Action)
    requires ClusterAction(a) && !(a.CStep? && a.r == Ok && w.cw.ctl.JoinAdd?)
    ensures FewerEntries(w.etcd, ClusterNext(w, a).etcd)
  {
  }

  /** What the cluster worker holds it has listed or just created. */
  lemma HoldsAfter(w: World, a: Action, n: Name)
    requires ClusterAction(a) && Holds(ClusterNext(w, a).cw, n)
    ensures var v := ClusterNext(w, a);
            || (Holds(w.cw, n) && v.api == w.api)
            || (a.CStart? && v.api == w.api && n in PendingIn(w.api.mem))
            || (n in v.api.mem && !v.api.mem[n].deleting)
  {
  }

  lemma HeldCluster(w: World, a: Action)
    requires HeldLive(w.cw, w.api.mem, w.mw.ctl) && ClusterAction(a)
    ensures HeldLive(ClusterNext(w, a).cw, ClusterNext(w, a).api.mem, w.mw.ctl)
  {
    var v := ClusterNext(w, a);
    forall n | Holds(v.cw, n) ensures HeldSafely(v.api.mem, w.mw.ctl, n) {
      HoldsAfter(w, a, n);
    }
  }

  /** A member about to be registered has no removal under way. */
  lemma HeldGoesAlone(w: World, n: Name)
    requires HeldLive(w.cw, w.api.mem, w.mw.ctl) && Holds(w.cw, n) && Finalizers(w.api.mem, w.etcd, w.mw.ctl)
    ensures GoesAlone(w.mw.ctl, n)
  {
    assert HeldSafely(w.api.mem, w.mw.ctl, n);
  }

  lemma HeldOthers(w: World, a: Action)
    requires Inv(w) && HeldLive(w.cw, w.api.mem, w.mw.ctl) && !ClusterAction(a) && Allowed(w, a)
    ensures HeldLive(w.cw, Next(w, a).api.mem, Next(w, a).mw.ctl)
  {
    var v := Next(w, a);
    forall n | Holds(w.cw, n) ensures HeldSafely(v.api.mem, v.mw.ctl, n) {
      assert HeldSafely(w.api.mem, w.mw.ctl, n);
      if n !in w.api.mem {
        NobodyCreates(w, a, n);
      } else if w.api.mem[n].deleting || (a == ExtDelete(n) && Others(w.api.mem, n) == {}) {
        HeldAlone(w, a, n);
      } else if a != ExtDelete(n) {
        HeldStays(w, a, n);
      }
    }
  }

  lemma NobodyCreates(w: World, a: Action, n: Name)
    requires !ClusterAction(a) && n !in w.api.mem
    ensures n !in Next(w, a).api.mem
  {
  }

  lemma HeldStays(w: World, a: Action, n: Name)
    requires n in w.api.mem && !w.api.mem[n].deleting && !ClusterAction(a) && a != ExtDelete(n)
    requires Finalizers(w.api.mem, w.etcd, w.mw.ctl)
    ensures n in Next(w, a).api.mem && !Next(w, a).api.mem[n].deleting
  {
  }

  /** Nobody but the cluster worker adds an active member. */
  lemma OthersShrink(w: World, a: Action, n: Name)
    requires !ClusterAction(a)
    ensures Others(Next(w, a).api.mem, n) <= Others(w.api.mem, n)
  {
  }

  lemma HeldAlone(w: World, a: Action, n: Name)
    requires Others(w.api.mem, n) == {} && GoesAlone(w.mw.ctl, n) && !ClusterAction(a)
    ensures Others(Next(w, a).api.mem, n) == {} && GoesAlone(Next(w, a).mw.ctl, n)
  {
    OthersShrink(w, a, n);
  }

  lemma GhostFreeStep(w: World, a: Action)
    requires Inv(w) && GhostFree(w) && Allowed(w, a)
    ensures GhostFree(Next(w, a))
  {
    WorkersApart(w, a);
    if ClusterAction(a) {
      GhostFreeCluster(w, a);
    } else {
      HeldOthers(w, a);
      CleanAnyone(w, a);
    }
  }

  /** Neither kind of worker touches the other's place. */
  lemma WorkersApart(w: World, a: Action)
    ensures ClusterAction(a) ==> ClusterNext(w, a).mw == w.mw && Next(w, a) == ClusterNext(w, a)
    ensures !ClusterAction(a) ==> Next(w, a).cw == w.cw
  {
  }

  lemma GhostFreeCluster(w: World, a: Action)
    requires Inv(w) && GhostFree(w) && ClusterAction(a) && ClusterNext(w, a).mw == w.mw
    ensures GhostFree(ClusterNext(w, a))
  {
    CleanCluster(w, a);
    HeldCluster(w, a);
  }

  lemma CleanAnyone(w: World, a: Action)
    requires Inv(w) && GhostFree(w) && Allowed(w, a) && !ClusterAction(a)
    ensures Clean(Next(w, a).etcd, Next(w, a).mw.ctl)
  {
    if FinalizerAction(a) {
      CleanFinalizer(w, a);
    } else if a.EtcdForm? {
      CleanForm(w, a.n, a.restored);
    } else {
      CleanOthers(w, a);
    }
  }

  lemma CleanOthers(w: World, a: Action)
    requires Clean(w.etcd, w.mw.ctl) && !ClusterAction(a) && !FinalizerAction(a) && !a.EtcdForm?
    ensures Clean(Next(w, a).etcd, Next(w, a).mw.ctl)
  {
  }

  lemma {:induction false} GuardedRun(w: World, actions: seq<Action>)
    requires Init(w) && Guarded(w, actions)
    ensures Inv(Run(w, actions)) && GhostFree(Run(w, actions))
  {
    RunInv(w, actions);
    if actions != [] {
      GuardedRun(w, actions[..|actions| - 1]);
      GhostFreeStep(Run(w, actions[..|actions| - 1]), actions[|actions| - 1]);
    }
  }
}
