/** The cluster worker's own actions preserve the invariant. */
module MembershipWorker {
  import opened Base
  import opened Membership
  import opened MembershipInvariant
  import opened MembershipPreservation

  // ---- Deciding ----

  /** With a member running, nothing active is dormant. */
  lemma RunningAwake(mem: Listing, r: Name)
    requires Dormancy(mem) && r in Running(mem)
    ensures DormantIn(mem) == {} && Active(mem) == Running(mem)
  {
    assert r in Active(mem);
    assert forall d :: d in DormantIn(mem) ==> d == r;
    assert forall n :: n in Active(mem) ==> n in Running(mem) || n in DormantIn(mem);
  }

  lemma PendingRuns(mem: Listing, list: EntryList, n: Name)
    requires PendingNewest(mem, list) && !Terminating(mem) && n in mem && Pending(mem[n])
    ensures n in PendingIn(mem)
  {
  }

  lemma DecideScaleUpInv(s: Snap, pick: Name, api: Records, etcd: Etcd)
    requires s.list == api.mem && StoreInv(api, etcd) && !Terminating(api.mem)
    ensures CtlInv(DecideScaleUp(s, pick), s, api, etcd)
  {
    if DormantIn(s.list) == {} {
      forall n | n in api.mem && Pending(api.mem[n]) ensures n in PendingIn(api.mem) {
        PendingRuns(api.mem, etcd.list, n);
      }
      forall n | n in PendingIn(s.list) ensures OnlyPending(api, etcd.list, n) {
      }
    }
  }

  lemma Singleton<T>(a: set<T>, x: T)
    requires |a| == 1 && x in a
    ensures a == {x}
  {
    assert |a - {x}| == 0;
  }

  lemma DecideScaleDownInv(s: Snap, pick: Name, api: Records, etcd: Etcd)
    requires s.list == api.mem && Dormancy(api.mem) && !Terminating(api.mem) && PendingIn(api.mem) == {}
    requires s.status.observed.Some?
    ensures CtlInv(DecideScaleDown(s, pick), s, api, etcd)
  {
    if IsVictim(s.list, pick) {
      RunningAwake(api.mem, pick);
      assert forall n :: n in api.mem ==> n in Active(api.mem);
      if |Running(s.list)| == 1 {
        Singleton(Running(s.list), pick);
      }
    }
  }

  lemma DecideScaleInv(s: Snap, pick: Name, api: Records, etcd: Etcd)
    requires s.list == api.mem && StoreInv(api, etcd) && s.status.observed.Some?
    ensures CtlInv(DecideScale(s, pick), s, api, etcd)
    ensures MembershipPoint(DecideScale(s, pick)) ==> !Terminating(s.list)
  {
    if Terminating(s.list) {
    } else if PendingIn(s.list) != {} {
      DecideScaleUpInv(s, pick, api, etcd);
    } else {
      DecideScaleUpInv(s, pick, api, etcd);
      DecideScaleDownInv(s, pick, api, etcd);
    }
  }

  lemma DecideBootstrapInv(s: Snap, pick: Name, api: Records, etcd: Etcd)
    requires s.list == api.mem && s.status.observed.Some? && s.status.clusterID.None?
    requires PreLatch(s.status, api.mem, etcd.list)
    ensures CtlInv(DecideBootstrap(s, pick), s, api, etcd)
  {
    if DecideBootstrap(s, pick) == SeedCreate {
      assert Running(s.list) == {};
      assert Active(api.mem) == {};
    }
  }

  lemma DecideInv(s: Snap, pick: Name, api: Records, etcd: Etcd)
    requires s.list == api.mem && StoreInv(api, etcd) && PreLatch(s.status, api.mem, etcd.list)
    ensures CtlInv(Decide(s, pick), s, api, etcd)
    ensures MembershipPoint(Decide(s, pick)) ==> !Terminating(s.list)
  {
    if s.status.observed.Some? {
      if s.status.clusterID.None? {
        DecideBootstrapInv(s, pick, api, etcd);
      } else {
        DecideScaleInv(s, pick, api, etcd);
      }
    }
  }

  /** What a decision presupposes of the status it was taken from. */
  lemma DecidePoint(s: Snap, pick: Name)
    ensures var c := Decide(s, pick);
            && (c != Idle && !c.WriteStatus? ==> s.status.observed.Some?)
            && (MembershipPoint(c) || AuthPoint(c) ==> s.status.clusterID.Some?)
            && (PreLatchPoint(c) ==> s.status.clusterID.None?)
            && (AuthPoint(c) ==> c == AuthProbe && s.spec.auth && !s.status.authEnabled)
  {
  }

  lemma StartStep(w: World, pick: Name)
    requires Inv(w)
    ensures Inv(ClusterStart(w, pick))
  {
    if w.cw.ctl == Idle && !w.cl.deleting {
      var s := Reads(w);
      DecideInv(s, pick, w.api, w.etcd);
      DecidePoint(s, pick);
    }
  }

  // ---- Interactions that leave both stores alone ----

  /** Moving on to `c` from reads that still hold. */
  lemma AtInv(w: World, c: Ctl)
    requires Inv(w) && w.cw.ctl != Idle && !w.cw.ctl.Finish?
    requires CtlInv(c, w.cw.snap, w.api, w.etcd)
    requires AuthInv(c, w.cl.spec, w.cl.status, w.etcd.auth)
    requires ClusterRpcs(w.cw.(ctl := c))
    requires c == Idle || c.WriteStatus? || w.cl.status.observed.Some?
    requires MembershipPoint(c) ==> MembershipPoint(w.cw.ctl)
    requires AuthPoint(c) ==> w.cl.status.clusterID.Some?
    requires !PreLatchPoint(c)
    ensures Inv(At(w, c))
  {
  }

  lemma CrashStep(w: World)
    requires Inv(w)
    ensures Inv(At(w, Idle))
  {
  }

  lemma WriteStatusStep(w: World, x: Name, i: Id)
    requires Inv(w) && w.cw.ctl.WriteStatus?
    ensures Inv(ClusterOk(w, x, i))
  {
    var st := w.cw.ctl.st;
    assert Legit(st, w.cw.snap);
    var v := At(WithStatus(w, st), Idle);
    assert PreLatch(st, w.api.mem, w.etcd.list) && AuthState(st, w.etcd.auth);
  }

  lemma DiscoverStep(w: World, x: Name, i: Id)
    requires Inv(w) && w.cw.ctl.Discover?
    ensures Inv(ClusterOk(w, x, i))
  {
    var st := w.cl.status.(clusterID := Some(w.etcd.cluster));
    assert st == w.cw.snap.status.(clusterID := Some(w.etcd.cluster));
    AtInv(w, WriteStatus(st, w.cw.snap.gen));
  }

  lemma JoinListStep(w: World, x: Name, i: Id)
    requires Inv(w) && w.cw.ctl.JoinList?
    ensures Inv(ClusterOk(w, x, i))
  {
    var c := AfterJoinList(w.cw.snap, w.etcd.list, x, i);
    if x in PendingIn(w.cw.snap.list) {
      assert OnlyPending(w.api, w.etcd.list, x);
      if j :| j in w.etcd.list && w.etcd.list[j].owner == x {
        assert x in Owners(w.etcd.list);
      }
    }
    AtInv(w, c);
  }

  lemma SteadyListStep(w: World, i: Id, r: Reply)
    requires Inv(w) && w.cw.ctl.SteadyList?
    ensures Inv(At(w, AfterSteadyList(w.cw.snap, w.etcd.list, i, r)))
  {
    AtInv(w, AfterSteadyList(w.cw.snap, w.etcd.list, i, r));
  }

  // ---- Creating records ----

  lemma CreateStore(api: Records, etcd: Etcd, x: Name, bootstrap: bool)
    requires StoreInv(api, etcd) && x !in api.used
    requires bootstrap ==> Active(api.mem) == {}
    requires DormantIn(api.mem) == {} && NoPending(api.mem) && Learners(etcd.list) == {}
    ensures StoreInv(CreateRecord(api, x, bootstrap), etcd)
  {
    CreateNames(api, etcd, x, bootstrap);
    CreateNewest(api, etcd, x, bootstrap);
    CreateActive(api, x, bootstrap);
  }

  lemma CreateNewest(api: Records, etcd: Etcd, x: Name, bootstrap: bool)
    requires Names(api) && x !in api.used && NoPending(api.mem) && Learners(etcd.list) == {}
    ensures var mem' := CreateRecord(api, x, bootstrap).mem;
            OnePending(mem') && PendingNewest(mem', etcd.list) && LearnerNewest(mem', etcd.list)
  {
    assert Newest(CreateRecord(api, x, bootstrap).mem, x);
  }

  lemma CreateActive(api: Records, x: Name, bootstrap: bool)
    requires Dormancy(api.mem) && OneSeed(api.mem) && x !in api.mem && DormantIn(api.mem) == {}
    requires bootstrap ==> Active(api.mem) == {}
    ensures var mem' := CreateRecord(api, x, bootstrap).mem; Dormancy(mem') && OneSeed(mem')
  {
    var mem' := CreateRecord(api, x, bootstrap).mem;
    assert DormantIn(mem') == {};
    assert Active(mem') == Active(api.mem) + {x};
  }

  lemma CreateNames(api: Records, etcd: Etcd, x: Name, bootstrap: bool)
    requires Names(api) && Entries(api.used, etcd) && MemberIds(api.mem, etcd) && x !in api.used
    ensures var api' := CreateRecord(api, x, bootstrap);
            && Names(api') && Entries(api'.used, etcd) && MemberIds(api'.mem, etcd)
  {
  }

  lemma CreateFinalizers(api: Records, etcd: Etcd, ctl: map<Name, MCtl>, x: Name, bootstrap: bool)
    requires Finalizers(api.mem, etcd, ctl) && x !in api.mem
    ensures Finalizers(CreateRecord(api, x, bootstrap).mem, etcd, ctl)
  {
  }

  lemma SeedCreateStep(w: World, x: Name, i: Id)
    requires Inv(w) && w.cw.ctl.SeedCreate?
    ensures Inv(ClusterOk(w, x, i))
  {
    if x !in w.api.used {
      assert DormantIn(w.api.mem) == {};
      CreateStore(w.api, w.etcd, x, true);
      CreateFinalizers(w.api, w.etcd, w.mw.ctl, x, true);
    } else {
      CrashStep(w);
    }
  }

  lemma JoinCreateStep(w: World, x: Name, i: Id)
    requires Inv(w) && w.cw.ctl.JoinCreate?
    ensures Inv(ClusterOk(w, x, i))
  {
    if x !in w.api.used {
      var api' := CreateRecord(w.api, x, false);
      CreateStore(w.api, w.etcd, x, false);
      CreateFinalizers(w.api, w.etcd, w.mw.ctl, x, false);
      assert OnlyPending(api', w.etcd.list, x) && !Registered(w.etcd.list, x);
    } else {
      CrashStep(w);
    }
  }

  // ---- Patching records ----

  /** A write that keeps every record's identity, apart from its initial cluster and its dormancy. */
  ghost predicate Relabelled(mem: Listing, mem': Listing) {
    && mem'.Keys == mem.Keys
    && (forall n :: n in mem ==>
          && mem'[n].created == mem[n].created && mem'[n].bootstrap == mem[n].bootstrap
          && mem'[n].deleting == mem[n].deleting && mem'[n].memberID == mem[n].memberID
          && (Pending(mem'[n]) ==> Pending(mem[n]))
          && (mem[n].initialCluster != {} ==> mem'[n].initialCluster != {}))
  }

  lemma RelabelledIds(api: Records, api': Records, etcd: Etcd)
    requires Relabelled(api.mem, api'.mem) && api'.used == api.used && api'.stamp == api.stamp
    requires Names(api) && MemberIds(api.mem, etcd) && OnePending(api.mem) && OneSeed(api.mem)
    ensures Names(api') && MemberIds(api'.mem, etcd) && OnePending(api'.mem) && OneSeed(api'.mem)
    ensures Active(api'.mem) == Active(api.mem)
  {
    assert Active(api'.mem) == Active(api.mem);
  }

  lemma RelabelledNewest(mem: Listing, mem': Listing, list: EntryList)
    requires Relabelled(mem, mem') && PendingNewest(mem, list) && LearnerNewest(mem, list)
    requires forall n :: n in mem && Pending(mem'[n]) ==> !mem'[n].dormant
    ensures PendingNewest(mem', list) && LearnerNewest(mem', list)
  {
    forall m | Newest(mem, m) ensures Newest(mem', m) {}
  }

  lemma PatchIcStore(api: Records, etcd: Etcd, n: Name, ic: set<Name>)
    requires StoreInv(api, etcd) && n in ic
    ensures StoreInv(SetInitialCluster(api, n, ic), etcd)
  {
    var api' := SetInitialCluster(api, n, ic);
    assert Relabelled(api.mem, api'.mem);
    RelabelledIds(api, api', etcd);
    RelabelledNewest(api.mem, api'.mem, etcd.list);
    assert DormantIn(api'.mem) == DormantIn(api.mem);
  }

  lemma PatchIcFrame(api: Records, etcd: Etcd, ctl: map<Name, MCtl>, st: Status, n: Name, ic: set<Name>)
    requires Finalizers(api.mem, etcd, ctl) && PreLatch(st, api.mem, etcd.list)
    ensures Finalizers(SetInitialCluster(api, n, ic).mem, etcd, ctl)
    ensures PreLatch(st, SetInitialCluster(api, n, ic).mem, etcd.list)
  {
  }

  lemma PatchIcStep(w: World, n: Name, ic: set<Name>)
    requires Inv(w) && n in ic
    ensures Inv(At(w.(api := SetInitialCluster(w.api, n, ic)), Idle))
  {
    PatchIcStore(w.api, w.etcd, n, ic);
    PatchIcFrame(w.api, w.etcd, w.mw.ctl, w.cl.status, n, ic);
  }

  lemma DormantStore(api: Records, etcd: Etcd, n: Name, dormant: bool)
    requires StoreInv(api, etcd)
    requires dormant ==> Active(api.mem) <= {n} && (n in api.mem ==> !Pending(api.mem[n]))
    ensures StoreInv(SetDormant(api, n, dormant), etcd)
  {
    var api' := SetDormant(api, n, dormant);
    assert Relabelled(api.mem, api'.mem);
    RelabelledIds(api, api', etcd);
    RelabelledNewest(api.mem, api'.mem, etcd.list);
    assert Dormancy(api'.mem) by {
      assert DormantIn(api'.mem) <= Active(api.mem);
      assert !dormant ==> DormantIn(api'.mem) <= DormantIn(api.mem);
    }
  }

  lemma DormantStep(w: World, n: Name, dormant: bool)
    requires Inv(w) && w.cl.status.clusterID.Some?
    requires dormant ==> Active(w.api.mem) <= {n} && (n in w.api.mem ==> !Pending(w.api.mem[n]))
    ensures Inv(At(w.(api := SetDormant(w.api, n, dormant)), Idle))
  {
    DormantStore(w.api, w.etcd, n, dormant);
  }

  lemma ScaleDeleteStep(w: World, n: Name)
    requires Inv(w)
    ensures Inv(At(w.(api := DeleteRecord(w.api, n)), Idle))
  {
    DeleteRecordFewer(w.api, w.etcd, w.mw.ctl, n);
    FewerStep(w, At(w.(api := DeleteRecord(w.api, n)), Idle));
  }

  // ---- etcd's member list ----

  lemma AddStore(api: Records, etcd: Etcd, n: Name)
    requires StoreInv(api, etcd) && OnlyPending(api, etcd.list, n) && !Registered(etcd.list, n)
    ensures StoreInv(api, AddLearner(etcd, n))
  {
    var etcd' := AddLearner(etcd, n);
    assert Learners(etcd.list) == {};
    assert Learners(etcd'.list) == {etcd.nextId};
    AddIds(api, etcd, n);
    assert LearnersOwnedBy(etcd'.list, n);
  }

  lemma AddIds(api: Records, etcd: Etcd, n: Name)
    requires Entries(api.used, etcd) && MemberIds(api.mem, etcd) && n in api.used && !Registered(etcd.list, n)
    requires n in api.mem ==> Pending(api.mem[n])
    ensures Entries(api.used, AddLearner(etcd, n)) && MemberIds(api.mem, AddLearner(etcd, n))
  {
    assert forall i :: i in etcd.list ==> etcd.list[i].owner != n;
  }

  lemma AddFinalizers(api: Records, etcd: Etcd, ctl: map<Name, MCtl>, n: Name)
    requires Finalizers(api.mem, etcd, ctl)
    ensures Finalizers(api.mem, AddLearner(etcd, n), ctl)
  {
  }

  lemma JoinAddStep(w: World, x: Name, i: Id)
    requires Inv(w) && w.cw.ctl.JoinAdd?
    ensures Inv(ClusterOk(w, x, i))
  {
    var n := w.cw.ctl.joiner;
    var etcd' := AddLearner(w.etcd, n);
    AddStore(w.api, w.etcd, n);
    AddFinalizers(w.api, w.etcd, w.mw.ctl, n);
    assert etcd'.list[w.etcd.nextId].owner == n;
  }

  lemma PromoteFewer(w: World, id: Id)
    requires Finalizers(w.api.mem, w.etcd, w.mw.ctl)
    ensures FewerEntries(w.etcd, PromoteLearner(w.etcd, id))
    ensures Finalizers(w.api.mem, PromoteLearner(w.etcd, id), w.mw.ctl)
  {
  }

  lemma PromoteStep(w: World, x: Name, i: Id)
    requires Inv(w) && w.cw.ctl.Promote?
    ensures Inv(ClusterOk(w, x, i))
  {
    var v := ClusterOk(w, x, i);
    PromoteFewer(w, w.cw.ctl.learner);
    var u := v.(cw := v.cw.(ctl := Idle));
    FewerStep(w, u);
  }

  lemma IssuedStep(w: World, r: Reply)
    requires Inv(w) && (w.cw.ctl.JoinAdd? || w.cw.ctl.Promote?)
    ensures Inv(ClusterFail(w, r))
  {
    var v := ClusterFail(w, r);
    var u := v.(cw := v.cw.(ctl := Idle));
    FewerStep(w, u);
  }

  // ---- Auth and the final status write ----

  /** A write that touches nothing but the auth state and the status fields outside the latches. */
  lemma MoveInv(w: World, auth: EtcdAuth, st: Status, c: Ctl)
    requires Inv(w) && w.cw.ctl != Idle
    requires st.clusterID == w.cl.status.clusterID && st.observed == w.cl.status.observed
    requires w.cl.status.authEnabled ==> st.authEnabled
    requires AuthState(st, auth) && AuthInv(c, w.cl.spec, st, auth)
    requires c == Idle || (c.Finish? && st.observed.Some?)
             || (AuthPoint(c) && AuthPoint(w.cw.ctl) && st == w.cl.status)
    ensures Inv(At(WithAuth(WithStatus(w, st), auth), c))
  {
    var v := At(WithAuth(WithStatus(w, st), auth), c);
    FewerStores(w.api, v.api, w.etcd, v.etcd);
    assert Finalizers(v.api.mem, v.etcd, v.mw.ctl);
  }

  /** What an auth call that goes through does to etcd, to the status and to the worker. */
  function AuthAfter(c: Ctl, auth: EtcdAuth): EtcdAuth {
    match c
    case AuthUser => auth.(rootUser := true)
    case AuthGrant => if auth.rootUser then auth.(rootRole := true) else auth
    case AuthEnable => auth.(on := true, byOperator := true)
    case _ => auth
  }

  function StatusAfter(c: Ctl, st: Status): Status {
    if c.AuthLatch? then st.(authEnabled := true) else st
  }

  function CtlAfter(c: Ctl, auth: EtcdAuth): Ctl {
    match c
    case AuthProbe => if auth.on then AuthLatch else AuthUser
    case AuthUser => AuthGrant
    case AuthGrant => if auth.rootUser then AuthEnable else Finish(true)
    case AuthEnable => AuthLatch
    case _ => Finish(true)
  }

  lemma AuthShape(w: World, x: Name, i: Id)
    requires AuthPoint(w.cw.ctl)
    ensures var c, st, auth := w.cw.ctl, w.cl.status, w.etcd.auth;
            ClusterOk(w, x, i) == At(WithAuth(WithStatus(w, StatusAfter(c, st)), AuthAfter(c, auth)), CtlAfter(c, auth))
  {
  }

  lemma AuthMoves(c: Ctl, spec: Spec, st: Status, auth: EtcdAuth)
    requires AuthPoint(c) && AuthState(st, auth) && AuthInv(c, spec, st, auth) && st.clusterID.Some?
    ensures var c', st', auth' := CtlAfter(c, auth), StatusAfter(c, st), AuthAfter(c, auth);
            && AuthState(st', auth') && AuthInv(c', spec, st', auth')
            && (c'.Finish? || (AuthPoint(c') && st' == st))
  {
  }

  lemma AuthStep(w: World, x: Name, i: Id)
    requires Inv(w) && AuthPoint(w.cw.ctl)
    ensures Inv(ClusterOk(w, x, i))
  {
    var c, st, auth := w.cw.ctl, w.cl.status, w.etcd.auth;
    AuthShape(w, x, i);
    AuthMoves(c, w.cl.spec, st, auth);
    MoveInv(w, AuthAfter(c, auth), StatusAfter(c, st), CtlAfter(c, auth));
  }

  lemma AuthFailStep(w: World, r: Reply)
    requires Inv(w) && AuthPoint(w.cw.ctl)
    ensures Inv(ClusterFail(w, r))
  {
    MoveInv(w, w.etcd.auth, w.cl.status, ClusterFail(w, r).cw.ctl);
  }

  lemma FinishStep(w: World, x: Name, i: Id)
    requires Inv(w) && w.cw.ctl.Finish?
    ensures Inv(ClusterOk(w, x, i))
  {
    MoveInv(w, w.etcd.auth, FinishStatus(w.cl.status, w.cw.snap.list, w.cw.ctl.pending), Idle);
  }

  // ---- Every action of every worker ----

  lemma PatchStep(w: World, x: Name, i: Id)
    requires Inv(w) && (w.cw.ctl.SeedPatch? || w.cw.ctl.JoinPatch?)
    ensures Inv(ClusterOk(w, x, i))
  {
    match w.cw.ctl
    case SeedPatch(n) => PatchIcStep(w, n, {n});
    case JoinPatch(n, ic) => PatchIcStep(w, n, ic);
    case _ =>
  }

  lemma SleepStep(w: World, x: Name, i: Id)
    requires Inv(w) && (w.cw.ctl.Wake? || w.cw.ctl.Park?)
    ensures Inv(ClusterOk(w, x, i))
  {
    match w.cw.ctl
    case Wake(n) => DormantStep(w, n, false);
    case Park(n) => DormantStep(w, n, true);
    case _ =>
  }

  lemma ListOrDeleteStep(w: World, x: Name, i: Id)
    requires Inv(w) && (w.cw.ctl.SteadyList? || w.cw.ctl.ScaleDelete? || w.cw.ctl.Idle?)
    ensures Inv(ClusterOk(w, x, i))
  {
    match w.cw.ctl
    case ScaleDelete(n) => ScaleDeleteStep(w, n);
    case SteadyList => SteadyListStep(w, i, Ok);
    case _ =>
  }

  lemma ClusterOkStep(w: World, x: Name, i: Id)
    requires Inv(w)
    ensures Inv(ClusterOk(w, x, i))
  {
    match w.cw.ctl
    case WriteStatus(_, _) => WriteStatusStep(w, x, i);
    case SeedCreate => SeedCreateStep(w, x, i);
    case Discover(_) => DiscoverStep(w, x, i);
    case JoinList => JoinListStep(w, x, i);
    case JoinCreate => JoinCreateStep(w, x, i);
    case JoinAdd(_) => JoinAddStep(w, x, i);
    case SeedPatch(_) => PatchStep(w, x, i);
    case JoinPatch(_, _) => PatchStep(w, x, i);
    case Promote(_, _) => PromoteStep(w, x, i);
    case Wake(_) => SleepStep(w, x, i);
    case Park(_) => SleepStep(w, x, i);
    case Finish(_) => FinishStep(w, x, i);
    case ScaleDelete(_) => ListOrDeleteStep(w, x, i);
    case SteadyList => ListOrDeleteStep(w, x, i);
    case Idle => ListOrDeleteStep(w, x, i);
    case _ => AuthStep(w, x, i);
  }

  lemma OtherFailStep(w: World, r: Reply)
    requires Inv(w) && !w.cw.ctl.JoinAdd? && !w.cw.ctl.Promote? && !AuthPoint(w.cw.ctl)
    ensures Inv(ClusterFail(w, r))
  {
    if w.cw.ctl.SteadyList? {
      SteadyListStep(w, 0, r);
    } else {
      CrashStep(w);
    }
  }

  lemma ClusterFailStep(w: World, r: Reply)
    requires Inv(w)
    ensures Inv(ClusterFail(w, r))
  {
    if w.cw.ctl.JoinAdd? || w.cw.ctl.Promote? {
      IssuedStep(w, r);
    } else if AuthPoint(w.cw.ctl) {
      AuthFailStep(w, r);
    } else {
      OtherFailStep(w, r);
    }
  }

  lemma InteractionStep(w: World, x: Name, i: Id, r: Reply)
    requires Inv(w)
    ensures Inv(ClusterNext(w, CStep(x, i, r)))
  {
    if r == Ok {
      ClusterOkStep(w, x, i);
    } else {
      ClusterFailStep(w, r);
    }
  }

  lemma ClusterWorkerStep(w: World, a: Action)
    requires Inv(w) && ClusterAction(a)
    ensures Inv(ClusterNext(w, a))
  {
    match a
    case CStart(pick) => StartStep(w, pick);
    case CStep(x, i, r) => InteractionStep(w, x, i, r);
    case _ => CrashStep(w);
  }

  /** No action of anyone leaves the invariant. */
  lemma NextInv(w: World, a: Action)
    requires Inv(w)
    ensures Inv(Next(w, a))
  {
    if ClusterAction(a) {
      ClusterWorkerStep(w, a);
    } else if FinalizerAction(a) {
      FinalizerStep(w, a);
    } else if RecordAction(a) {
      RecordStep(w, a);
    } else if PodAction(a) {
      PodStep(w, a);
    } else {
      EnvironmentStep(w, a);
    }
  }

  /** The invariant holds after every run from a fresh or an adopted cluster. */
  lemma {:induction false} RunInv(w: World, actions: seq<Action>)
    requires Init(w)
    ensures Inv(Run(w, actions))
  {
    if actions == [] {
      InitInv(w);
    } else {
      RunInv(w, actions[..|actions| - 1]);
      NextInv(Run(w, actions[..|actions| - 1]), actions[|actions| - 1]);
    }
  }
}
