/**
 * More of what every run keeps about the records: who carries a finalizer, who is
 * registered in etcd, who may be Ready, and what lies beside a dormant member.
 */
module MembershipRecords {
  import opened Base
  import opened Membership
  import opened MembershipInvariant
  import opened MembershipPreservation
  import opened MembershipWorker

  /** A Terminating record still has its finalizer, and only a member that etcd once listed is Ready. */
  ghost predicate Regular(m: Member) {
    (m.deleting ==> m.finalizer) && (m.ready ==> m.memberID.Some?)
  }

  ghost predicate AllRegular(mem: Listing) {
    forall n :: n in mem ==> Regular(mem[n])
  }

  /** A dormant member has no record beside it, Terminating or not. */
  ghost predicate SleepsAlone(mem: Listing, c: Ctl) {
    && (forall d :: d in DormantIn(mem) ==> mem.Keys == {d})
    && (c.Park? ==> forall m :: m in mem ==> m == c.survivor)
  }

  /** The cluster ID is latched or about to be. */
  predicate Forming(st: Status, c: Ctl) {
    st.clusterID.Some? || (c.WriteStatus? && c.st.clusterID.Some?)
  }

  /** Once the cluster forms, every active member with a flag is in etcd's list. */
  ghost predicate Listed(mem: Listing, list: EntryList) {
    forall n :: n in Active(mem) && mem[n].initialCluster != {} ==> Registered(list, n)
  }

  ghost predicate PatchListed(c: Ctl, mem: Listing, list: EntryList) {
    c.JoinPatch? && c.patchee in Active(mem) ==> Registered(list, c.patchee)
  }

  /** The seed under discovery has its flag and is the only active member. */
  ghost predicate TargetOnly(c: Ctl, mem: Listing) {
    c.Discover? ==> forall n :: n in Active(mem) ==> n == c.target && mem[n].initialCluster != {}
  }

  /** A seed of a formed cluster has its flag. */
  ghost predicate Flagged(mem: Listing) {
    forall n :: n in Active(mem) && mem[n].bootstrap ==> mem[n].initialCluster != {}
  }

  ghost predicate StatusSane(st: Status) {
    (st.observed.Some? ==> st.token != "") && (st.clusterID.Some? ==> st.observed.Some?)
  }

  ghost predicate Sane(w: World) {
    && StatusSane(w.cl.status)
    && AllRegular(w.api.mem)
    && SleepsAlone(w.api.mem, w.cw.ctl)
    && (Forming(w.cl.status, w.cw.ctl) ==> Listed(w.api.mem, w.etcd.list) && Flagged(w.api.mem))
    && PatchListed(w.cw.ctl, w.api.mem, w.etcd.list)
    && TargetOnly(w.cw.ctl, w.api.mem)
  }

  lemma InitSane(w: World)
    requires Init(w)
    ensures Sane(w)
  {
    if AdoptedStart(w) {
      assert DormantIn(w.api.mem) == {};
      forall n | n in w.api.mem ensures Registered(w.etcd.list, n) {
        assert w.api.mem[n].memberID.value in w.etcd.list;
      }
    }
  }

  // ---- Users and member workers ----

  /** Records may go, become Terminating or change in fields that do not matter here. */
  ghost predicate Tamer(mem: Listing, mem': Listing) {
    forall n :: n in mem' ==>
      && n in mem && Regular(mem'[n])
      && mem'[n].initialCluster == mem[n].initialCluster && mem'[n].dormant == mem[n].dormant
      && mem'[n].bootstrap == mem[n].bootstrap
      && (mem[n].deleting ==> mem'[n].deleting)
  }

  /** Active members keep their entries. */
  ghost predicate KeepsActive(mem: Listing, list: EntryList, list': EntryList) {
    forall n :: n in Active(mem) && Registered(list, n) ==> Registered(list', n)
  }

  lemma TamerSane(w: World, v: World)
    requires Sane(w) && Tamer(w.api.mem, v.api.mem) && KeepsActive(w.api.mem, w.etcd.list, v.etcd.list)
    requires v.cl.status == w.cl.status && (v.cw.ctl == w.cw.ctl || v.cw.ctl == Idle)
    ensures Sane(v)
  {
    forall d | d in DormantIn(v.api.mem) ensures v.api.mem.Keys == {d} {
      assert d in DormantIn(w.api.mem);
      assert forall n :: n in v.api.mem ==> n in w.api.mem.Keys;
    }
    forall n | n in Active(v.api.mem) ensures n in Active(w.api.mem) {}
  }

  lemma WriteTamer(w: World, a: Action)
    requires AllRegular(w.api.mem) && RecordAction(a)
    ensures Tamer(w.api.mem, MemberWrite(w, a).api.mem)
  {
  }

  lemma OthersTamer(w: World, a: Action)
    requires AllRegular(w.api.mem) && !ClusterAction(a) && !FinalizerAction(a)
    ensures Tamer(w.api.mem, Next(w, a).api.mem)
  {
    if RecordAction(a) {
      WriteTamer(w, a);
    } else if !a.ExtDelete? {
      assert Next(w, a).api.mem == w.api.mem;
    }
  }

  lemma OthersFrame(w: World, a: Action)
    requires !ClusterAction(a)
    ensures Next(w, a).cw == w.cw && Next(w, a).cl.status == w.cl.status
    ensures !FinalizerAction(a) && !a.EtcdForm? ==> Next(w, a).etcd == w.etcd
  {
  }

  lemma ReleaseTamer(w: World, n: Name)
    requires AllRegular(w.api.mem)
    ensures Tamer(w.api.mem, FinRelease(w, n).api.mem) && FinRelease(w, n).etcd == w.etcd
  {
  }

  lemma RemoveKeeps(w: World, n: Name, r: Reply)
    requires Finalizers(w.api.mem, w.etcd, w.mw.ctl)
    ensures FinRemove(w, n, r).api == w.api
    ensures KeepsActive(w.api.mem, w.etcd.list, FinRemove(w, n, r).etcd.list)
  {
    var v := FinRemove(w, n, r);
    forall m | m in Active(w.api.mem) && Registered(w.etcd.list, m) ensures Registered(v.etcd.list, m) {
      var i :| i in w.etcd.list && w.etcd.list[i].owner == m;
      assert i in v.etcd.list;
    }
  }

  lemma FinalizerTamer(w: World, a: Action)
    requires AllRegular(w.api.mem) && FinalizerAction(a) && Finalizers(w.api.mem, w.etcd, w.mw.ctl)
    ensures Tamer(w.api.mem, FinalizerNext(w, a).api.mem)
    ensures KeepsActive(w.api.mem, w.etcd.list, FinalizerNext(w, a).etcd.list)
  {
    match a
    case MFinRemove(n, r) => RemoveKeeps(w, n, r);
    case MFinRelease(n) => ReleaseTamer(w, n);
    case _ =>
  }

  lemma FormSane(w: World, n: Name, restored: EtcdAuth)
    requires Inv(w) && Sane(w)
    ensures Sane(Form(w, n, restored))
  {
    var v := Form(w, n, restored);
    if v.etcd != w.etcd {
      assert w.cl.status.clusterID.None?;
      assert v.etcd.list[w.etcd.nextId].owner == n;
      forall m | m in Active(w.api.mem) ensures m == n {
        assert w.api.mem[m].bootstrap;
      }
    }
  }

  lemma OthersSane(w: World, a: Action)
    requires Inv(w) && Sane(w) && !ClusterAction(a)
    ensures Sane(Next(w, a))
  {
    OthersFrame(w, a);
    if a.EtcdForm? {
      FormSane(w, a.n, a.restored);
    } else {
      if FinalizerAction(a) {
        FinalizerTamer(w, a);
      } else {
        OthersTamer(w, a);
      }
      TamerSane(w, Next(w, a));
    }
  }

  // ---- The cluster worker ----

  lemma ParkAlone(s: Snap, pick: Name)
    requires s.status.observed.Some? && !Terminating(s.list) && Dormancy(s.list)
    ensures DecideScaleDown(s, pick).Park? ==> forall m :: m in s.list ==> m == pick
  {
    if DecideScaleDown(s, pick).Park? {
      RunningAwake(s.list, pick);
      Singleton(Running(s.list), pick);
      forall m | m in s.list ensures m == pick {
        assert m in Active(s.list);
        assert m !in DormantIn(s.list);
      }
    }
  }

  lemma StartSane(w: World, pick: Name)
    requires Inv(w) && Sane(w)
    ensures Sane(ClusterStart(w, pick))
  {
    if w.cw.ctl == Idle && !w.cl.deleting {
      var c := Decide(Reads(w), pick);
      StartPoint(Reads(w), pick);
      if c.Discover? {
        assert w.api.mem[c.target].initialCluster != {};
        forall n | n in Active(w.api.mem) ensures n == c.target {
          assert w.api.mem[n].bootstrap && w.api.mem[c.target].bootstrap;
        }
      }
    }
  }

  lemma StartPoint(s: Snap, pick: Name)
    requires Dormancy(s.list)
    ensures var c := Decide(s, pick);
            && (c.WriteStatus? ==> c.st.clusterID == s.status.clusterID)
            && (c.Park? ==> forall m :: m in s.list ==> m == c.survivor)
            && !c.JoinPatch?
            && (c.Discover? ==>
                  c.target in SeedsIn(s.list) && s.status.clusterID.None? && s.list[c.target].initialCluster != {})
  {
    if s.status.observed.Some? && !Terminating(s.list) {
      ParkAlone(s, pick);
    }
  }

  /** A new record is regular, active and without a flag. */
  lemma CreateSane(w: World, v: World, x: Name, bootstrap: bool)
    requires Sane(w) && x !in w.api.mem && DormantIn(w.api.mem) == {} && (bootstrap ==> w.cl.status.clusterID.None?)
    requires v.api.mem == w.api.mem[x := NewMember(w.api.stamp, bootstrap)] && v.etcd.list == w.etcd.list
    requires v.cl.status == w.cl.status && !v.cw.ctl.Park? && !v.cw.ctl.JoinPatch? && !v.cw.ctl.WriteStatus? && !v.cw.ctl.Discover?
    ensures Sane(v)
  {
    assert forall d :: d !in DormantIn(w.api.mem);
    assert DormantIn(v.api.mem) == {};
  }

  lemma SeedCreateSane(w: World, x: Name, i: Id)
    requires Inv(w) && Sane(w) && w.cw.ctl.SeedCreate?
    ensures Sane(ClusterOk(w, x, i))
  {
    assert DormantIn(w.api.mem) == {};
    if x !in w.api.used {
      CreateSane(w, ClusterOk(w, x, i), x, true);
    }
  }

  lemma JoinCreateSane(w: World, x: Name, i: Id)
    requires Inv(w) && Sane(w) && w.cw.ctl.JoinCreate?
    ensures Sane(ClusterOk(w, x, i))
  {
    if x !in w.api.used {
      CreateSane(w, ClusterOk(w, x, i), x, false);
    }
  }

  lemma FlagSane(w: World, v: World, n: Name, ic: set<Name>)
    requires Sane(w) && v.api == SetInitialCluster(w.api, n, ic) && v.etcd.list == w.etcd.list
    requires v.cl.status == w.cl.status && v.cw.ctl == Idle
    requires w.cl.status.clusterID.Some? && n in Active(w.api.mem) ==> Registered(w.etcd.list, n) && ic != {}
    ensures Sane(v)
  {
    assert v.api.mem.Keys == w.api.mem.Keys;
    assert DormantIn(v.api.mem) == DormantIn(w.api.mem) && Active(v.api.mem) == Active(w.api.mem);
  }

  lemma PatchSane(w: World, x: Name, i: Id)
    requires Inv(w) && Sane(w) && (w.cw.ctl.SeedPatch? || w.cw.ctl.JoinPatch?)
    ensures Sane(ClusterOk(w, x, i))
  {
    match w.cw.ctl
    case SeedPatch(n) => FlagSane(w, ClusterOk(w, x, i), n, {n});
    case JoinPatch(n, ic) => FlagSane(w, ClusterOk(w, x, i), n, ic);
  }

  lemma DormantFrame(api: Records, n: Name, dormant: bool)
    ensures var mem' := SetDormant(api, n, dormant).mem;
            && mem'.Keys == api.mem.Keys && Active(mem') == Active(api.mem)
            && (AllRegular(api.mem) ==> AllRegular(mem'))
            && (forall m :: m in api.mem ==>
                  mem'[m].initialCluster == api.mem[m].initialCluster && mem'[m].bootstrap == api.mem[m].bootstrap)
            && (forall d :: d in DormantIn(mem') ==> d in DormantIn(api.mem) || (d == n && dormant))
  {
  }

  lemma SleepSane(w: World, x: Name, i: Id)
    requires Inv(w) && Sane(w) && (w.cw.ctl.Wake? || w.cw.ctl.Park?)
    ensures Sane(ClusterOk(w, x, i))
  {
    var c := w.cw.ctl;
    var v := ClusterOk(w, x, i);
    DormantFrame(w.api, if c.Park? then c.survivor else c.sleeper, c.Park?);
    forall d | d in DormantIn(v.api.mem) ensures v.api.mem.Keys == {d} {
      assert forall m :: m in w.api.mem.Keys ==> m in v.api.mem.Keys;
    }
  }

  lemma EtcdSane(w: World, x: Name, i: Id)
    requires Inv(w) && Sane(w) && (w.cw.ctl.JoinAdd? || w.cw.ctl.Promote?)
    ensures Sane(ClusterOk(w, x, i))
  {
    var v := ClusterOk(w, x, i);
    forall n | Registered(w.etcd.list, n) ensures Registered(v.etcd.list, n) {
      var j :| j in w.etcd.list && w.etcd.list[j].owner == n;
      if w.cw.ctl.JoinAdd? {
        assert j != w.etcd.nextId;
      }
      assert j in v.etcd.list && v.etcd.list[j].owner == n;
    }
    if w.cw.ctl.JoinAdd? {
      assert v.etcd.list[w.etcd.nextId].owner == w.cw.ctl.joiner;
    }
  }

  lemma DiscoverSane(w: World, x: Name, i: Id)
    requires Inv(w) && Sane(w) && w.cw.ctl.Discover?
    ensures Sane(ClusterOk(w, x, i))
  {
    var n := w.cw.ctl.target;
    if |w.etcd.list| == 1 && Owners(w.etcd.list) == {n} {
      assert n in Owners(w.etcd.list);
    }
  }

  predicate QuietPoint(c: Ctl) {
    || c.Idle? || c.WriteStatus? || c.JoinList? || c.ScaleDelete? || c.SteadyList? || c.Finish?
    || c.AuthProbe? || c.AuthUser? || c.AuthGrant? || c.AuthEnable? || c.AuthLatch?
  }

  /** Points whose success changes no flag, no dormancy and no entry. */
  lemma QuietFrame(w: World, x: Name, i: Id)
    requires QuietPoint(w.cw.ctl) && AllRegular(w.api.mem)
    ensures var v := ClusterOk(w, x, i);
            && Tamer(w.api.mem, v.api.mem) && v.etcd.list == w.etcd.list
            && (Forming(v.cl.status, v.cw.ctl) ==> Forming(w.cl.status, w.cw.ctl))
            && !v.cw.ctl.Park? && !v.cw.ctl.Discover? && !v.cw.ctl.WriteStatus?
            && (v.cw.ctl.JoinPatch? ==> Registered(w.etcd.list, v.cw.ctl.patchee))
  {
  }

  lemma StatusStaysSane(w: World, x: Name, i: Id)
    requires SnapInv(w.cl, w.now, w.cw) && CtlInv(w.cw.ctl, w.cw.snap, w.api, w.etcd) && StatusSane(w.cl.status)
    ensures StatusSane(ClusterOk(w, x, i).cl.status)
  {
  }

  lemma QuietSane(w: World, x: Name, i: Id)
    requires Inv(w) && Sane(w) && QuietPoint(w.cw.ctl)
    ensures Sane(ClusterOk(w, x, i))
  {
    var v := ClusterOk(w, x, i);
    QuietFrame(w, x, i);
    StatusStaysSane(w, x, i);
    forall d | d in DormantIn(v.api.mem) ensures v.api.mem.Keys == {d} {
      assert d in DormantIn(w.api.mem);
      assert forall n :: n in v.api.mem ==> n in w.api.mem.Keys;
    }
    forall n | n in Active(v.api.mem) ensures n in Active(w.api.mem) {}
  }

  lemma OkSane(w: World, x: Name, i: Id)
    requires Inv(w) && Sane(w)
    ensures Sane(ClusterOk(w, x, i))
  {
    match w.cw.ctl
    case SeedCreate => SeedCreateSane(w, x, i);
    case JoinCreate => JoinCreateSane(w, x, i);
    case SeedPatch(_) => PatchSane(w, x, i);
    case JoinPatch(_, _) => PatchSane(w, x, i);
    case Wake(_) => SleepSane(w, x, i);
    case Park(_) => SleepSane(w, x, i);
    case JoinAdd(_) => EtcdSane(w, x, i);
    case Promote(_, _) => EtcdSane(w, x, i);
    case Discover(_) => DiscoverSane(w, x, i);
    case _ => QuietSane(w, x, i);
  }

  lemma FailFrame(w: World, r: Reply)
    ensures var v := ClusterFail(w, r);
            && v.api == w.api && v.etcd == w.etcd && v.cl == w.cl
            && !v.cw.ctl.Park? && !v.cw.ctl.Discover? && !v.cw.ctl.WriteStatus? && !v.cw.ctl.JoinPatch?
  {
  }

  lemma ClusterSane(w: World, a: Action)
    requires Inv(w) && Sane(w) && ClusterAction(a)
    ensures Sane(ClusterNext(w, a))
  {
    if a.CStart? {
      StartSane(w, a.pick);
    } else if a.CStep? {
      if a.r == Ok {
        OkSane(w, a.x, a.i);
      } else {
        FailFrame(w, a.r);
      }
    } else {
      TamerSane(w, At(w, Idle));
    }
  }

  lemma NextSane(w: World, a: Action)
    requires Inv(w) && Sane(w)
    ensures Sane(Next(w, a))
  {
    if ClusterAction(a) {
      ClusterSane(w, a);
    } else {
      OthersSane(w, a);
    }
  }

  /** It holds from any state that has it on, and so in every run. */
  lemma {:induction false} StaysSane(w: World, actions: seq<Action>)
    requires Inv(w) && Sane(w)
    ensures Inv(Run(w, actions)) && Sane(Run(w, actions))
  {
    if actions != [] {
      var front := actions[..|actions| - 1];
      StaysSane(w, front);
      NextSane(Run(w, front), actions[|actions| - 1]);
      NextInv(Run(w, front), actions[|actions| - 1]);
    }
  }

  lemma RunSane(w: World, actions: seq<Action>)
    requires Init(w)
    ensures Inv(Run(w, actions)) && Sane(Run(w, actions))
  {
    InitInv(w);
    InitSane(w);
    StaysSane(w, actions);
  }
}
