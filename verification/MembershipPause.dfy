/**
 * Runs in which members are deleted only by the operator's own scale-down:
 * etcd's member list never holds a stranger, and a pause finds it reduced to
 * the surviving member.
 */
module MembershipPause {
  import opened Base
  import opened Membership
  import opened MembershipInvariant
  import opened MembershipPreservation
  import opened MembershipWorker
  import opened MembershipRecords
  import opened MembershipGhosts

  /** Nobody deletes but scale-down, which finds the finalizer in place. */
  predicate OperatorOnly(w: World, a: Action) {
    && !a.ExtDelete? && !a.DeleteCluster?
    && (a.CStep? && w.cw.ctl.ScaleDelete? && w.cw.ctl.victim in w.api.mem ==> w.api.mem[w.cw.ctl.victim].finalizer)
  }

  ghost predicate OperatorRun(w: World, actions: seq<Action>) {
    actions == [] ||
    (OperatorRun(w, actions[..|actions| - 1]) && OperatorOnly(Run(w, actions[..|actions| - 1]), actions[|actions| - 1]))
  }

  /** The eldest record, which is never deleted. */
  ghost predicate IsRoot(mem: Listing, s: Name) {
    s in mem && !mem[s].deleting && forall n :: n in mem ==> mem[s].created <= mem[n].created
  }

  ghost predicate Anchor(mem: Listing, list: EntryList, s: Name, i: Id) {
    IsRoot(mem, s) && i in list && list[i] == Entry(s, false)
  }

  ghost predicate Anchored(mem: Listing, list: EntryList) {
    exists s, i :: Anchor(mem, list, s, i)
  }

  ghost predicate Owned(mem: Listing, list: EntryList) {
    forall i :: i in list ==> list[i].owner in mem
  }

  ghost predicate Rooted(mem: Listing) {
    mem != map[] ==> exists s :: IsRoot(mem, s)
  }

  ghost predicate PointInv(c: Ctl, mem: Listing) {
    match c
    case ScaleDelete(n) => n in mem && !mem[n].deleting && !IsRoot(mem, n)
    case Park(n) => mem.Keys == {n}
    case _ => true
  }

  /** Nothing is deleted before the cluster has formed, so there is only the seed. */
  ghost predicate SeedOnly(st: Status, mem: Listing) {
    st.clusterID.None? ==> forall n, m :: n in mem && m in mem ==> n == m && !mem[n].deleting
  }

  ghost predicate OnlyGone(ctl: map<Name, MCtl>) {
    forall n :: n in ctl && ctl[n].MRelease? ==> ctl[n].cause == Gone
  }

  ghost predicate Kin(w: World) {
    && !w.cl.deleting && GhostFree(w)
    && Owned(w.api.mem, w.etcd.list) && Rooted(w.api.mem)
    && (Forming(w.cl.status, w.cw.ctl) ==> Anchored(w.api.mem, w.etcd.list))
    && PointInv(w.cw.ctl, w.api.mem) && SeedOnly(w.cl.status, w.api.mem) && OnlyGone(w.mw.ctl)
  }

  /** A member being registered has a record. */
  ghost predicate HeldHas(cw: ClusterWorker, mem: Listing) {
    forall n :: Holds(cw, n) ==> n in mem
  }

  // ---- Initial states ----

  lemma EldestExists(mem: Listing, names: set<Name>) returns (s: Name)
    requires names != {} && forall n :: n in names ==> n in mem
    ensures s in names && forall n :: n in names ==> mem[s].created <= mem[n].created
    decreases names
  {
    s :| s in names;
    if names != {s} {
      var t := EldestExists(mem, names - {s});
      if mem[t].created < mem[s].created {
        s := t;
      }
    }
  }

  lemma InitKin(w: World)
    requires Init(w)
    ensures Kin(w)
  {
    if AdoptedStart(w) {
      assert w.api.mem.Keys != {};
      var s := EldestExists(w.api.mem, w.api.mem.Keys);
      assert IsRoot(w.api.mem, s);
      assert Anchor(w.api.mem, w.etcd.list, s, w.api.mem[s].memberID.value);
    }
  }

  // ---- Records that stay put ----

  /** Same records, still not deleted more than before. */
  ghost predicate SameRecords(mem: Listing, mem': Listing) {
    && mem'.Keys == mem.Keys
    && (forall n :: n in mem ==> mem'[n].created == mem[n].created && mem'[n].deleting == mem[n].deleting)
  }

  lemma SameKin(w: World, v: World)
    requires Kin(w) && SameRecords(w.api.mem, v.api.mem) && v.etcd.list == w.etcd.list
    requires !v.cl.deleting && GhostFree(v) && OnlyGone(v.mw.ctl)
    requires v.cl.status.clusterID == w.cl.status.clusterID
    requires v.cw.ctl == w.cw.ctl || (!v.cw.ctl.ScaleDelete? && !v.cw.ctl.Park? && !v.cw.ctl.WriteStatus?)
    ensures Kin(v)
  {
    forall s | s in w.api.mem ensures IsRoot(v.api.mem, s) <==> IsRoot(w.api.mem, s) {}
    if Anchored(w.api.mem, w.etcd.list) {
      var s: Name, i: Id :| Anchor(w.api.mem, w.etcd.list, s, i);
      assert Anchor(v.api.mem, v.etcd.list, s, i);
    }
    if w.api.mem != map[] {
      var s :| IsRoot(w.api.mem, s);
      assert IsRoot(v.api.mem, s);
    }
  }

  // ---- Everyone but the cluster worker ----

  lemma FormKin(w: World, n: Name, restored: EtcdAuth)
    requires Inv(w) && Kin(w)
    ensures Kin(Form(w, n, restored))
  {
    CleanForm(w, n, restored);
  }

  /** A record under deletion is not the root, so the root's finalizer never runs and the root is always listed. */
  lemma DeletingNotRoot(mem: Listing, n: Name)
    requires Rooted(mem) && n in mem && mem[n].deleting
    ensures Others(mem, n) != {} && !IsRoot(mem, n)
  {
    assert mem.Keys != {};
    var s :| IsRoot(mem, s);
    assert s in Others(mem, n);
  }

  lemma FinStartGone(w: World, n: Name)
    requires Kin(w)
    ensures OnlyGone(FinStart(w, n).mw.ctl)
  {
    if n in w.api.mem && w.api.mem[n].deleting {
      DeletingNotRoot(w.api.mem, n);
    }
  }

  lemma FinFrame(w: World, n: Name, i: Id)
    ensures var v := FinStart(w, n); v.api == w.api && v.etcd == w.etcd && v.cw == w.cw && v.cl == w.cl
    ensures var v := FinResolve(w, n, i); v.api == w.api && v.etcd == w.etcd && v.cw == w.cw && v.cl == w.cl
    ensures OnlyGone(w.mw.ctl) ==> OnlyGone(FinResolve(w, n, i).mw.ctl)
  {
  }

  lemma FinStartKin(w: World, n: Name)
    requires Inv(w) && Kin(w)
    ensures Kin(FinStart(w, n))
  {
    FinStartGone(w, n);
    FinFrame(w, n, 0);
    CleanStart(w, n);
    SameKin(w, FinStart(w, n));
  }

  lemma ResolveFree(w: World, n: Name, i: Id)
    requires Inv(w) && GhostFree(w)
    ensures GhostFree(FinResolve(w, n, i))
  {
    GhostFreeStep(w, MFinResolve(n, i));
    assert Next(w, MFinResolve(n, i)) == FinResolve(w, n, i);
  }

  lemma FinResolveKin(w: World, n: Name, i: Id)
    requires Inv(w) && Kin(w)
    ensures Kin(FinResolve(w, n, i))
  {
    FinFrame(w, n, i);
    ResolveFree(w, n, i);
    SameKin(w, FinResolve(w, n, i));
  }

  lemma AnchorSurvives(mem: Listing, list: EntryList, mem': Listing, list': EntryList)
    requires Anchored(mem, list)
    requires forall s :: IsRoot(mem, s) ==> IsRoot(mem', s)
    requires forall i :: i in list && !list[i].learner && IsRoot(mem, list[i].owner) ==> i in list' && list'[i] == list[i]
    ensures Anchored(mem', list')
  {
    var s: Name, i: Id :| Anchor(mem, list, s, i);
    assert Anchor(mem', list', s, i);
  }

  lemma RemoveFrame(w: World, n: Name, r: Reply)
    requires OnlyGone(w.mw.ctl)
    ensures var v := FinRemove(w, n, r);
            && v.api == w.api && v.cl == w.cl && v.cw == w.cw && OnlyGone(v.mw.ctl)
            && forall i :: i in v.etcd.list ==> i in w.etcd.list && v.etcd.list[i] == w.etcd.list[i]
  {
  }

  lemma RemoveAnchored(w: World, n: Name, r: Reply)
    requires Finalizers(w.api.mem, w.etcd, w.mw.ctl) && Rooted(w.api.mem) && Anchored(w.api.mem, w.etcd.list)
    ensures Anchored(w.api.mem, FinRemove(w, n, r).etcd.list)
  {
    var v := FinRemove(w, n, r);
    if v.etcd != w.etcd {
      assert w.api.mem[n].deleting;
      DeletingNotRoot(w.api.mem, n);
      AnchorSurvives(w.api.mem, w.etcd.list, w.api.mem, v.etcd.list);
    }
  }

  /** Only entries and labels go. */
  lemma FewerKin(w: World, v: World)
    requires Kin(w) && v.api == w.api && v.cl == w.cl && v.cw == w.cw && GhostFree(v) && OnlyGone(v.mw.ctl)
    requires forall i :: i in v.etcd.list ==> i in w.etcd.list && v.etcd.list[i] == w.etcd.list[i]
    requires Forming(w.cl.status, w.cw.ctl) ==> Anchored(v.api.mem, v.etcd.list)
    ensures Kin(v)
  {
  }

  lemma RemoveFree(w: World, n: Name, r: Reply)
    requires Inv(w) && GhostFree(w)
    ensures GhostFree(FinRemove(w, n, r))
  {
    GhostFreeStep(w, MFinRemove(n, r));
    assert Next(w, MFinRemove(n, r)) == FinRemove(w, n, r);
  }

  lemma FinRemoveKin(w: World, n: Name, r: Reply)
    requires Inv(w) && Kin(w)
    ensures Kin(FinRemove(w, n, r))
  {
    RemoveFrame(w, n, r);
    RemoveFree(w, n, r);
    if Forming(w.cl.status, w.cw.ctl) {
      RemoveAnchored(w, n, r);
    }
    FewerKin(w, FinRemove(w, n, r));
  }

  /** Dropping a record that is not the root leaves the root in place. */
  lemma DropRoot(mem: Listing, n: Name)
    requires Rooted(mem) && n in mem && mem[n].deleting
    ensures forall s :: IsRoot(mem, s) ==> IsRoot(mem - {n}, s)
    ensures Rooted(mem - {n})
  {
    DeletingNotRoot(mem, n);
    assert mem.Keys != {};
    var s :| IsRoot(mem, s);
    assert IsRoot(mem - {n}, s);
  }

  lemma DropPoint(c: Ctl, api: Records, n: Name)
    requires Names(api) && Rooted(api.mem) && PointInv(c, api.mem) && n in api.mem && api.mem[n].deleting
    ensures PointInv(c, api.mem - {n})
  {
    DeletingNotRoot(api.mem, n);
    var s :| IsRoot(api.mem, s);
    assert s in api.mem - {n};
  }

  lemma DropFrame(w: World, n: Name)
    requires n in w.mw.ctl && w.mw.ctl[n] == MRelease(Gone) && GhostFree(w) && n in w.api.mem && w.api.mem[n].deleting
    ensures GhostFree(FinRelease(w, n))
    ensures Owned(w.api.mem, w.etcd.list) ==> Owned(w.api.mem - {n}, w.etcd.list)
  {
    assert forall i :: i in w.etcd.list ==> w.etcd.list[i].owner != n;
  }

  lemma FinReleaseKin(w: World, n: Name)
    requires Inv(w) && Kin(w)
    ensures Kin(FinRelease(w, n))
  {
    if n in w.mw.ctl && w.mw.ctl[n].MRelease? {
      DropFrame(w, n);
      DropRoot(w.api.mem, n);
      DropPoint(w.cw.ctl, w.api, n);
      if Forming(w.cl.status, w.cw.ctl) {
        AnchorSurvives(w.api.mem, w.etcd.list, w.api.mem - {n}, w.etcd.list);
      }
    }
  }

  lemma FinalizerKin(w: World, a: Action)
    requires Inv(w) && Kin(w)
    ensures Kin(FinalizerNext(w, a))
  {
    match a
    case MFinStart(n) => FinStartKin(w, n);
    case MFinResolve(n, i) => FinResolveKin(w, n, i);
    case MFinRemove(n, r) => FinRemoveKin(w, n, r);
    case MFinRelease(n) => FinReleaseKin(w, n);
    case MCrash(n) => SameKin(w, FinalizerNext(w, a));
    case _ =>
  }

  lemma OtherKin(w: World, a: Action)
    requires Inv(w) && Kin(w) && OperatorOnly(w, a)
    requires !ClusterAction(a) && !FinalizerAction(a) && !a.EtcdForm?
    ensures Kin(Next(w, a))
  {
    var v := Next(w, a);
    HeldOthers(w, a);
    CleanOthers(w, a);
    OtherSame(w, a);
    SameKin(w, v);
  }

  lemma OtherSame(w: World, a: Action)
    requires !ClusterAction(a) && !FinalizerAction(a) && !a.EtcdForm? && !a.ExtDelete? && !a.DeleteCluster?
    requires OnlyGone(w.mw.ctl)
    ensures var v := Next(w, a);
            && SameRecords(w.api.mem, v.api.mem) && v.etcd == w.etcd && v.cw == w.cw && v.cl.status == w.cl.status
            && v.cl.deleting == w.cl.deleting && OnlyGone(v.mw.ctl)
  {
    if RecordAction(a) {
    } else if PodAction(a) {
    } else {
      assert Next(w, a) == EnvironmentNext(w, a);
    }
  }

  // ---- The cluster worker ----

  /** Newest and eldest at once: the only one. */
  lemma RootVictim(api: Records, pick: Name)
    requires Names(api) && IsVictim(api.mem, pick) && IsRoot(api.mem, pick)
    ensures Running(api.mem) == {pick}
  {
    assert forall n :: n in Running(api.mem) ==> Newer(api.mem, pick, n);
  }

  lemma VictimNotRoot(s: Snap, api: Records, pick: Name)
    requires s.list == api.mem && Names(api) && Dormancy(api.mem) && !Terminating(api.mem) && s.status.observed.Some?
    requires |Running(api.mem)| > s.status.observed.value.replicas
    ensures PointInv(DecideScaleDown(s, pick), api.mem)
  {
    if IsVictim(s.list, pick) {
      RunningAwake(api.mem, pick);
      assert forall n :: n in api.mem ==> n in Active(api.mem);
      if |Running(api.mem)| == 1 {
        Singleton(Running(api.mem), pick);
        assert api.mem.Keys == {pick};
      } else if IsRoot(api.mem, pick) {
        RootVictim(api, pick);
      }
    }
  }

  lemma StartPoint(s: Snap, api: Records, pick: Name)
    requires s.list == api.mem && Names(api) && Dormancy(api.mem)
    ensures PointInv(Decide(s, pick), api.mem)
    ensures Decide(s, pick).WriteStatus? ==> Decide(s, pick).st.clusterID == s.status.clusterID
  {
    if s.status.observed.Some? && !Terminating(s.list) && |Running(s.list)| > s.status.observed.value.replicas {
      VictimNotRoot(s, api, pick);
    }
  }

  lemma StartKin(w: World, pick: Name)
    requires Inv(w) && Kin(w)
    ensures Kin(ClusterStart(w, pick))
  {
    if w.cw.ctl == Idle {
      StartPoint(Reads(w), w.api, pick);
      HeldCluster(w, CStart(pick));
    }
  }

  lemma OkFree(w: World, x: Name, i: Id)
    requires Inv(w) && GhostFree(w)
    ensures GhostFree(ClusterOk(w, x, i))
  {
    GhostFreeStep(w, CStep(x, i, Ok));
    assert Next(w, CStep(x, i, Ok)) == ClusterOk(w, x, i);
  }

  lemma SeedCreateKin(w: World, x: Name, i: Id)
    requires Inv(w) && Kin(w) && w.cw.ctl.SeedCreate?
    ensures Kin(ClusterOk(w, x, i))
  {
    assert w.api.mem == map[] by {
      assert forall s :: IsRoot(w.api.mem, s) ==> s in Active(w.api.mem);
    }
    OkFree(w, x, i);
    if x !in w.api.used {
      var mem' := CreateRecord(w.api, x, true).mem;
      assert mem'.Keys == {x};
      assert IsRoot(mem', x);
    }
  }

  lemma CreateKeepsRoots(api: Records, x: Name)
    requires Names(api) && x !in api.used
    ensures forall s :: IsRoot(api.mem, s) ==> IsRoot(CreateRecord(api, x, false).mem, s)
  {
  }

  lemma CreateAnchored(api: Records, list: EntryList, x: Name)
    requires Names(api) && x !in api.used && Anchored(api.mem, list) && Owned(api.mem, list)
    ensures var mem' := CreateRecord(api, x, false).mem; Anchored(mem', list) && Owned(mem', list) && Rooted(mem')
  {
    var mem' := CreateRecord(api, x, false).mem;
    CreateKeepsRoots(api, x);
    AnchorSurvives(api.mem, list, mem', list);
    var s: Name, j: Id :| Anchor(mem', list, s, j);
  }

  lemma JoinCreateKin(w: World, x: Name, i: Id)
    requires Inv(w) && Kin(w) && w.cw.ctl.JoinCreate?
    ensures Kin(ClusterOk(w, x, i))
  {
    OkFree(w, x, i);
    if x !in w.api.used {
      CreateAnchored(w.api, w.etcd.list, x);
    }
  }

  lemma DiscoverKin(w: World, x: Name, i: Id)
    requires Inv(w) && Kin(w) && w.cw.ctl.Discover?
    ensures Kin(ClusterOk(w, x, i))
  {
    OkFree(w, x, i);
    var n := w.cw.ctl.target;
    if |w.etcd.list| == 1 && Owners(w.etcd.list) == {n} {
      assert n in Owners(w.etcd.list);
      var j :| j in w.etcd.list && w.etcd.list[j].owner == n;
      assert j !in Learners(w.etcd.list);
      assert w.api.mem.Keys != {};
      var s :| IsRoot(w.api.mem, s);
      assert s == n;
      assert Anchor(w.api.mem, w.etcd.list, s, j);
    }
  }

  lemma AddAnchored(mem: Listing, etcd: Etcd, n: Name)
    requires Anchored(mem, etcd.list) && Owned(mem, etcd.list) && n in mem && forall i :: i in etcd.list ==> i < etcd.nextId
    ensures Anchored(mem, AddLearner(etcd, n).list) && Owned(mem, AddLearner(etcd, n).list)
  {
    AnchorSurvives(mem, etcd.list, mem, AddLearner(etcd, n).list);
  }

  lemma JoinAddKin(w: World, x: Name, i: Id)
    requires Inv(w) && Kin(w) && HeldHas(w.cw, w.api.mem) && w.cw.ctl.JoinAdd?
    ensures Kin(ClusterOk(w, x, i))
  {
    var n := w.cw.ctl.joiner;
    assert Holds(w.cw, n);
    OkFree(w, x, i);
    AddAnchored(w.api.mem, w.etcd, n);
  }

  lemma PromoteKin(w: World, x: Name, i: Id)
    requires Inv(w) && Kin(w) && w.cw.ctl.Promote?
    ensures Kin(ClusterOk(w, x, i))
  {
    OkFree(w, x, i);
    AnchorSurvives(w.api.mem, w.etcd.list, w.api.mem, PromoteLearner(w.etcd, w.cw.ctl.learner).list);
  }

  lemma ScaleDeleteRoot(w: World, n: Name)
    requires Kin(w) && w.cw.ctl == ScaleDelete(n) && w.api.mem[n].finalizer && w.cl.status.clusterID.Some?
    ensures var mem' := DeleteRecord(w.api, n).mem;
            Anchored(mem', w.etcd.list) && Owned(mem', w.etcd.list) && Rooted(mem')
  {
    var mem' := DeleteRecord(w.api, n).mem;
    forall s | IsRoot(w.api.mem, s) ensures IsRoot(mem', s) {}
    AnchorSurvives(w.api.mem, w.etcd.list, mem', w.etcd.list);
    var s: Name, j: Id :| Anchor(mem', w.etcd.list, s, j);
  }

  lemma ScaleDeleteKin(w: World, x: Name, i: Id)
    requires Inv(w) && Kin(w) && w.cw.ctl.ScaleDelete? && w.api.mem[w.cw.ctl.victim].finalizer
    ensures Kin(ClusterOk(w, x, i))
  {
    OkFree(w, x, i);
    ScaleDeleteRoot(w, w.cw.ctl.victim);
    assert ClusterOk(w, x, i) == At(w.(api := DeleteRecord(w.api, w.cw.ctl.victim)), Idle);
  }

  lemma WriteStatusKin(w: World, x: Name, i: Id)
    requires Inv(w) && Kin(w) && w.cw.ctl.WriteStatus?
    ensures Kin(ClusterOk(w, x, i))
  {
    OkFree(w, x, i);
  }

  predicate RestPoint(c: Ctl) {
    !c.SeedCreate? && !c.JoinCreate? && !c.Discover? && !c.JoinAdd? && !c.Promote? && !c.ScaleDelete? && !c.WriteStatus?
  }

  lemma RestRecords(w: World, x: Name, i: Id)
    requires RestPoint(w.cw.ctl)
    ensures var v := ClusterOk(w, x, i); SameRecords(w.api.mem, v.api.mem) && v.etcd.list == w.etcd.list && v.mw == w.mw
  {
  }

  lemma RestSame(w: World, x: Name, i: Id)
    requires RestPoint(w.cw.ctl)
    ensures var v := ClusterOk(w, x, i);
            && SameRecords(w.api.mem, v.api.mem) && v.etcd.list == w.etcd.list && v.mw == w.mw
            && v.cl.deleting == w.cl.deleting && v.cl.status.clusterID == w.cl.status.clusterID
            && (v.cw.ctl == w.cw.ctl || (!v.cw.ctl.ScaleDelete? && !v.cw.ctl.Park? && !v.cw.ctl.WriteStatus?))
  {
    RestRecords(w, x, i);
  }

  lemma RestKin(w: World, x: Name, i: Id)
    requires Inv(w) && Kin(w) && RestPoint(w.cw.ctl)
    ensures Kin(ClusterOk(w, x, i))
  {
    RestSame(w, x, i);
    OkFree(w, x, i);
    SameKin(w, ClusterOk(w, x, i));
  }

  lemma FailKin(w: World, r: Reply)
    requires Inv(w) && Kin(w) && r != Ok
    ensures Kin(ClusterFail(w, r))
  {
    FailSame(w, r);
    HeldCluster(w, CStep("", 0, r));
    SameKin(w, ClusterFail(w, r));
  }

  lemma FailSame(w: World, r: Reply)
    ensures var v := ClusterFail(w, r);
            && v.api == w.api && v.etcd == w.etcd && v.mw == w.mw && v.cl == w.cl
            && !v.cw.ctl.ScaleDelete? && !v.cw.ctl.Park? && !v.cw.ctl.WriteStatus?
  {
  }

  lemma OkKin(w: World, x: Name, i: Id)
    requires Inv(w) && Kin(w) && HeldHas(w.cw, w.api.mem)
    requires w.cw.ctl.ScaleDelete? ==> w.api.mem[w.cw.ctl.victim].finalizer
    ensures Kin(ClusterOk(w, x, i))
  {
    match w.cw.ctl
    case SeedCreate => SeedCreateKin(w, x, i);
    case JoinCreate => JoinCreateKin(w, x, i);
    case Discover(_) => DiscoverKin(w, x, i);
    case JoinAdd(_) => JoinAddKin(w, x, i);
    case Promote(_, _) => PromoteKin(w, x, i);
    case ScaleDelete(_) => ScaleDeleteKin(w, x, i);
    case WriteStatus(_, _) => WriteStatusKin(w, x, i);
    case _ => RestKin(w, x, i);
  }

  lemma CrashKin(w: World)
    requires Inv(w) && Kin(w)
    ensures Kin(At(w, Idle))
  {
    HeldCluster(w, CCrash);
    SameKin(w, At(w, Idle));
  }

  lemma ClusterKin(w: World, a: Action)
    requires Inv(w) && Kin(w) && HeldHas(w.cw, w.api.mem) && ClusterAction(a) && OperatorOnly(w, a)
    ensures Kin(ClusterNext(w, a))
  {
    if a.CStart? {
      StartKin(w, a.pick);
    } else if a.CCrash? {
      CrashKin(w);
    } else if a.r == Ok {
      OkKin(w, a.x, a.i);
    } else {
      FailKin(w, a.r);
    }
  }

  lemma HasRelease(w: World, n: Name)
    requires GhostFree(w) && OnlyGone(w.mw.ctl) && HeldHas(w.cw, w.api.mem) && Finalizers(w.api.mem, w.etcd, w.mw.ctl)
    ensures HeldHas(w.cw, FinRelease(w, n).api.mem)
  {
    if Holds(w.cw, n) {
      assert HeldSafely(w.api.mem, w.mw.ctl, n);
    }
  }

  lemma OthersHave(w: World, a: Action, n: Name)
    requires n in w.api.mem && !ClusterAction(a) && !a.ExtDelete? && !a.MFinRelease?
    ensures n in Next(w, a).api.mem && Next(w, a).cw == w.cw
  {
  }

  lemma HasStep(w: World, a: Action)
    requires Inv(w) && Kin(w) && HeldHas(w.cw, w.api.mem) && OperatorOnly(w, a)
    ensures HeldHas(Next(w, a).cw, Next(w, a).api.mem)
  {
    if ClusterAction(a) {
      var v := ClusterNext(w, a);
      forall n | Holds(v.cw, n) ensures n in v.api.mem {
        HoldsAfter(w, a, n);
      }
    } else if a.MFinRelease? {
      HasRelease(w, a.n);
      WorkersApart(w, a);
    } else {
      WorkersApart(w, a);
      forall n | Holds(w.cw, n) ensures n in Next(w, a).api.mem {
        OthersHave(w, a, n);
      }
    }
  }

  lemma KinStep(w: World, a: Action)
    requires Inv(w) && Kin(w) && HeldHas(w.cw, w.api.mem) && OperatorOnly(w, a)
    ensures Kin(Next(w, a))
  {
    if ClusterAction(a) {
      ClusterKin(w, a);
    } else if FinalizerAction(a) {
      FinalizerKin(w, a);
    } else if a.EtcdForm? {
      FormKin(w, a.n, a.restored);
    } else {
      OtherKin(w, a);
    }
  }

  lemma {:induction false} OperatorRunKin(w: World, actions: seq<Action>)
    requires Init(w) && OperatorRun(w, actions)
    ensures Inv(Run(w, actions)) && Kin(Run(w, actions)) && HeldHas(Run(w, actions).cw, Run(w, actions).api.mem)
  {
    RunInv(w, actions);
    if actions == [] {
      InitKin(w);
    } else {
      var front, a := actions[..|actions| - 1], actions[|actions| - 1];
      OperatorRunKin(w, front);
      KinStep(Run(w, front), a);
      HasStep(Run(w, front), a);
    }
  }

  /** etcd never lists a member without a record, and a formed cluster keeps its eldest member as an active voter. */
  lemma NoStrangers(w: World, actions: seq<Action>)
    requires Init(w) && OperatorRun(w, actions)
    ensures var v := Run(w, actions);
            && (forall i :: i in v.etcd.list ==> v.etcd.list[i].owner in v.api.mem)
            && (v.cl.status.clusterID.Some? ==> exists s, i :: Anchor(v.api.mem, v.etcd.list, s, i))
  {
    OperatorRunKin(w, actions);
  }

  /** When the pause fires, etcd's member list is exactly the surviving member, a voter. */
  lemma PauseFindsSurvivor(w: World, actions: seq<Action>, n: Name)
    requires Init(w) && OperatorRun(w, actions) && Run(w, actions).cw.ctl == Park(n)
    ensures var v := Run(w, actions);
            && v.api.mem.Keys == {n}
            && exists i :: v.etcd.list == map[i := Entry(n, false)]
  {
    OperatorRunKin(w, actions);
    Survivor(Run(w, actions).api, Run(w, actions).etcd, n);
  }

  lemma Survivor(api: Records, etcd: Etcd, n: Name)
    requires api.mem.Keys == {n} && Owned(api.mem, etcd.list) && Anchored(api.mem, etcd.list) && Entries(api.used, etcd)
    ensures exists i :: etcd.list == map[i := Entry(n, false)]
  {
    var s: Name, i: Id :| Anchor(api.mem, etcd.list, s, i);
    assert s in api.mem.Keys;
    assert forall j :: j in etcd.list ==> etcd.list[j].owner in api.mem.Keys;
    assert forall j :: j in etcd.list ==> j == i;
    assert etcd.list == map[i := Entry(n, false)];
  }

  /** With a learner present, scale-down removes that learner and never a voter. */
  lemma ScaleDownNeverTakesVoter(w: World, actions: seq<Action>, i: Id)
    requires Init(w) && OperatorRun(w, actions)
    requires Run(w, actions).cw.ctl.ScaleDelete? && i in Learners(Run(w, actions).etcd.list)
    ensures Run(w, actions).cw.ctl.victim == Run(w, actions).etcd.list[i].owner
  {
    OperatorRunKin(w, actions);
    var v := Run(w, actions);
    var o, n := v.etcd.list[i].owner, v.cw.ctl.victim;
    assert Newest(v.api.mem, o);
    assert v.api.mem[o].created <= v.api.mem[n].created;
  }
}
