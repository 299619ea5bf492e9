/**
 * What etcd holds when a finalizer is dropped, in terms of the stores alone: in
 * every run that respects the guard on deletions, a member released beside
 * another one is no longer in etcd's list.
 */
module MembershipRelease {
  import opened Base
  import opened Membership
  import opened MembershipInvariant
  import opened MembershipPreservation
  import opened MembershipWorker
  import opened MembershipRecords
  import opened MembershipGhosts

  // ---- The invariant ----

  /** While the worker may still create a record, there is an active one, or etcd knows none of those left. */
  ghost predicate Manned(cw: ClusterWorker, mem: Listing, list: EntryList, ctl: map<Name, MCtl>) {
    StillCreates(cw, list, ctl) ==> Active(mem) != {} || !HasVoter(mem, list)
  }

  /** Whoever is let go as the last member still is, or is not in etcd. */
  ghost predicate AloneStill(mem: Listing, list: EntryList, ctl: map<Name, MCtl>) {
    forall n :: n in ctl && ctl[n] == MRelease(Alone) ==> Others(mem, n) == {} || !Registered(list, n)
  }

  /** The seed under discovery was not let go beside another one. */
  ghost predicate TargetAlone(c: Ctl, mem: Listing, ctl: map<Name, MCtl>) {
    c.Discover? && c.target in ctl && ctl[c.target] == MRelease(Alone) ==> Others(mem, c.target) == {}
  }

  ghost predicate CauseHolds(deleting: bool, ctl: map<Name, MCtl>) {
    forall n :: n in ctl && ctl[n] == MRelease(ClusterGone) ==> deleting
  }

  ghost predicate Unstranded(w: World) {
    && Manned(w.cw, w.api.mem, w.etcd.list, w.mw.ctl)
    && (!w.cl.deleting && Forming(w.cl.status, w.cw.ctl) ==> AloneStill(w.api.mem, w.etcd.list, w.mw.ctl))
    && TargetAlone(w.cw.ctl, w.api.mem, w.mw.ctl)
    && CauseHolds(w.cl.deleting, w.mw.ctl)
  }

  // ---- Steps that take records, entries or labels away ----

  ghost predicate FewerActive(mem: Listing, mem': Listing) {
    Active(mem') <= Active(mem) && forall n :: n in mem' ==> n in mem
  }

  ghost predicate FewerOwners(list: EntryList, list': EntryList) {
    forall i :: i in list' ==> i in list && list'[i] == list[i]
  }

  lemma FewerAlone(mem: Listing, mem': Listing, list: EntryList, list': EntryList, ctl: map<Name, MCtl>)
    requires AloneStill(mem, list, ctl) && FewerActive(mem, mem') && FewerOwners(list, list')
    ensures AloneStill(mem', list', ctl)
  {
    forall n | n in ctl && ctl[n] == MRelease(Alone) ensures Others(mem', n) == {} || !Registered(list', n) {
      assert Others(mem', n) <= Others(mem, n);
      assert Registered(list', n) ==> Registered(list, n);
    }
  }

  lemma FewerTarget(c: Ctl, mem: Listing, mem': Listing, ctl: map<Name, MCtl>)
    requires TargetAlone(c, mem, ctl) && FewerActive(mem, mem')
    ensures TargetAlone(c, mem', ctl)
  {
    if c.Discover? {
      assert Others(mem', c.target) <= Others(mem, c.target);
    }
  }

  /** No label changes to one that matters here. */
  ghost predicate FewerLabels(ctl: map<Name, MCtl>, ctl': map<Name, MCtl>) {
    forall n :: n in ctl' && (ctl'[n].MRelease? || ctl'[n].MResolve? || ctl'[n].MRemove?) ==> n in ctl && ctl'[n] == ctl[n]
  }

  lemma FewerManned(cw: ClusterWorker, mem: Listing, mem': Listing, list: EntryList, ctl: map<Name, MCtl>, ctl': map<Name, MCtl>)
    requires Manned(cw, mem, list, ctl) && FewerActive(mem, mem') && FewerLabels(ctl, ctl')
    requires Active(mem') == {} ==> Active(mem) == {} || !HasVoter(mem', list) || !StillCreates(cw, list, ctl)
    ensures Manned(cw, mem', list, ctl')
  {
    if StillCreates(cw, list, ctl') {
      assert StillCreates(cw, list, ctl);
      assert HasVoter(mem', list) ==> HasVoter(mem, list);
    }
  }

  /** A step of a user or a member worker that leaves etcd and the cluster object alone. */
  lemma FewerUnstranded(w: World, v: World)
    requires Unstranded(w) && v.cw == w.cw && v.cl.status == w.cl.status && (w.cl.deleting ==> v.cl.deleting)
    requires v.etcd.list == w.etcd.list && FewerActive(w.api.mem, v.api.mem) && FewerLabels(w.mw.ctl, v.mw.ctl)
    requires Active(v.api.mem) == {} ==> Active(w.api.mem) == {} || !HasVoter(v.api.mem, w.etcd.list)
                                         || !StillCreates(w.cw, w.etcd.list, w.mw.ctl)
    ensures Unstranded(v)
  {
    FewerManned(w.cw, w.api.mem, v.api.mem, w.etcd.list, w.mw.ctl, v.mw.ctl);
    FewerTarget(w.cw.ctl, w.api.mem, v.api.mem, w.mw.ctl);
    if !v.cl.deleting && Forming(v.cl.status, v.cw.ctl) {
      FewerAlone(w.api.mem, v.api.mem, w.etcd.list, w.etcd.list, w.mw.ctl);
      assert AloneStill(v.api.mem, v.etcd.list, v.mw.ctl);
    }
  }

  lemma DeleteFewer(w: World, n: Name)
    requires Allowed(w, ExtDelete(n))
    ensures var v := EnvironmentNext(w, ExtDelete(n));
            && FewerActive(w.api.mem, v.api.mem)
            && (Active(v.api.mem) == {} ==> Active(w.api.mem) == {} || !HasVoter(v.api.mem, w.etcd.list)
                                            || !StillCreates(w.cw, w.etcd.list, w.mw.ctl))
  {
    var v := EnvironmentNext(w, ExtDelete(n));
    assert Active(v.api.mem) == Active(w.api.mem) - {n};
    if Active(v.api.mem) == {} && Active(w.api.mem) != {} {
      assert Active(w.api.mem) == {n};
    }
  }

  lemma RecordFewer(w: World, a: Action)
    requires RecordAction(a)
    ensures Active(MemberWrite(w, a).api.mem) == Active(w.api.mem) && MemberWrite(w, a).api.mem.Keys == w.api.mem.Keys
  {
  }

  lemma OthersUnstranded(w: World, a: Action)
    requires Unstranded(w) && Allowed(w, a) && !ClusterAction(a) && !FinalizerAction(a) && !a.EtcdForm?
    ensures Unstranded(Next(w, a))
  {
    if a.ExtDelete? {
      DeleteFewer(w, a.n);
    } else if RecordAction(a) {
      RecordFewer(w, a);
    }
    FewerUnstranded(w, Next(w, a));
  }

  // ---- Finalizers ----

  lemma StartUnstranded(w: World, n: Name)
    requires Unstranded(w)
    ensures Unstranded(FinStart(w, n))
  {
    var v := FinStart(w, n);
    if v.mw.ctl != w.mw.ctl {
      if Others(w.api.mem, n) != {} {
        var o :| o in Others(w.api.mem, n);
        assert o in Active(w.api.mem);
      }
      if StillCreates(v.cw, v.etcd.list, v.mw.ctl) && Others(w.api.mem, n) == {} {
        assert StillCreates(w.cw, w.etcd.list, w.mw.ctl);
      }
    }
  }

  lemma ResolveLabels(w: World, n: Name, i: Id)
    requires Finalizers(w.api.mem, w.etcd, w.mw.ctl)
    ensures var v := FinResolve(w, n, i);
            && (StillCreates(v.cw, v.etcd.list, v.mw.ctl) ==> StillCreates(w.cw, w.etcd.list, w.mw.ctl))
            && (forall m :: m in v.mw.ctl && v.mw.ctl[m].MRelease? && v.mw.ctl[m].cause != Gone ==>
                  m in w.mw.ctl && w.mw.ctl[m] == v.mw.ctl[m])
            && v.api == w.api && v.etcd == w.etcd && v.cl == w.cl && v.cw == w.cw
  {
  }

  lemma ResolveUnstranded(w: World, n: Name, i: Id)
    requires Unstranded(w) && Finalizers(w.api.mem, w.etcd, w.mw.ctl)
    ensures Unstranded(FinResolve(w, n, i))
  {
    ResolveLabels(w, n, i);
  }

  lemma RemoveLabels(w: World, n: Name, r: Reply)
    requires Finalizers(w.api.mem, w.etcd, w.mw.ctl)
    ensures var v := FinRemove(w, n, r);
            && (StillCreates(v.cw, v.etcd.list, v.mw.ctl) ==> StillCreates(w.cw, w.etcd.list, w.mw.ctl))
            && (forall m :: m in v.mw.ctl && v.mw.ctl[m].MRelease? && v.mw.ctl[m].cause != Gone ==>
                  m in w.mw.ctl && w.mw.ctl[m] == v.mw.ctl[m])
            && v.api == w.api && v.cl == w.cl && v.cw == w.cw && FewerOwners(w.etcd.list, v.etcd.list)
  {
    var v := FinRemove(w, n, r);
    if StillCreates(v.cw, v.etcd.list, v.mw.ctl) && !v.cw.ctl.JoinCreate? {
      forall i | i in Learners(w.etcd.list) ensures Leaving(w.mw.ctl, w.etcd.list[i].owner, i) {
        if i in v.etcd.list {
          assert i in Learners(v.etcd.list);
          assert Leaving(v.mw.ctl, v.etcd.list[i].owner, i);
        }
      }
    }
  }

  lemma RemoveUnstranded(w: World, n: Name, r: Reply)
    requires Unstranded(w) && Finalizers(w.api.mem, w.etcd, w.mw.ctl)
    ensures Unstranded(FinRemove(w, n, r))
  {
    var v := FinRemove(w, n, r);
    RemoveLabels(w, n, r);
    assert HasVoter(v.api.mem, v.etcd.list) ==> HasVoter(w.api.mem, w.etcd.list);
    if !v.cl.deleting && Forming(v.cl.status, v.cw.ctl) {
      FewerAlone(w.api.mem, v.api.mem, w.etcd.list, v.etcd.list, w.mw.ctl);
    }
  }

  lemma ReleaseUnstranded(w: World, n: Name)
    requires Unstranded(w) && Finalizers(w.api.mem, w.etcd, w.mw.ctl)
    ensures Unstranded(FinRelease(w, n))
  {
    var v := FinRelease(w, n);
    if v.mw.ctl != w.mw.ctl {
      assert Active(v.api.mem) == Active(w.api.mem);
    }
    FewerUnstranded(w, v);
  }

  lemma FinalizerUnstranded(w: World, a: Action)
    requires Unstranded(w) && Finalizers(w.api.mem, w.etcd, w.mw.ctl) && FinalizerAction(a)
    ensures Unstranded(FinalizerNext(w, a))
  {
    match a
    case MFinStart(n) => StartUnstranded(w, n);
    case MFinResolve(n, i) => ResolveUnstranded(w, n, i);
    case MFinRemove(n, r) => RemoveUnstranded(w, n, r);
    case MFinRelease(n) => ReleaseUnstranded(w, n);
    case _ => FewerUnstranded(w, FinalizerNext(w, a));
  }

  // ---- etcd forms ----

  lemma FormUnstranded(w: World, n: Name, restored: EtcdAuth)
    requires Inv(w) && Unstranded(w)
    ensures Unstranded(Form(w, n, restored))
  {
    var v := Form(w, n, restored);
    if v.etcd != w.etcd {
      assert !StillCreates(v.cw, v.etcd.list, v.mw.ctl);
      forall m | m in v.mw.ctl && v.mw.ctl[m] == MRelease(Alone) ensures !Registered(v.etcd.list, m) {
        assert w.api.mem[m].deleting;
      }
    }
  }

  // ---- The cluster worker ----

  lemma StartsUnstranded(w: World, pick: Name)
    requires Inv(w) && Unstranded(w)
    ensures Unstranded(ClusterStart(w, pick))
  {
    var v := ClusterStart(w, pick);
    if v.cw != w.cw {
      StartStep(w, pick);
      StartForming(Reads(w), pick);
      if StillCreates(v.cw, v.etcd.list, v.mw.ctl) {
        assert !Terminating(w.api.mem);
        assert forall m :: m in w.api.mem ==> m in Active(w.api.mem);
      }
      if v.cw.ctl.Discover? {
        assert v.cw.ctl.target in SeedsIn(w.api.mem);
      }
    }
  }

  lemma StartForming(s: Snap, pick: Name)
    ensures Decide(s, pick).WriteStatus? ==> Decide(s, pick).st.clusterID == s.status.clusterID
    ensures Decide(s, pick).Discover? ==> Decide(s, pick).target in SeedsIn(s.list)
  {
  }

  lemma RegisteredVotes(mem: Listing, list: EntryList, n: Name)
    requires Learners(list) == {} && n in mem
    ensures Registered(list, n) ==> HasVoter(mem, list)
  {
    if Registered(list, n) {
      var j :| j in list && list[j].owner == n;
      assert j !in Learners(list);
      assert j in Voters(list);
    }
  }

  lemma JoinCreateUnstranded(w: World, x: Name, i: Id)
    requires Inv(w) && Unstranded(w) && w.cw.ctl.JoinCreate?
    ensures Unstranded(ClusterOk(w, x, i))
  {
    var v := ClusterOk(w, x, i);
    forall n | n in v.mw.ctl && v.mw.ctl[n] == MRelease(Alone) && !v.cl.deleting
      ensures !Registered(v.etcd.list, n)
    {
      assert n in w.api.mem && w.api.mem[n].deleting;
      RegisteredVotes(w.api.mem, w.etcd.list, n);
      assert Others(w.api.mem, n) == Active(w.api.mem);
    }
  }

  lemma JoinAddUnstranded(w: World, x: Name, i: Id)
    requires Inv(w) && Unstranded(w) && GhostFree(w) && w.cw.ctl.JoinAdd?
    ensures Unstranded(ClusterOk(w, x, i))
  {
    var v, p := ClusterOk(w, x, i), w.cw.ctl.joiner;
    assert Holds(w.cw, p);
    forall n | n in v.mw.ctl && v.mw.ctl[n] == MRelease(Alone)
      ensures Others(v.api.mem, n) == {} || (Registered(v.etcd.list, n) ==> Registered(w.etcd.list, n))
    {
      assert w.api.mem[n].deleting;
    }
  }

  lemma DiscoverUnstranded(w: World, x: Name, i: Id)
    requires Inv(w) && Unstranded(w) && w.cw.ctl.Discover?
    ensures Unstranded(ClusterOk(w, x, i))
  {
    var t := w.cw.ctl.target;
    if Owners(w.etcd.list) == {t} {
      forall n | Registered(w.etcd.list, n) ensures n == t {
        assert n in Owners(w.etcd.list);
      }
    }
  }

  predicate PlainPoint(c: Ctl) {
    !c.JoinCreate? && !c.JoinAdd? && !c.Discover? && !c.SeedCreate?
  }

  lemma PlainSame(w: World, x: Name, i: Id)
    requires PlainPoint(w.cw.ctl)
    ensures var v := ClusterOk(w, x, i);
            && FewerActive(w.api.mem, v.api.mem) && v.mw == w.mw && v.cl.deleting == w.cl.deleting
            && (v.etcd.list == w.etcd.list || w.cw.ctl.Promote?)
            && Owners(v.etcd.list) == Owners(w.etcd.list)
            && !v.cw.ctl.Discover?
            && (Forming(v.cl.status, v.cw.ctl) ==> Forming(w.cl.status, w.cw.ctl))
  {
    var v := ClusterOk(w, x, i);
    if w.cw.ctl.Promote? {
      var id := w.cw.ctl.learner;
      if id in w.etcd.list {
        assert forall j :: j in w.etcd.list <==> j in v.etcd.list;
        assert forall j :: j in w.etcd.list ==> v.etcd.list[j].owner == w.etcd.list[j].owner;
      }
    }
  }

  lemma PlainCreates(w: World, x: Name, i: Id)
    requires PlainPoint(w.cw.ctl)
    ensures var v := ClusterOk(w, x, i);
            StillCreates(v.cw, v.etcd.list, v.mw.ctl) ==>
              StillCreates(w.cw, w.etcd.list, w.mw.ctl) && v.api == w.api && v.etcd == w.etcd
  {
  }

  lemma PlainUnstranded(w: World, x: Name, i: Id)
    requires Unstranded(w) && PlainPoint(w.cw.ctl)
    ensures Unstranded(ClusterOk(w, x, i))
  {
    var v := ClusterOk(w, x, i);
    PlainSame(w, x, i);
    PlainCreates(w, x, i);
    forall n ensures Registered(v.etcd.list, n) ==> Registered(w.etcd.list, n) {
      assert Registered(v.etcd.list, n) ==> n in Owners(v.etcd.list);
    }
    forall n ensures Others(v.api.mem, n) <= Others(w.api.mem, n) {}
  }

  lemma SeedCreateUnstranded(w: World, x: Name, i: Id)
    requires Inv(w) && Unstranded(w) && w.cw.ctl.SeedCreate?
    ensures Unstranded(ClusterOk(w, x, i))
  {
  }

  lemma OkUnstranded(w: World, x: Name, i: Id)
    requires Inv(w) && Unstranded(w) && GhostFree(w)
    ensures Unstranded(ClusterOk(w, x, i))
  {
    match w.cw.ctl
    case SeedCreate => SeedCreateUnstranded(w, x, i);
    case JoinCreate => JoinCreateUnstranded(w, x, i);
    case JoinAdd(_) => JoinAddUnstranded(w, x, i);
    case Discover(_) => DiscoverUnstranded(w, x, i);
    case _ => PlainUnstranded(w, x, i);
  }

  lemma FailUnstranded(w: World, r: Reply)
    requires Unstranded(w)
    ensures Unstranded(ClusterFail(w, r))
  {
    FailFrame(w, r);
    FailCreates(w, r);
  }

  lemma FailCreates(w: World, r: Reply)
    ensures ClusterFail(w, r).mw == w.mw && !StillCreates(ClusterFail(w, r).cw, w.etcd.list, w.mw.ctl)
  {
  }

  lemma ClusterUnstranded(w: World, a: Action)
    requires Inv(w) && Unstranded(w) && GhostFree(w) && ClusterAction(a)
    ensures Unstranded(ClusterNext(w, a))
  {
    if a.CStart? {
      StartsUnstranded(w, a.pick);
    } else if a.CStep? {
      if a.r == Ok {
        OkUnstranded(w, a.x, a.i);
      } else {
        FailUnstranded(w, a.r);
      }
    }
  }

  lemma StepUnstranded(w: World, a: Action)
    requires Inv(w) && Unstranded(w) && GhostFree(w) && Allowed(w, a)
    ensures Unstranded(Next(w, a))
  {
    if ClusterAction(a) {
      ClusterUnstranded(w, a);
    } else if FinalizerAction(a) {
      FinalizerUnstranded(w, a);
    } else if a.EtcdForm? {
      FormUnstranded(w, a.n, a.restored);
    } else {
      OthersUnstranded(w, a);
    }
  }

  lemma {:induction false} GuardedUnstranded(w: World, actions: seq<Action>)
    requires Init(w) && Guarded(w, actions)
    ensures Unstranded(Run(w, actions))
  {
    if actions != [] {
      var front := actions[..|actions| - 1];
      GuardedUnstranded(w, front);
      GuardedRun(w, front);
      StepUnstranded(Run(w, front), actions[|actions| - 1]);
    }
  }

  /**
   * No ghosts.  In every run whose deletions respect the guard, a finalizer of a live,
   * formed cluster that is dropped while another member is active leaves no entry in etcd.
   */
  lemma ReleasedWithoutGhost(w: World, actions: seq<Action>, n: Name)
    requires Init(w) && Guarded(w, actions)
    ensures !BadRelease(Run(w, actions), n)
  {
    GuardedRun(w, actions);
    GuardedUnstranded(w, actions);
    NoBadRelease(Run(w, actions), n);
  }

  lemma NoBadRelease(v: World, n: Name)
    requires GhostFree(v) && Unstranded(v)
    ensures !BadRelease(v, n)
  {
    if n in v.api.mem && n !in Next(v, MFinRelease(n)).api.mem {
      assert n in v.mw.ctl && v.mw.ctl[n].MRelease?;
      match v.mw.ctl[n].cause
      case Gone => assert !Registered(v.etcd.list, n);
      case Alone =>
      case ClusterGone => assert v.cl.deleting;
    }
  }
}
