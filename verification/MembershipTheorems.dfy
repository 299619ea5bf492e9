/** What the protocol promises in every run, whoever deletes what and wherever workers are cut off. */
module MembershipTheorems {
  import opened Base
  import opened Membership
  import opened MembershipInvariant
  import opened MembershipWorker

  lemma AtMostOne<T>(a: set<T>)
    requires forall x, y :: x in a && y in a ==> x == y
    ensures |a| <= 1
  {
    if a != {} {
      var x :| x in a;
      assert a == {x};
    }
  }

  // ---- Scale-up ----

  /** In every run: one half-made record at most, one learner at most, every peer URL registered once. */
  lemma ScaleUpSafe(w: World, actions: seq<Action>)
    requires Init(w)
    ensures var v := Run(w, actions);
            && |set n | n in v.api.mem && Pending(v.api.mem[n])| <= 1
            && |Learners(v.etcd.list)| <= 1
            && (forall i, j :: i in v.etcd.list && j in v.etcd.list && i != j ==> v.etcd.list[i].owner != v.etcd.list[j].owner)
  {
    RunInv(w, actions);
    var v := Run(w, actions);
    AtMostOne(set n | n in v.api.mem && Pending(v.api.mem[n]));
    AtMostOne(Learners(v.etcd.list));
  }

  /** Only the two create points of the cluster worker assign a name. */
  lemma CreatePoint(w: World, a: Action)
    ensures Next(w, a).api.used != w.api.used ==>
              a.CStep? && a.r == Ok && (w.cw.ctl == SeedCreate || w.cw.ctl == JoinCreate)
  {
  }

  /** A record is created only while nothing is half-made, dormant or a learner. */
  lemma CreatesAlone(w: World, actions: seq<Action>, a: Action)
    requires Init(w)
    requires var v := Run(w, actions); Next(v, a).api.used != v.api.used
    ensures var v := Run(w, actions);
            && NoPending(v.api.mem) && Learners(v.etcd.list) == {} && DormantIn(v.api.mem) == {}
            && (v.cl.status.clusterID.None? ==> Active(v.api.mem) == {})
  {
    RunInv(w, actions);
    var v := Run(w, actions);
    CreatePoint(v, a);
    if v.cw.ctl == SeedCreate {
      assert NoPending(v.api.mem);
      assert DormantIn(v.api.mem) == {};
    }
  }

  // ---- One membership change at a time ----

  /** Neither controller issues a second membership RPC in one reconcile. */
  lemma OneRpcPerReconcile(w: World, actions: seq<Action>)
    requires Init(w)
    ensures Run(w, actions).cw.rpcs <= 1
    ensures forall n :: n in Run(w, actions).mw.rpcs ==> Run(w, actions).mw.rpcs[n] <= 1
  {
    RunInv(w, actions);
  }

  /** The steps by which the cluster worker changes who is a member. */
  predicate ChangesMembership(w: World, a: Action) {
    a.CStep? && (w.cw.ctl.JoinCreate? || w.cw.ctl.JoinAdd? || w.cw.ctl.Promote? || w.cw.ctl.ScaleDelete?
                 || w.cw.ctl.Park? || w.cw.ctl.Wake?)
  }

  /** None of them is taken from a listing that contains a Terminating member. */
  lemma QuietListing(w: World, actions: seq<Action>, a: Action)
    requires Init(w) && ChangesMembership(Run(w, actions), a)
    ensures !Terminating(Run(w, actions).cw.snap.list)
  {
    RunInv(w, actions);
  }

  /** One step changes the voters by one member at most, and adding a learner not at all. */
  lemma VoterStep(w: World, a: Action) returns (x: Id)
    requires Inv(w) && w.cl.status.clusterID.Some?
    ensures var vs, vs' := Voters(w.etcd.list), Voters(Next(w, a).etcd.list);
            vs' == vs || (x !in vs && vs' == vs + {x}) || (x in vs && vs' == vs - {x})
    ensures w.cw.ctl.JoinAdd? && a.CStep? ==> Voters(Next(w, a).etcd.list) == Voters(w.etcd.list)
  {
    var vs := Voters(w.etcd.list);
    x := 0;
    if a.CStep? && w.cw.ctl.Promote? {
      x := w.cw.ctl.learner;
      PromoteVoters(w.etcd, x);
    } else if a.CStep? && w.cw.ctl.JoinAdd? {
      AddVoters(w, w.cw.ctl.joiner);
    } else if a.MFinRemove? && a.n in w.mw.ctl && w.mw.ctl[a.n].MRemove? {
      x := w.mw.ctl[a.n].id;
      RemoveVoters(w, a.n, a.r);
    } else {
      SameEntries(w, a);
    }
  }

  lemma PromoteVoters(etcd: Etcd, x: Id)
    ensures var vs, vs' := Voters(etcd.list), Voters(PromoteLearner(etcd, x).list);
            vs' == vs || (x !in vs && vs' == vs + {x})
  {
    var vs, vs' := Voters(etcd.list), Voters(PromoteLearner(etcd, x).list);
    if x in etcd.list {
      assert vs' == vs + {x};
      assert x in vs ==> vs' == vs;
    }
  }

  lemma AddVoters(w: World, n: Name)
    requires Entries(w.api.used, w.etcd)
    ensures Voters(AddLearner(w.etcd, n).list) == Voters(w.etcd.list)
  {
  }

  lemma RemoveVoters(w: World, n: Name, r: Reply)
    requires n in w.mw.ctl && w.mw.ctl[n].MRemove?
    ensures var vs, vs', x := Voters(w.etcd.list), Voters(FinRemove(w, n, r).etcd.list), w.mw.ctl[n].id;
            vs' == vs || (x in vs && vs' == vs - {x})
  {
    var vs, vs', x := Voters(w.etcd.list), Voters(FinRemove(w, n, r).etcd.list), w.mw.ctl[n].id;
    if FinRemove(w, n, r).etcd.list != w.etcd.list {
      assert vs' == vs - {x};
      assert x !in vs ==> vs' == vs;
    }
  }

  lemma SameEntries(w: World, a: Action)
    requires w.cl.status.clusterID.Some?
    requires !(a.CStep? && (w.cw.ctl.Promote? || w.cw.ctl.JoinAdd?))
    requires !(a.MFinRemove? && a.n in w.mw.ctl && w.mw.ctl[a.n].MRemove?)
    ensures Next(w, a).etcd.list == w.etcd.list
  {
  }

  /** Once the cluster has formed, every majority before a step meets every majority after it. */
  lemma QuorumsOverlap(w: World, actions: seq<Action>, a: Action, q: set<Id>, r: set<Id>)
    requires Init(w) && Run(w, actions).cl.status.clusterID.Some?
    requires Majority(q, Voters(Run(w, actions).etcd.list))
    requires Majority(r, Voters(Next(Run(w, actions), a).etcd.list))
    ensures q * r != {}
  {
    var v := Run(w, actions);
    RunInv(w, actions);
    var x := VoterStep(v, a);
    var vs, vs' := Voters(v.etcd.list), Voters(Next(v, a).etcd.list);
    if vs' == vs {
      CardinalitySplit(q, r);
      SubsetCardinality(q + r, vs);
    } else if x !in vs {
      MajoritiesMeet(vs, x, q, r);
    } else {
      assert vs == vs' + {x};
      MajoritiesMeet(vs', x, r, q);
      assert q * r == r * q;
    }
  }

  // ---- Scale-down, pause and resume ----

  /** A learner whose record is there is the newest member, so the victim of a scale-down is that learner. */
  lemma ScaleDownTakesLearner(w: World, actions: seq<Action>, i: Id)
    requires Init(w)
    requires var v := Run(w, actions);
             && i in Learners(v.etcd.list) && v.etcd.list[i].owner in v.api.mem
    ensures var v := Run(w, actions);
            && Newest(v.api.mem, v.etcd.list[i].owner)
            && (v.cw.ctl.ScaleDelete? && v.cw.ctl.victim in v.api.mem ==>
                  && v.cw.ctl.victim == v.etcd.list[i].owner
                  && forall j :: j in Voters(v.etcd.list) ==> v.etcd.list[j].owner != v.cw.ctl.victim)
  {
    RunInv(w, actions);
    var v := Run(w, actions);
    var o := v.etcd.list[i].owner;
    if v.cw.ctl.ScaleDelete? && v.cw.ctl.victim in v.api.mem {
      var n := v.cw.ctl.victim;
      assert v.api.mem[n].created <= v.api.mem[o].created;
      assert v.api.mem[o].created <= v.api.mem[n].created;
    }
  }

  /** A dormant member is the only active one, and stays so until the cluster worker wakes it. */
  lemma DormantAlone(w: World, actions: seq<Action>, d: Name, a: Action)
    requires Init(w) && d in DormantIn(Run(w, actions).api.mem)
    ensures var v := Run(w, actions);
            && Active(v.api.mem) == {d}
            && Next(v, a).api.used == v.api.used
            && (d in Running(Next(v, a).api.mem) ==> v.cw.ctl == Wake(d))
  {
    RunInv(w, actions);
    var v := Run(w, actions);
    assert d in Active(v.api.mem);
    DormantSteps(v, d, a);
  }

  lemma DormantSteps(w: World, d: Name, a: Action)
    requires Inv(w) && d in DormantIn(w.api.mem)
    ensures Next(w, a).api.used == w.api.used
    ensures d in Running(Next(w, a).api.mem) ==> w.cw.ctl == Wake(d)
  {
    assert d in Active(w.api.mem);
    CreatePoint(w, a);
    WakePoint(w, a, d);
  }

  /** Only the wake point clears a record's dormancy. */
  lemma WakePoint(w: World, a: Action, d: Name)
    requires Names(w.api) && d in w.api.mem && w.api.mem[d].dormant
    ensures d in Next(w, a).api.mem && !Next(w, a).api.mem[d].dormant ==> w.cw.ctl == Wake(d)
  {
    if ClusterAction(a) {
      ClusterWakePoint(w, a, d);
    }
  }

  lemma ClusterWakePoint(w: World, a: Action, d: Name)
    requires d in w.api.used && d in w.api.mem && w.api.mem[d].dormant && ClusterAction(a)
    ensures d in ClusterNext(w, a).api.mem && !ClusterNext(w, a).api.mem[d].dormant ==> w.cw.ctl == Wake(d)
  {
  }

  /** What pause and resume must not lose (see SameIdentity): no step of anyone changes it while the record exists. */
  lemma IdentityKept(w: World, actions: seq<Action>, a: Action, n: Name)
    requires Init(w)
    requires n in Run(w, actions).api.mem && n in Next(Run(w, actions), a).api.mem
    ensures SameIdentity(Run(w, actions).api.mem[n], Next(Run(w, actions), a).api.mem[n])
  {
    RunInv(w, actions);
    RecordKept(Run(w, actions), a, n);
  }

  ghost predicate SameIdentity(m: Member, m': Member) {
    && m'.created == m.created && m'.bootstrap == m.bootstrap
    && (m.initialCluster != {} ==> m'.initialCluster == m.initialCluster)
    && (m.memberID.Some? ==> m'.memberID == m.memberID)
  }

  lemma RecordKept(w: World, a: Action, n: Name)
    requires Inv(w) && n in w.api.mem && n in Next(w, a).api.mem
    ensures SameIdentity(w.api.mem[n], Next(w, a).api.mem[n])
  {
    if ClusterAction(a) {
      assert Names(w.api);
      ClusterKeeps(w.cw.ctl, w, a, n);
    } else {
      OthersKeep(w, a, n);
    }
  }

  lemma OthersKeep(w: World, a: Action, n: Name)
    requires !ClusterAction(a) && n in w.api.mem && n in Next(w, a).api.mem
    ensures SameIdentity(w.api.mem[n], Next(w, a).api.mem[n])
  {
  }

  lemma ClusterKeeps(c: Ctl, w: World, a: Action, n: Name)
    requires ClusterAction(a) && n in w.api.mem && n in ClusterNext(w, a).api.mem && c == w.cw.ctl
    requires CtlInv(c, w.cw.snap, w.api, w.etcd) && n in w.api.used
    ensures SameIdentity(w.api.mem[n], ClusterNext(w, a).api.mem[n])
  {
    match c
    case SeedCreate =>
    case SeedPatch(_) =>
    case JoinCreate =>
    case JoinPatch(_, _) =>
    case Wake(_) =>
    case Park(_) =>
    case ScaleDelete(_) =>
    case _ => assert ClusterNext(w, a).api == w.api;
  }

  // ---- The latches ----

  /** Neither latch of the cluster status is ever cleared or replaced. */
  lemma LatchesHold(w: World, actions: seq<Action>, a: Action)
    requires Init(w)
    ensures var st, st' := Run(w, actions).cl.status, Next(Run(w, actions), a).cl.status;
            && (st.clusterID.Some? ==> st'.clusterID == st.clusterID)
            && (st.authEnabled ==> st'.authEnabled)
  {
    RunInv(w, actions);
    StatusStep(Run(w, actions), a);
  }

  /** Only the cluster worker writes the status, and only at three of its points. */
  lemma StatusStep(w: World, a: Action)
    requires Inv(w)
    ensures var st, st' := w.cl.status, Next(w, a).cl.status;
            st' == st || (a.CStep? && a.r == Ok &&
              match w.cw.ctl
              case WriteStatus(s, gen) => gen == w.cl.gen && st' == s && Legit(s, w.cw.snap) && w.cw.snap.status == st
              case AuthLatch => st' == st.(authEnabled := true)
              case Finish(pending) => st' == st.(deadline := None)
              case _ => false)
  {
  }

  /** At most one active seed in every run; a Pod told to bootstrap is built only for it, before either latch. */
  lemma BootstrapOnce(w: World, actions: seq<Action>, n: Name, parentRead: bool)
    requires Init(w)
    ensures var v := Run(w, actions);
            && |set m | m in Active(v.api.mem) && v.api.mem[m].bootstrap| <= 1
            && var v' := Next(v, MBuildPod(n, parentRead));
               v' != v && v'.mw.ctl[n] == MBuilt(true) ==>
                 && n in Active(v.api.mem) && v.api.mem[n].bootstrap && v.api.mem[n].memberID.None?
                 && (parentRead ==> v.cl.status.clusterID.None?)
  {
    RunInv(w, actions);
    AtMostOne(set m | m in Active(Run(w, actions).api.mem) && Run(w, actions).api.mem[m].bootstrap);
  }

  // ---- The locked target ----

  /**
   * The target changes only at first init, when the listing showed the previous
   * target complete, or after a missed deadline of a formed cluster whose spec
   * differs; and what is adopted is the spec as it stands.
   */
  lemma TargetLocked(w: World, actions: seq<Action>, a: Action)
    requires Init(w)
    requires var v := Run(w, actions); Next(v, a).cl.status.observed != v.cl.status.observed
    ensures var v := Run(w, actions);
            && (|| v.cl.status.observed.None?
                || Complete(v.cl.status, v.cw.snap.list)
                || (Expired(v.cl.status, v.now) && v.cl.status.clusterID.Some?))
            && (v.cl.status.observed.Some? ==> !SpecEqualsObserved(v.cl.spec, v.cl.status.observed))
            && SpecEqualsObserved(Next(v, a).cl.spec, Next(v, a).cl.status.observed)
  {
    RunInv(w, actions);
    var v := Run(w, actions);
    StatusStep(v, a);
    assert v.cw.snap.spec == v.cl.spec;
  }

  /** A cluster that missed its bootstrap deadline, seen between two reconciles. */
  ghost predicate Doomed(w: World) {
    && w.cw.ctl == Idle && w.cl.status.token != "" && w.cl.status.clusterID.None?
    && w.cl.status.observed.Some? && w.cl.status.observed.value.replicas > 0
    && Expired(w.cl.status, w.now)
  }

  /** From then on no reconcile changes the status or creates a member, whatever the spec becomes. */
  lemma {:induction false} BootstrapFailureIsFinal(w: World, actions: seq<Action>)
    requires Doomed(w)
    ensures var v := Run(w, actions);
            Doomed(v) && v.cl.status == w.cl.status && v.api.used == w.api.used
  {
    if actions != [] {
      BootstrapFailureIsFinal(w, actions[..|actions| - 1]);
      DoomedStep(Run(w, actions[..|actions| - 1]), actions[|actions| - 1]);
    }
  }

  lemma DoomedStep(w: World, a: Action)
    requires Doomed(w)
    ensures Doomed(Next(w, a)) && Next(w, a).cl.status == w.cl.status && Next(w, a).api.used == w.api.used
  {
    if a.CStart? {
      assert Decide(Reads(w), a.pick) == Idle;
    }
  }

  // ---- Authentication ----

  /** Auth that the operator turned on has its root user with the root role; the latch follows etcd and a formed cluster. */
  lemma AuthSafe(w: World, actions: seq<Action>)
    requires Init(w)
    ensures var v := Run(w, actions);
            && (v.etcd.auth.byOperator ==> v.etcd.auth.on && v.etcd.auth.rootUser && v.etcd.auth.rootRole)
            && (v.cl.status.authEnabled ==> v.etcd.auth.on && v.cl.status.clusterID.Some?)
            && (v.cw.ctl.Discover? ==> !v.cl.status.authEnabled)
  {
    RunInv(w, actions);
  }
}
