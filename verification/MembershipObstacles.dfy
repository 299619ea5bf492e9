/**
 * What convergence cannot do without: a deadline that has not passed with nothing
 * new to adopt, and Terminating members that can leave.
 */
module MembershipObstacles {
  import opened Base
  import opened Membership
  import opened MembershipInvariant
  import opened MembershipWorker
  import opened MembershipRecords
  import opened MembershipProgress
  import opened MembershipRevival
  import opened MembershipConvergence
  import Races = MembershipRaces
  import Bare = MembershipBare

  // ---- Exactly when ----

  ghost predicate Stuck(w: World) {
    Formed(w) && Frozen(w)
  }

  lemma FrozenIncomplete(w: World)
    requires Stuck(w)
    ensures !Complete(w.cl.status, w.api.mem)
  {
    RunningFlagged(w);
    if PendingIn(w.api.mem) != {} {
      var p :| p in PendingIn(w.api.mem);
      assert p in Running(w.api.mem) && !w.api.mem[p].ready;
    }
  }

  /** The worker reads, and finds nothing to do. */
  lemma FrozenStart(w: World, pick: Name)
    requires Stuck(w)
    ensures ClusterStart(w, pick) == w.(cw := ClusterWorker(Idle, Reads(w), 0))
  {
    FrozenIncomplete(w);
  }

  predicate SameKind(m: Member, m2: Member) {
    && m2.bootstrap == m.bootstrap && m2.deleting == m.deleting && m2.dormant == m.dormant
    && m2.initialCluster == m.initialCluster
  }

  ghost predicate SameShape(mem: Listing, mem': Listing) {
    && (forall n :: n in mem' ==> n in mem && SameKind(mem[n], mem'[n]))
    && (forall n :: n in mem && n !in mem' ==> mem[n].deleting)
  }

  lemma ShapeSets(mem: Listing, mem': Listing)
    requires SameShape(mem, mem')
    ensures Running(mem') == Running(mem) && PendingIn(mem') == PendingIn(mem)
  {
  }

  lemma OthersShape(w: World, a: Action)
    requires !ClusterAction(a) && !UserAction(a) && Finalizers(w.api.mem, w.etcd, w.mw.ctl)
    ensures var v := Next(w, a);
            SameShape(w.api.mem, v.api.mem) && v.cl == w.cl && v.cw == w.cw && v.now >= w.now
  {
  }

  lemma StuckStep(w: World, a: Action)
    requires Stuck(w) && !UserAction(a)
    ensures Stuck(Next(w, a))
  {
    NextInv(w, a);
    NextSane(w, a);
    if ClusterAction(a) {
      if a.CStart? {
        FrozenStart(w, a.pick);
      }
    } else {
      OthersShape(w, a);
      ShapeSets(w.api.mem, Next(w, a).api.mem);
    }
  }

  /** A frozen cluster stays as it is, whatever the workers, the clock and the network do, until a user acts. */
  lemma {:induction false} FrozenForever(w: World, actions: seq<Action>)
    requires Stuck(w) && NoUser(actions)
    ensures Stuck(Run(w, actions)) && !Complete(Run(w, actions).cl.status, Run(w, actions).api.mem)
  {
    if actions != [] {
      var front := actions[..|actions| - 1];
      FrozenForever(w, front);
      StuckStep(Run(w, front), actions[|actions| - 1]);
    }
    FrozenIncomplete(Run(w, actions));
  }

  /**
   * Between two reconciles of a live, formed cluster in which some active member has joined
   * and no removal was forgotten: workers alone can bring it to its spec exactly when the
   * deadline has not passed, or the spec has changed since, or the count is already right.
   */
  lemma ConvergesExactlyUnlessFrozen(w: World)
    requires Formed(w) && Recoverable(w)
    ensures (exists s, v :: Reaches(w, s, v) && Converged(v)) <==> !Frozen(w)
  {
    if Frozen(w) {
      forall s, v | Reaches(w, s, v) ensures !Converged(v) {
        FrozenForever(w, s);
      }
    } else {
      var s, v := Converges(w);
    }
  }

  /** In particular from every state that any run reaches, once the cluster worker has been restarted. */
  lemma ReachedClusterConverges(w: World, actions: seq<Action>) returns (s: seq<Action>, v: World)
    requires Init(w)
    requires var u := Run(w, actions);
             && u.cl.status.clusterID.Some? && !u.cl.deleting && u.cl.spec.deadlineSeconds != Some(0)
             && Recoverable(u) && !Frozen(u)
    ensures Reaches(Next(Run(w, actions), CCrash), s, v) && Converged(v)
  {
    RunSane(w, actions);
    var u := Run(w, actions);
    NextInv(u, CCrash);
    NextSane(u, CCrash);
    SameRecoverable(u, Next(u, CCrash));
    s, v := Converges(Next(u, CCrash));
  }

  // ---- What recovery cannot do without ----

  /** Once nobody is active between two reconciles, nothing brings a formed cluster back but asking for no members. */
  lemma DesertedForever(w: World, actions: seq<Action>)
    requires Inv(w) && w.cw.ctl == Idle && w.cl.status.clusterID.Some? && Active(w.api.mem) == {}
    requires Converged(Run(w, actions))
    ensures SpecReplicas(Run(w, actions).cl.spec) == 0
  {
    Bare.StaysDeserted(w, actions);
    var mem := Run(w, actions).api.mem;
    assert Running(mem) <= Active(mem);
  }

  /** Etcd has dropped the member, and the record that says so was never written. */
  ghost predicate Forgotten(w: World, m: Name) {
    && m in w.api.mem && w.api.mem[m].deleting && w.api.mem[m].memberID.Some?
    && w.api.mem[m].memberID.value !in w.etcd.list && w.api.mem[m].memberID.value < w.etcd.nextId
    && (m in w.mw.ctl ==> w.mw.ctl[m].MBuilt? || w.mw.ctl[m] == MRemove(w.api.mem[m].memberID.value))
    && Others(w.api.mem, m) != {}
  }

  /** Nobody the finalizer could dial will ever have a Pod. */
  ghost predicate Unreachable(w: World, m: Name) {
    && m in w.api.mem && w.api.mem[m].deleting && (m in w.mw.ctl ==> w.mw.ctl[m].MBuilt?)
    && Others(w.api.mem, m) != {}
    && forall n :: n in Active(w.api.mem) ==>
         w.api.mem[n].initialCluster == {} && !w.api.mem[n].pod && n !in w.api.pods && n !in w.mw.ctl
  }

  predicate Ready(st: Status) {
    st.clusterID.Some? && st.token != "" && st.observed.Some?
  }

  ghost predicate HeldUp(w: World, m: Name) {
    && !w.cl.deleting && Ready(w.cl.status)
    && (Forgotten(w, m) || Unreachable(w, m))
    && (w.cw.ctl == Idle || (w.cw.ctl.WriteStatus? && w.cw.ctl.st.observed.Some? && w.cw.ctl.st.token != ""))
    && |Running(w.api.mem)| != SpecReplicas(w.cl.spec)
  }

  ghost predicate Blocked(w: World, m: Name) {
    Inv(w) && HeldUp(w, m)
  }

  lemma SameHeldUp(w: World, v: World, m: Name)
    requires HeldUp(w, m) && v.api == w.api && v.etcd == w.etcd && v.mw == w.mw
    requires v.cl.spec == w.cl.spec && v.cl.deleting == w.cl.deleting && Ready(v.cl.status) && v.cw.ctl == Idle
    ensures HeldUp(v, m)
  {
  }

  lemma BlockedStart(w: World, pick: Name, m: Name)
    requires Blocked(w, m)
    ensures HeldUp(ClusterStart(w, pick), m)
  {
    if w.cw.ctl == Idle {
      assert Terminating(w.api.mem);
      BlockedDecide(Reads(w), pick);
    }
  }

  lemma BlockedDecide(s: Snap, pick: Name)
    requires Terminating(s.list) && s.status.token != "" && s.status.observed.Some? && s.status.clusterID.Some?
    ensures var c := Decide(s, pick); c == Idle || (c.WriteStatus? && c.st == AdoptSpec(s.status, s))
  {
  }

  lemma ShapeOthers(mem: Listing, mem': Listing, m: Name)
    requires SameShape(mem, mem')
    ensures Others(mem', m) == Others(mem, m) && Active(mem') == Active(mem)
  {
  }

  lemma ForgottenStart(w: World, n: Name, m: Name)
    requires Forgotten(w, m) && !w.cl.deleting
    ensures Forgotten(FinStart(w, n), m)
  {
  }

  lemma ForgottenRemove(w: World, n: Name, r: Reply, m: Name)
    requires Forgotten(w, m)
    ensures Forgotten(FinRemove(w, n, r), m)
  {
  }

  lemma ForgottenRelease(w: World, n: Name, m: Name)
    requires Forgotten(w, m) && Finalizers(w.api.mem, w.etcd, w.mw.ctl)
    ensures Forgotten(FinRelease(w, n), m)
  {
    var v := FinRelease(w, n);
    assert Others(v.api.mem, m) == Others(w.api.mem, m);
  }

  lemma ForgottenFinalizer(w: World, a: Action, m: Name)
    requires Forgotten(w, m) && FinalizerAction(a) && !w.cl.deleting && Finalizers(w.api.mem, w.etcd, w.mw.ctl)
    ensures Forgotten(FinalizerNext(w, a), m)
  {
    match a
    case MFinStart(n) => ForgottenStart(w, n, m);
    case MFinRemove(n, r) => ForgottenRemove(w, n, r, m);
    case MFinRelease(n) => ForgottenRelease(w, n, m);
    case _ =>
  }

  lemma ForgottenOthers(w: World, a: Action, m: Name)
    requires Forgotten(w, m) && !ClusterAction(a) && !FinalizerAction(a) && !UserAction(a)
    requires w.cl.status.clusterID.Some? && Finalizers(w.api.mem, w.etcd, w.mw.ctl)
    ensures Forgotten(Next(w, a), m)
  {
    OthersShape(w, a);
    ShapeOthers(w.api.mem, Next(w, a).api.mem, m);
  }

  lemma UnreachableStart(w: World, n: Name, m: Name)
    requires Unreachable(w, m) && !w.cl.deleting
    ensures Unreachable(FinStart(w, n), m)
  {
    forall k | k in Others(w.api.mem, m) ensures k in Active(w.api.mem) {}
  }

  lemma UnreachableRelease(w: World, n: Name, m: Name)
    requires Unreachable(w, m) && Finalizers(w.api.mem, w.etcd, w.mw.ctl)
    ensures Unreachable(FinRelease(w, n), m)
  {
    var v := FinRelease(w, n);
    assert Others(v.api.mem, m) == Others(w.api.mem, m) && Active(v.api.mem) == Active(w.api.mem);
  }

  lemma UnreachableFinalizer(w: World, a: Action, m: Name)
    requires Unreachable(w, m) && FinalizerAction(a) && !w.cl.deleting && Finalizers(w.api.mem, w.etcd, w.mw.ctl)
    ensures Unreachable(FinalizerNext(w, a), m)
  {
    match a
    case MFinStart(n) => UnreachableStart(w, n, m);
    case MFinRelease(n) => UnreachableRelease(w, n, m);
    case _ =>
  }

  lemma UnreachableOthers(w: World, a: Action, m: Name)
    requires Unreachable(w, m) && !ClusterAction(a) && !FinalizerAction(a) && !UserAction(a)
    requires w.cl.status.clusterID.Some? && Finalizers(w.api.mem, w.etcd, w.mw.ctl)
    ensures Unreachable(Next(w, a), m)
  {
    OthersShape(w, a);
    ShapeOthers(w.api.mem, Next(w, a).api.mem, m);
  }

  lemma BlockedOk(w: World, x: Name, i: Id, m: Name)
    requires Blocked(w, m)
    ensures var v := ClusterOk(w, x, i);
            && v.api == w.api && v.etcd == w.etcd && v.mw == w.mw && v.cl.spec == w.cl.spec && v.cl.deleting == w.cl.deleting
            && v.cw.ctl == Idle && Ready(v.cl.status)
  {
  }

  lemma BlockedFail(w: World, r: Reply, m: Name)
    requires HeldUp(w, m)
    ensures ClusterFail(w, r) == At(w, Idle)
  {
  }

  lemma BlockedInteraction(w: World, x: Name, i: Id, r: Reply, m: Name)
    requires Blocked(w, m)
    ensures HeldUp(ClusterNext(w, CStep(x, i, r)), m)
  {
    if r == Ok {
      BlockedOk(w, x, i, m);
      SameHeldUp(w, ClusterOk(w, x, i), m);
    } else {
      BlockedFail(w, r, m);
      SameHeldUp(w, At(w, Idle), m);
    }
  }

  lemma BlockedCluster(w: World, a: Action, m: Name)
    requires Blocked(w, m) && ClusterAction(a)
    ensures HeldUp(ClusterNext(w, a), m)
  {
    match a
    case CStart(pick) => BlockedStart(w, pick, m);
    case CStep(x, i, r) => BlockedInteraction(w, x, i, r, m);
    case _ => SameHeldUp(w, At(w, Idle), m);
  }

  lemma BlockedOthers(w: World, a: Action, m: Name)
    requires Blocked(w, m) && !ClusterAction(a) && !UserAction(a)
    ensures Forgotten(Next(w, a), m) || Unreachable(Next(w, a), m)
  {
    if FinalizerAction(a) {
      if Forgotten(w, m) { ForgottenFinalizer(w, a, m); } else { UnreachableFinalizer(w, a, m); }
    } else {
      if Forgotten(w, m) { ForgottenOthers(w, a, m); } else { UnreachableOthers(w, a, m); }
    }
  }

  lemma BlockedStep(w: World, a: Action, m: Name)
    requires Blocked(w, m) && !UserAction(a)
    ensures Blocked(Next(w, a), m)
  {
    NextInv(w, a);
    if ClusterAction(a) {
      BlockedCluster(w, a, m);
    } else {
      BlockedOthers(w, a, m);
      OthersShape(w, a);
      ShapeSets(w.api.mem, Next(w, a).api.mem);
    }
  }

  /**
   * A Terminating member that cannot leave holds up everything: if its removal was forgotten, or
   * all other members are half-made, a cluster whose count must change never converges.
   */
  lemma {:induction false} BlockedForever(w: World, m: Name, actions: seq<Action>)
    requires Blocked(w, m) && NoUser(actions)
    ensures Blocked(Run(w, actions), m) && !Converged(Run(w, actions))
  {
    if actions != [] {
      var front := actions[..|actions| - 1];
      BlockedForever(w, m, front);
      BlockedStep(Run(w, front), actions[|actions| - 1], m);
    }
  }

  /** A record was created beside the only joined member, the worker died, and that member was deleted. */
  lemma OrphanedJoiner(w: World, v: World, a: Name, b: Name)
    requires Races.Growing(w, a) && w.api.mem[a].finalizer && w.api.pods.Keys <= {a} && b !in w.api.used
    requires SpecReplicas(w.cl.spec) >= 2
    requires v.api.mem == w.api.mem[b := NewMember(w.api.stamp, false)][a := w.api.mem[a].(deleting := true)]
    requires v.api.pods == w.api.pods && v.mw == w.mw && v.cl == w.cl && v.cw.ctl == Idle
    ensures HeldUp(v, a)
  {
    assert a in w.api.mem.Keys;
    assert v.api.mem.Keys == {a, b};
    assert Active(v.api.mem) == {b} && Running(v.api.mem) == {b};
    assert b in Others(v.api.mem, a);
  }

  /** It takes one crash and one deletion. */
  lemma BlockedRunExists() returns (w: World, prefix: seq<Action>)
    ensures Init(w) && Blocked(Run(w, prefix), "a")
  {
    w := Races.OneMember("a");
    Races.GrowingExists("a");
    var s1 := [] + [CStart("a")];
    var s2 := s1 + [CStep("a", 0, Ok)];
    var s3 := s2 + [CStep("b", 0, Ok)];
    var s4 := s3 + [CCrash];
    prefix := s4 + [ExtDelete("a")];
    RunSnoc(w, [], CStart("a"));
    RunSnoc(w, s1, CStep("a", 0, Ok));
    RunSnoc(w, s2, CStep("b", 0, Ok));
    RunSnoc(w, s3, CCrash);
    RunSnoc(w, s4, ExtDelete("a"));
    Races.GrowStarts(w, "a");
    Races.GrowLists(w, "a");
    var v := Run(w, s2);
    OrphanSteps(v, "a", "b");
    RunInv(w, prefix);
    OrphanedJoiner(w, Run(w, prefix), "a", "b");
  }

  lemma OrphanSteps(v: World, a: Name, b: Name)
    requires v.cw.ctl == JoinCreate && b !in v.api.used && a in v.api.mem && v.api.mem[a].finalizer && a != b
    ensures var u := Next(Next(Next(v, CStep(b, 0, Ok)), CCrash), ExtDelete(a));
            && u.api.mem == v.api.mem[b := NewMember(v.api.stamp, false)][a := v.api.mem[a].(deleting := true)]
            && u.api.pods == v.api.pods && u.mw == v.mw && u.cl == v.cl && u.cw.ctl == Idle
  {
  }
}
