/**
 * What convergence rests on in every schedule: while users leave a formed cluster alone,
 * no step of any worker takes it further from its spec, wherever calls fail and workers
 * are cut off, and it can still converge from wherever it is.
 */
module MembershipUndisturbed {
  import opened Base
  import opened Membership
  import opened MembershipInvariant
  import opened MembershipWorker
  import opened MembershipRecords
  import opened MembershipProgress
  import opened MembershipRevival
  import opened MembershipConvergence
  import opened MembershipObstacles
  import MembershipTheorems

  // ---- What the worker is about to do still makes sense ----

  ghost predicate Aimed(c: Ctl, snap: Snap, mem: Listing, desired: nat) {
    match c
    case ScaleDelete(n) => n in Running(mem) && PendingIn(mem) == {} && |Running(mem)| > desired && |Running(mem)| > 1
    case Park(n) => Running(mem) == {n} && desired == 0
    case Wake(n) => n in DormantIn(mem) && |Running(mem)| < desired
    case JoinList => PendingIn(snap.list) == PendingIn(mem) && (PendingIn(mem) == {} ==> |Running(mem)| < desired)
    case JoinCreate => |Running(mem)| < desired
    case JoinAdd(n) => n in PendingIn(mem)
    case JoinPatch(n, _) => n in PendingIn(mem)
    case _ => true
  }

  /** A live, formed cluster, at any point of any worker. */
  ghost predicate Steady(w: World) {
    && Inv(w) && Sane(w) && !w.cl.deleting && w.cl.status.clusterID.Some?
    && Aimed(w.cw.ctl, w.cw.snap, w.api.mem, Desired(w))
  }

  lemma ScaleAims(s: Snap, pick: Name)
    requires s.status.observed.Some? && Dormancy(s.list)
    ensures Aimed(DecideScale(s, pick), s, s.list, s.status.observed.value.replicas)
  {
    var c, n := DecideScale(s, pick), |Running(s.list)|;
    if c.Park? {
      Singleton(Running(s.list), pick);
    }
    if c.Wake? && PendingIn(s.list) != {} {
      var p :| p in PendingIn(s.list);
      assert p in Active(s.list) && p != pick;
    }
  }

  lemma StartAims(w: World, pick: Name)
    requires Steady(w)
    ensures var v := ClusterStart(w, pick); v.cl == w.cl && Aimed(v.cw.ctl, v.cw.snap, v.api.mem, Desired(w))
  {
    if w.cw.ctl == Idle {
      ScaleAims(Reads(w), pick);
    }
  }

  /** Nobody but the cluster worker changes who is running, half-made or dormant. */
  lemma OthersKeepAim(w: World, a: Action)
    requires Steady(w) && !ClusterAction(a) && !UserAction(a)
    ensures Steady(Next(w, a))
  {
    NextInv(w, a);
    NextSane(w, a);
    OthersShape(w, a);
    ShapeSets(w.api.mem, Next(w, a).api.mem);
    assert DormantIn(Next(w, a).api.mem) == DormantIn(w.api.mem);
  }

  // ---- No step raises the rank ----

  predicate NotAbove(a: Rank, b: Rank) {
    a == b || Lower(a, b)
  }

  lemma NotAboveTransitive(a: Rank, b: Rank, c: Rank)
    requires NotAbove(a, b) && NotAbove(b, c)
    ensures NotAbove(a, c)
  {
  }

  lemma AtMost<T>(a: set<T>, b: set<T>)
    requires a <= b
    ensures |a| <= |b|
  {
    assert b == a + (b - a);
  }

  /** A step that leaves the records, the list and the target alone. */
  lemma SameRank(w: World, v: World)
    requires w.cl.status.observed.Some? && v.cl.spec == w.cl.spec && v.cl.status.observed == w.cl.status.observed
    requires v.api.mem == w.api.mem && v.etcd.list == w.etcd.list
    ensures RankOf(v) == RankOf(w)
  {
  }

  lemma WriteRank(w: World, x: Name, i: Id)
    requires Steady(w) && w.cw.ctl.WriteStatus?
    ensures var v := ClusterOk(w, x, i); v.cl.status.observed.Some? && NotAbove(RankOf(v), RankOf(w))
  {
    var v, c := ClusterOk(w, x, i), w.cw.ctl;
    if c.gen == w.cl.gen {
      assert c.st == AdoptSpec(w.cw.snap.status, w.cw.snap);
      assert Behind(v) == 0 && Behind(w) == 1;
    } else {
      SameRank(w, v);
    }
  }

  /** One member more below the target, or one less above it. */
  lemma CountRank(w: World, v: World)
    requires w.cl.status.observed.Some? && v.cl == w.cl
    requires || (|Running(w.api.mem)| < Desired(w) && |Running(v.api.mem)| == |Running(w.api.mem)| + 1)
             || (|Running(w.api.mem)| > Desired(w) && |Running(v.api.mem)| == |Running(w.api.mem)| - 1)
    ensures Lower(RankOf(v), RankOf(w))
  {
  }

  lemma DeleteSets(api: Records, n: Name)
    requires n in Running(api.mem)
    ensures var mem' := DeleteRecord(api, n).mem;
            Running(mem') == Running(api.mem) - {n} && |Running(mem')| == |Running(api.mem)| - 1
  {
    assert Running(DeleteRecord(api, n).mem) == Running(api.mem) - {n};
  }

  lemma DormantSets(api: Records, n: Name, dormant: bool)
    requires if dormant then n in Running(api.mem) else n in DormantIn(api.mem)
    ensures var mem' := SetDormant(api, n, dormant).mem;
            |Running(mem')| == if dormant then |Running(api.mem)| - 1 else |Running(api.mem)| + 1
  {
    var mem' := SetDormant(api, n, dormant).mem;
    if dormant {
      assert Running(mem') == Running(api.mem) - {n};
    } else {
      assert Running(mem') == Running(api.mem) + {n};
      assert n !in Running(api.mem);
    }
  }

  /** Deleting, parking and waking bring the count closer to the target. */
  lemma TakeRank(w: World, x: Name, i: Id)
    requires Steady(w) && (w.cw.ctl.ScaleDelete? || w.cw.ctl.Park? || w.cw.ctl.Wake?)
    ensures Lower(RankOf(ClusterOk(w, x, i)), RankOf(w))
  {
    TakeCount(w, x, i);
    CountRank(w, ClusterOk(w, x, i));
  }

  lemma TakeCount(w: World, x: Name, i: Id)
    requires w.cl.status.observed.Some? && Aimed(w.cw.ctl, w.cw.snap, w.api.mem, Desired(w))
    requires w.cw.ctl.ScaleDelete? || w.cw.ctl.Park? || w.cw.ctl.Wake?
    ensures var v := ClusterOk(w, x, i);
            && v.cl == w.cl
            && |Running(v.api.mem)| == |Running(w.api.mem)| + if w.cw.ctl.Wake? then 1 else -1
  {
    match w.cw.ctl
    case ScaleDelete(n) => DeleteSets(w.api, n);
    case Park(n) => DormantSets(w.api, n, true);
    case Wake(n) => DormantSets(w.api, n, false);
  }

  /** So does creating. */
  lemma CreateRank(w: World, x: Name, i: Id)
    requires Steady(w) && w.cw.ctl.JoinCreate?
    ensures var v := ClusterOk(w, x, i);
            NotAbove(RankOf(v), RankOf(w)) && Aimed(v.cw.ctl, v.cw.snap, v.api.mem, Desired(w))
  {
    var v := ClusterOk(w, x, i);
    if x !in w.api.used {
      assert x !in w.api.mem;
      JoinSets(w.api.mem, x, NewMember(w.api.stamp, false));
      CountRank(w, v);
    } else {
      SameRank(w, v);
    }
  }

  lemma AddedSets(w: World, p: Name)
    requires Entries(w.api.used, w.etcd) && p in Unregistered(w.api.mem, w.etcd.list)
    ensures Unregistered(w.api.mem, AddLearner(w.etcd, p).list) < Unregistered(w.api.mem, w.etcd.list)
  {
    var list' := AddLearner(w.etcd, p).list;
    assert list'[w.etcd.nextId].owner == p;
    forall n | n in PendingIn(w.api.mem) && Registered(w.etcd.list, n) ensures Registered(list', n) {
      var j :| j in w.etcd.list && w.etcd.list[j].owner == n;
      assert list'[j].owner == n;
    }
    assert p !in Unregistered(w.api.mem, list');
  }

  /** A half-made member enters etcd's list. */
  lemma AddRank(w: World, x: Name, i: Id)
    requires Steady(w) && w.cw.ctl.JoinAdd?
    ensures Lower(RankOf(ClusterOk(w, x, i)), RankOf(w))
  {
    var v, p := ClusterOk(w, x, i), w.cw.ctl.joiner;
    assert p in Unregistered(w.api.mem, w.etcd.list);
    AddedSets(w, p);
    StrictlyFewer(Unregistered(w.api.mem, v.etcd.list), Unregistered(w.api.mem, w.etcd.list));
  }

  /** A half-made member gets its flag. */
  lemma PatchRank(w: World, x: Name, i: Id)
    requires Steady(w) && w.cw.ctl.JoinPatch?
    ensures Lower(RankOf(ClusterOk(w, x, i)), RankOf(w))
  {
    var v, p := ClusterOk(w, x, i), w.cw.ctl.patchee;
    assert OnlyFlag(w.api.mem, v.api.mem, p) && v.api.mem[p].initialCluster != {};
    FlagSets(w.api.mem, v.api.mem, p);
    FewerPending(w, v);
  }

  /** A learner becomes a voter. */
  lemma PromoteRank(w: World, x: Name, i: Id)
    requires w.cl.status.observed.Some? && w.cw.ctl.Promote?
    ensures NotAbove(RankOf(ClusterOk(w, x, i)), RankOf(w))
  {
    var v, l := ClusterOk(w, x, i), w.cw.ctl.learner;
    if l in Learners(w.etcd.list) {
      PromotedSets(w.etcd, l);
      assert Unregistered(v.api.mem, v.etcd.list) == Unregistered(w.api.mem, w.etcd.list);
      assert l !in Learners(v.etcd.list);
      FewerLearners(w, v);
    } else {
      assert v.etcd.list == w.etcd.list;
      SameRank(w, v);
    }
  }

  /** The list leads to a create only below the target, and to an add only for a half-made member. */
  lemma ListAims(w: World, x: Name, i: Id)
    requires Steady(w) && w.cw.ctl.JoinList?
    ensures var v := ClusterOk(w, x, i);
            RankOf(v) == RankOf(w) && Aimed(v.cw.ctl, v.cw.snap, v.api.mem, Desired(w))
  {
    SameRank(w, ClusterOk(w, x, i));
  }

  predicate RestPoint(c: Ctl) {
    c.Idle? || c.SteadyList? || c.Finish? || AuthPoint(c)
  }

  lemma RestRank(w: World, x: Name, i: Id)
    requires w.cl.status.observed.Some? && RestPoint(w.cw.ctl)
    ensures var v := ClusterOk(w, x, i);
            v.cl.status.observed.Some? && RankOf(v) == RankOf(w) && (RestPoint(v.cw.ctl) || v.cw.ctl.Promote?)
  {
    SameRank(w, ClusterOk(w, x, i));
  }

  /** After these points the worker is at rest. */
  lemma EndsAtRest(w: World, x: Name, i: Id)
    requires var c := w.cw.ctl;
             c.WriteStatus? || c.ScaleDelete? || c.Park? || c.Wake? || c.JoinPatch? || c.Promote?
    ensures RestPoint(ClusterOk(w, x, i).cw.ctl)
  {
  }

  lemma AddAims(w: World, x: Name, i: Id)
    requires Steady(w) && w.cw.ctl.JoinAdd?
    ensures var v := ClusterOk(w, x, i); v.cl == w.cl && Aimed(v.cw.ctl, v.cw.snap, v.api.mem, Desired(w))
  {
  }

  ghost predicate Onward(w: World, v: World)
    requires w.cl.status.observed.Some?
  {
    && v.cl.status.observed.Some? && NotAbove(RankOf(v), RankOf(w))
    && Aimed(v.cw.ctl, v.cw.snap, v.api.mem, Desired(v))
  }

  lemma JoinOnward(w: World, x: Name, i: Id)
    requires Steady(w) && (w.cw.ctl.JoinList? || w.cw.ctl.JoinCreate? || w.cw.ctl.JoinAdd?)
    ensures Onward(w, ClusterOk(w, x, i))
  {
    if w.cw.ctl.JoinList? {
      ListAims(w, x, i);
    } else if w.cw.ctl.JoinCreate? {
      CreateRank(w, x, i);
    } else {
      AddRank(w, x, i);
      AddAims(w, x, i);
    }
  }

  lemma OkOnward(w: World, x: Name, i: Id)
    requires Steady(w)
    ensures Onward(w, ClusterOk(w, x, i))
  {
    var c := w.cw.ctl;
    assert !PreLatchPoint(c);
    if c.JoinList? || c.JoinCreate? || c.JoinAdd? {
      JoinOnward(w, x, i);
    } else if RestPoint(c) {
      RestRank(w, x, i);
    } else {
      EndsAtRest(w, x, i);
      EndRank(w, x, i);
    }
  }

  lemma EndRank(w: World, x: Name, i: Id)
    requires Steady(w)
    requires var c := w.cw.ctl;
             c.WriteStatus? || c.ScaleDelete? || c.Park? || c.Wake? || c.JoinPatch? || c.Promote?
    ensures var v := ClusterOk(w, x, i); v.cl.status.observed.Some? && NotAbove(RankOf(v), RankOf(w))
  {
    if w.cw.ctl.WriteStatus? {
      WriteRank(w, x, i);
    } else if w.cw.ctl.JoinPatch? {
      PatchRank(w, x, i);
    } else if w.cw.ctl.Promote? {
      PromoteRank(w, x, i);
    } else {
      TakeRank(w, x, i);
    }
  }

  lemma FailOnward(w: World, r: Reply)
    requires Steady(w) && r != Ok
    ensures Onward(w, ClusterFail(w, r))
  {
    FailFrame(w, r);
    FailRests(w, r);
    SameRank(w, ClusterFail(w, r));
  }

  lemma FailRests(w: World, r: Reply)
    requires r != Ok
    ensures RestPoint(ClusterFail(w, r).cw.ctl)
  {
  }

  lemma StartOnward(w: World, pick: Name)
    requires Steady(w)
    ensures Onward(w, ClusterStart(w, pick))
  {
    StartAims(w, pick);
    SameRank(w, ClusterStart(w, pick));
  }

  lemma ClusterOnward(w: World, a: Action)
    requires Steady(w) && ClusterAction(a)
    ensures Onward(w, ClusterNext(w, a))
  {
    match a
    case CStart(pick) => StartOnward(w, pick);
    case CStep(x, i, r) =>
      if r == Ok {
        OkOnward(w, x, i);
      } else {
        FailOnward(w, r);
      }
    case _ => SameRank(w, At(w, Idle));
  }

  lemma StaysFormed(w: World, a: Action)
    requires Inv(w) && w.cl.status.clusterID.Some? && ClusterAction(a)
    ensures ClusterNext(w, a).cl.status.clusterID.Some? && ClusterNext(w, a).cl.deleting == w.cl.deleting
    ensures ClusterNext(w, a).cl.spec == w.cl.spec
  {
    MembershipTheorems.StatusStep(w, a);
    ClusterFrame(w, a);
  }

  lemma ClusterFrame(w: World, a: Action)
    requires ClusterAction(a)
    ensures var v := ClusterNext(w, a); v.cl.deleting == w.cl.deleting && v.cl.spec == w.cl.spec && v.mw == w.mw
  {
  }

  lemma ClusterSteady(w: World, a: Action)
    requires Steady(w) && ClusterAction(a)
    ensures Steady(ClusterNext(w, a)) && Onward(w, ClusterNext(w, a))
  {
    NextInv(w, a);
    NextSane(w, a);
    StaysFormed(w, a);
    ClusterOnward(w, a);
  }

  // ---- Steps of the member workers ----

  /** A Ready report that is withdrawn is the one thing that sets a cluster back. */
  predicate Setback(a: Action) {
    a.MReady? && !a.up
  }

  lemma WriteSets(w: World, a: Action)
    requires RecordAction(a) && !Setback(a)
    ensures var mem, mem' := w.api.mem, MemberWrite(w, a).api.mem;
            Terminal(mem') <= Terminal(mem) && Unready(mem') <= Unready(mem)
  {
  }

  lemma OthersSets(w: World, a: Action)
    requires !ClusterAction(a) && !UserAction(a) && !Setback(a)
    ensures var mem, mem' := w.api.mem, Next(w, a).api.mem;
            Terminal(mem') <= Terminal(mem) && Unready(mem') <= Unready(mem)
  {
    if RecordAction(a) {
      WriteSets(w, a);
    } else if !a.MFinRelease? {
      assert Next(w, a).api.mem == w.api.mem;
    }
  }

  lemma OthersEntries(w: World, a: Action)
    requires w.cl.status.clusterID.Some? && !ClusterAction(a)
    ensures FewerEntries(w.etcd, Next(w, a).etcd)
  {
  }

  lemma OthersKeepEntries(w: World, a: Action)
    requires Inv(w) && AllRegular(w.api.mem) && w.cl.status.clusterID.Some? && !ClusterAction(a)
    ensures KeepsActive(w.api.mem, w.etcd.list, Next(w, a).etcd.list)
  {
    if FinalizerAction(a) {
      FinalizerTamer(w, a);
    } else {
      OthersFrame(w, a);
    }
  }

  lemma OthersRank(w: World, a: Action)
    requires Steady(w) && !ClusterAction(a) && !UserAction(a) && !Setback(a)
    ensures var v := Next(w, a); v.cl == w.cl && NotAbove(RankOf(v), RankOf(w))
  {
    var v := Next(w, a);
    OthersShape(w, a);
    ShapeSets(w.api.mem, v.api.mem);
    OthersSets(w, a);
    OthersEntries(w, a);
    OthersKeepEntries(w, a);
    AtMost(Terminal(v.api.mem), Terminal(w.api.mem));
    AtMost(Unready(v.api.mem), Unready(w.api.mem));
    assert Learners(v.etcd.list) <= Learners(w.etcd.list);
    AtMost(Learners(v.etcd.list), Learners(w.etcd.list));
    forall n | n in PendingIn(w.api.mem) ensures Registered(v.etcd.list, n) <==> Registered(w.etcd.list, n) {
      assert n in Active(w.api.mem);
    }
    assert Unregistered(v.api.mem, v.etcd.list) == Unregistered(w.api.mem, w.etcd.list);
  }

  /** No step but a user's, or a withdrawn Ready report, takes a formed cluster further from its spec. */
  lemma StepNotAbove(w: World, a: Action)
    requires Steady(w) && !UserAction(a)
    ensures Steady(Next(w, a)) && (!Setback(a) ==> NotAbove(RankOf(Next(w, a)), RankOf(w)))
  {
    if ClusterAction(a) {
      ClusterSteady(w, a);
    } else {
      OthersKeepAim(w, a);
      if !Setback(a) {
        OthersRank(w, a);
      }
    }
  }

  // ---- The way to convergence stays open ----

  /** The crash after which nobody knows that etcd has dropped the member. */
  predicate Forgets(w: World, a: Action) {
    a.MCrash? && a.n in w.mw.ctl && w.mw.ctl[a.n].MRelease?
  }

  ghost predicate SomeMature(mem: Listing) {
    exists q :: q in mem && Mature(mem[q])
  }

  lemma MatureStays(mem: Listing, mem': Listing, q: Name)
    requires q in mem && Mature(mem[q]) && q in mem' && !mem'[q].deleting
    requires mem'[q].initialCluster == mem[q].initialCluster || mem'[q].initialCluster != {}
    ensures SomeMature(mem')
  {
  }

  lemma VictimGoes(w: World, n: Name, v: World)
    requires Inv(w) && Sane(w) && w.cl.status.clusterID.Some? && n in Running(w.api.mem) && PendingIn(w.api.mem) == {}
    requires v.api == DeleteRecord(w.api, n) && v.etcd == w.etcd && v.mw == w.mw && n in v.api.mem
    ensures CanLeave(v, n)
  {
    assert n in Active(w.api.mem) && n !in PendingIn(w.api.mem);
    assert w.api.mem[n].initialCluster != {};
    var j :| j in w.etcd.list && w.etcd.list[j].owner == n;
  }

  lemma DeleteRecovers(w: World, x: Name, i: Id)
    requires Steady(w) && Recoverable(w) && w.cw.ctl.ScaleDelete?
    ensures Recoverable(ClusterOk(w, x, i))
  {
    var v, n := ClusterOk(w, x, i), w.cw.ctl.victim;
    var r := TwoRunning(Running(w.api.mem), n);
    assert r in Active(w.api.mem) && r !in PendingIn(w.api.mem);
    assert w.api.mem[r].initialCluster != {};
    MatureStays(w.api.mem, v.api.mem, r);
    forall m | m in v.api.mem && v.api.mem[m].deleting ensures CanLeave(v, m) {
      if m == n {
        VictimGoes(w, n, v);
      } else {
        assert CanLeave(w, m);
      }
    }
  }

  /** `m2` is a record of the same member, Terminating or not as before. */
  predicate SameLife(m: Member, m2: Member) {
    && m2.deleting == m.deleting && m2.finalizer == m.finalizer && m2.memberID == m.memberID
    && (Mature(m) ==> Mature(m2))
  }

  ghost predicate KeepsRecords(mem: Listing, mem': Listing) {
    && (forall n :: n in mem ==> n in mem' && SameLife(mem[n], mem'[n]))
    && (forall n :: n in mem' && n !in mem ==> !mem'[n].deleting)
  }

  /** Entries stay, workers stay, and no other record becomes Terminating. */
  lemma KeptRecovers(w: World, v: World)
    requires Recoverable(w) && v.mw == w.mw && (forall i :: i in w.etcd.list ==> i in v.etcd.list)
    requires KeepsRecords(w.api.mem, v.api.mem)
    ensures Recoverable(v)
  {
    var q :| q in w.api.mem && Mature(w.api.mem[q]);
    assert Mature(v.api.mem[q]);
    forall m | m in v.api.mem && v.api.mem[m].deleting ensures CanLeave(v, m) {
      assert CanLeave(w, m);
    }
  }

  lemma OkKeepsEntries(w: World, x: Name, i: Id)
    ensures var v := ClusterOk(w, x, i); v.mw == w.mw && forall j :: j in w.etcd.list ==> j in v.etcd.list
  {
  }

  lemma OkKeepsRecords(w: World, x: Name, i: Id)
    requires CtlInv(w.cw.ctl, w.cw.snap, w.api, w.etcd) && Names(w.api) && !w.cw.ctl.ScaleDelete?
    ensures KeepsRecords(w.api.mem, ClusterOk(w, x, i).api.mem)
  {
  }

  lemma ClusterRecovers(w: World, a: Action)
    requires Steady(w) && Recoverable(w) && ClusterAction(a)
    ensures Recoverable(ClusterNext(w, a))
  {
    var v := ClusterNext(w, a);
    if a.CStep? && a.r == Ok {
      if w.cw.ctl.ScaleDelete? {
        DeleteRecovers(w, a.x, a.i);
      } else {
        OkKeepsEntries(w, a.x, a.i);
        OkKeepsRecords(w, a.x, a.i);
        KeptRecovers(w, v);
      }
    } else {
      if a.CStep? {
        FailFrame(w, a.r);
      }
      ClusterFrame(w, a);
      SameRecoverable(w, v);
    }
  }

  lemma OthersMature(w: World, a: Action)
    requires Inv(w) && SomeMature(w.api.mem) && !ClusterAction(a) && !UserAction(a)
    ensures SomeMature(Next(w, a).api.mem)
  {
    OthersShape(w, a);
    var q :| q in w.api.mem && Mature(w.api.mem[q]);
    MatureStays(w.api.mem, Next(w, a).api.mem, q);
  }

  /** A Terminating member that can leave still can, unless it has left. */
  lemma OthersCanLeave(w: World, a: Action, m: Name)
    requires Inv(w) && w.cl.status.clusterID.Some? && CanLeave(w, m) && !ClusterAction(a) && !UserAction(a) && !Forgets(w, a)
    requires m in Next(w, a).api.mem
    ensures CanLeave(Next(w, a), m)
  {
    OwnsIds(w, m);
    if FinalizerAction(a) {
      FinalizerCanLeave(w, a, m);
    } else if RecordAction(a) {
      assert Next(w, a).api.mem[m] == w.api.mem[m];
    }
  }

  lemma FinalizerCanLeave(w: World, a: Action, m: Name)
    requires Finalizers(w.api.mem, w.etcd, w.mw.ctl) && OwnIds(w, m) && CanLeave(w, m) && FinalizerAction(a) && !Forgets(w, a)
    requires m in FinalizerNext(w, a).api.mem
    ensures CanLeave(FinalizerNext(w, a), m)
  {
  }

  lemma OthersRecover(w: World, a: Action)
    requires Steady(w) && Recoverable(w) && !ClusterAction(a) && !UserAction(a) && !Forgets(w, a)
    ensures Recoverable(Next(w, a))
  {
    var v := Next(w, a);
    OthersMature(w, a);
    OthersShape(w, a);
    forall m | m in v.api.mem && v.api.mem[m].deleting ensures CanLeave(v, m) {
      OthersCanLeave(w, a, m);
    }
  }

  // ---- Whole runs ----

  /** Nobody edits or deletes, no Ready report is withdrawn, and no removal is forgotten. */
  ghost predicate Undisturbed(w: World, s: seq<Action>) {
    s == [] ||
    (var front, a := s[..|s| - 1], s[|s| - 1];
     Undisturbed(w, front) && !UserAction(a) && !Setback(a) && !Forgets(Run(w, front), a))
  }

  /** In every undisturbed run, whatever fails and whoever crashes, the rank never rises and recovery stays possible. */
  lemma {:induction false} RunNotAbove(w: World, s: seq<Action>)
    requires Steady(w) && Recoverable(w) && Undisturbed(w, s)
    ensures Steady(Run(w, s)) && Recoverable(Run(w, s)) && NotAbove(RankOf(Run(w, s)), RankOf(w))
    ensures Run(w, s).cl.spec == w.cl.spec
  {
    if s != [] {
      var front, a := s[..|s| - 1], s[|s| - 1];
      var v := Run(w, front);
      RunNotAbove(w, front);
      StepNotAbove(v, a);
      StepRecovers(v, a);
      NotAboveTransitive(RankOf(Next(v, a)), RankOf(v), RankOf(w));
    }
  }

  lemma StepRecovers(w: World, a: Action)
    requires Steady(w) && Recoverable(w) && !UserAction(a) && !Forgets(w, a)
    ensures Recoverable(Next(w, a)) && Next(w, a).cl.spec == w.cl.spec
  {
    if ClusterAction(a) {
      ClusterFrame(w, a);
      ClusterRecovers(w, a);
    } else {
      OthersShape(w, a);
      OthersRecover(w, a);
    }
  }

  /**
   * Progress under every schedule.  After any undisturbed run the cluster is no further from
   * its spec than before; and once the worker is between two reconciles, unless the deadline
   * holds it, either it converges or a few steps that go through lower the rank for good.
   */
  lemma AlwaysOnward(w: World, s: seq<Action>) returns (t: seq<Action>, v: World)
    requires Formed(w) && Recoverable(w) && Undisturbed(w, s)
    requires Run(w, s).cw.ctl == Idle && !Frozen(Run(w, s))
    ensures Run(w, s).cl.status.observed.Some? && NotAbove(RankOf(Run(w, s)), RankOf(w))
    ensures Reaches(Run(w, s), t, v) && (Converged(v) || Closer(Run(w, s), v))
  {
    RunNotAbove(w, s);
    t, v := Phase(Run(w, s));
  }
}
