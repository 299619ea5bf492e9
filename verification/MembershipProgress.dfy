/**
 * What one reconcile of the cluster worker does when nothing comes in between:
 * the building blocks of convergence.
 */
module MembershipProgress {
  import opened Base
  import opened Membership
  import opened MembershipInvariant

  /** The worker is about to start, and no change of target is due or overdue. */
  ghost predicate Settled(w: World) {
    && w.cw.ctl == Idle && !w.cl.deleting
    && w.cl.status.token != "" && w.cl.status.observed.Some?
    && (if Complete(w.cl.status, w.api.mem) then SpecEqualsObserved(w.cl.spec, w.cl.status.observed)
        else !Expired(w.cl.status, w.now))
  }

  /** A formed cluster without a deletion in flight. */
  ghost predicate Scaling(w: World) {
    Settled(w) && w.cl.status.clusterID.Some? && !Terminating(w.api.mem)
  }

  function Desired(w: World): nat
    requires w.cl.status.observed.Some?
  {
    w.cl.status.observed.value.replicas
  }

  /** The world once the worker has read it and chosen c. */
  function Chosen(w: World, c: Ctl): World {
    w.(cw := ClusterWorker(c, Reads(w), 0))
  }

  /** The worker is idle again; apart from records and etcd nothing has changed. */
  ghost predicate Back(w: World, v: World) {
    v.cl == w.cl && v.now == w.now && v.mw == w.mw && v.cw.ctl == Idle && v.api.pods == w.api.pods
  }

  /** Reads, then interactions that go through. */
  function After1(w: World, pick: Name, x: Name, i: Id): World {
    Next(Next(w, CStart(pick)), CStep(x, i, Ok))
  }

  function After2(w: World, pick: Name, x: Name, i: Id): World {
    Next(After1(w, pick, x, i), CStep(x, i, Ok))
  }

  function After3(w: World, pick: Name, x: Name, i: Id): World {
    Next(After2(w, pick, x, i), CStep(x, i, Ok))
  }

  function After4(w: World, pick: Name, x: Name, i: Id): World {
    Next(After3(w, pick, x, i), CStep(x, i, Ok))
  }

  lemma Starts(w: World, pick: Name)
    requires Settled(w)
    ensures Next(w, CStart(pick)) == Chosen(w, Decide(Reads(w), pick))
    ensures Decide(Reads(w), pick) ==
            if w.cl.status.clusterID.None? then DecideBootstrap(Reads(w), pick) else DecideScale(Reads(w), pick)
  {
  }

  // ---- Bootstrap ----

  /** A cluster without members gets its seed, complete with its initial cluster. */
  lemma SeedAppears(w: World, pick: Name, x: Name)
    requires Settled(w) && w.cl.status.clusterID.None? && Desired(w) > 0 && Running(w.api.mem) == {} && x !in w.api.used
    ensures var v := After2(w, pick, x, 0);
            && v.api.mem == w.api.mem[x := NewMember(w.api.stamp, true).(initialCluster := {x})]
            && Back(w, v) && v.etcd == w.etcd
  {
    Starts(w, pick);
    assert SeedsIn(w.api.mem) == {};
    SeedSteps(Chosen(w, SeedCreate), x);
  }

  lemma SeedSteps(v: World, x: Name)
    requires v.cw.ctl == SeedCreate && x !in v.api.used
    ensures var u := Next(Next(v, CStep(x, 0, Ok)), CStep(x, 0, Ok));
            && u.api.mem == v.api.mem[x := NewMember(v.api.stamp, true).(initialCluster := {x})]
            && Back(v, u) && u.etcd == v.etcd
  {
  }

  /** A seed whose patch was lost gets it from the next reconcile. */
  lemma SeedRecovers(w: World, n: Name)
    requires Settled(w) && w.cl.status.clusterID.None? && Desired(w) > 0
    requires n in SeedsIn(w.api.mem) && w.api.mem[n].initialCluster == {}
    ensures var v := After1(w, n, n, 0);
            v.api.mem == w.api.mem[n := w.api.mem[n].(initialCluster := {n})] && Back(w, v) && v.etcd == w.etcd
  {
    Starts(w, n);
    assert PendingBootstrap(w.api.mem);
  }

  /** The cluster ID is latched once etcd lists the seed and nobody else. */
  lemma ClusterLatched(w: World, n: Name)
    requires Settled(w) && w.cl.status.clusterID.None? && Desired(w) > 0 && !PendingBootstrap(w.api.mem)
    requires n in SeedsIn(w.api.mem) && w.api.mem[n].pod && |w.etcd.list| == 1 && Owners(w.etcd.list) == {n}
    ensures var v := After2(w, n, n, 0);
            && v.cl == w.cl.(status := w.cl.status.(clusterID := Some(w.etcd.cluster)))
            && v.api == w.api && v.etcd == w.etcd && v.mw == w.mw && v.now == w.now && v.cw.ctl == Idle
  {
    Starts(w, n);
    assert Running(w.api.mem) != {};
    DiscoverSteps(Chosen(w, Discover(n)), n);
  }

  lemma DiscoverSteps(v: World, n: Name)
    requires v.cw.ctl == Discover(n) && v.cw.snap.gen == v.cl.gen && |v.etcd.list| == 1 && Owners(v.etcd.list) == {n}
    ensures var u := Next(Next(v, CStep(n, 0, Ok)), CStep(n, 0, Ok));
            && u.cl == v.cl.(status := v.cl.status.(clusterID := Some(v.etcd.cluster)))
            && u.api == v.api && u.etcd == v.etcd && u.mw == v.mw && u.now == v.now && u.cw.ctl == Idle
  {
  }

  // ---- Scale-up ----

  /** Etcd's view of the cluster reaches the joiner: its flag names every registered member, itself included. */
  ghost predicate JoinerReady(v: World, p: Name) {
    && p in v.api.mem && v.api.mem[p].initialCluster == Owners(v.etcd.list) && p in v.api.mem[p].initialCluster
    && Registered(v.etcd.list, p)
  }

  /** Of the records, only the flag of `p` differs. */
  ghost predicate OnlyFlag(mem: Listing, mem': Listing, p: Name) {
    p in mem && p in mem' && mem' == mem[p := mem[p].(initialCluster := mem'[p].initialCluster)]
  }

  lemma ListsPending(w: World, p: Name)
    requires Scaling(w) && p in PendingIn(w.api.mem) && DormantIn(w.api.mem) == {}
    ensures After1(w, p, p, 0) == Chosen(w, if Registered(w.etcd.list, p) then JoinPatch(p, Owners(w.etcd.list)) else JoinAdd(p))
  {
    Starts(w, p);
  }

  lemma PatchReady(v: World, p: Name)
    requires v.cw.ctl == JoinPatch(p, Owners(v.etcd.list)) && p in v.api.mem && Registered(v.etcd.list, p)
    ensures var u := Next(v, CStep(p, 0, Ok));
            JoinerReady(u, p) && Back(v, u) && u.etcd == v.etcd && OnlyFlag(v.api.mem, u.api.mem, p) && u.api.used == v.api.used
  {
    assert p in Owners(v.etcd.list);
  }

  lemma AddReady(v: World, p: Name)
    requires v.cw.ctl == JoinAdd(p) && p in v.api.mem
    ensures var u := Next(Next(v, CStep(p, 0, Ok)), CStep(p, 0, Ok));
            && JoinerReady(u, p) && Back(v, u) && OnlyFlag(v.api.mem, u.api.mem, p) && u.api.used == v.api.used
            && u.etcd.list == v.etcd.list[v.etcd.nextId := Entry(p, true)]
  {
    var u := Next(v, CStep(p, 0, Ok));
    assert u.etcd.list[v.etcd.nextId].owner == p;
    PatchReady(u, p);
  }

  /**
   * Crash recovery.  A record left half-made is finished by the next reconcile, whichever
   * side of the learner add the crash fell on, and the member is registered only if it was not.
   */
  lemma PendingCompleted(w: World, p: Name)
    requires Scaling(w) && p in PendingIn(w.api.mem) && DormantIn(w.api.mem) == {}
    ensures var v := if Registered(w.etcd.list, p) then After2(w, p, p, 0) else After3(w, p, p, 0);
            && JoinerReady(v, p) && Back(w, v) && OnlyFlag(w.api.mem, v.api.mem, p)
            && v.etcd.list == if Registered(w.etcd.list, p) then w.etcd.list else w.etcd.list[w.etcd.nextId := Entry(p, true)]
  {
    ListsPending(w, p);
    if Registered(w.etcd.list, p) {
      PatchReady(After1(w, p, p, 0), p);
    } else {
      AddReady(After1(w, p, p, 0), p);
    }
  }

  lemma ListsNone(w: World, pick: Name, x: Name)
    requires Scaling(w) && PendingIn(w.api.mem) == {} && DormantIn(w.api.mem) == {}
    requires 0 < |Running(w.api.mem)| < Desired(w) && AllReady(w.api.mem) && Learners(w.etcd.list) == {}
    ensures After1(w, pick, x, 0) == Chosen(w, JoinCreate)
  {
    Starts(w, pick);
  }

  lemma CreateSteps(v: World, x: Name)
    requires v.cw.ctl == JoinCreate && x !in v.api.used
    ensures var u := Next(v, CStep(x, 0, Ok));
            && u.cw.ctl == JoinAdd(x) && u.etcd == v.etcd && u.api.mem == v.api.mem[x := NewMember(v.api.stamp, false)]
            && u.cl == v.cl && u.now == v.now && u.mw == v.mw && u.api.pods == v.api.pods
  {
  }

  /** A Ready cluster below its target gains one record, registered as a learner, with a complete flag. */
  lemma MemberJoins(w: World, pick: Name, x: Name)
    requires Scaling(w) && PendingIn(w.api.mem) == {} && DormantIn(w.api.mem) == {}
    requires 0 < |Running(w.api.mem)| < Desired(w) && AllReady(w.api.mem) && Learners(w.etcd.list) == {}
    requires x !in w.api.used && x !in w.api.mem
    ensures var v := After4(w, pick, x, 0);
            && JoinerReady(v, x) && Back(w, v)
            && v.api.mem == w.api.mem[x := NewMember(w.api.stamp, false).(initialCluster := Owners(v.etcd.list))]
            && v.etcd.list == w.etcd.list[w.etcd.nextId := Entry(x, true)]
  {
    ListsNone(w, pick, x);
    CreateSteps(Chosen(w, JoinCreate), x);
    AddReady(After2(w, pick, x, 0), x);
  }

  /** Promotion and the return to idle, from the join path or the converged path. */
  lemma PromoteSteps(v: World, x: Name, i: Id)
    requires || (v.cw.ctl == JoinList && Running(v.cw.snap.list) != {} && PendingIn(v.cw.snap.list) == {})
             || (v.cw.ctl == SteadyList && v.cw.snap.status.observed.Some?)
    requires i in Learners(v.etcd.list) && v.cl.status.observed.Some? && Desired(v) > 0
    ensures var u := Next(Next(v, CStep(x, i, Ok)), CStep(x, i, Ok));
            var t := if v.cw.ctl == JoinList then u else Next(u, CStep(x, i, Ok));
            Back(v, t) && t.etcd == PromoteLearner(v.etcd, i) && t.api == v.api
  {
    var u := Next(v, CStep(x, i, Ok));
    assert u == At(v, Promote(i, v.cw.ctl == SteadyList));
  }

  /** A learner becomes a voter before the next member joins. */
  lemma LearnerPromoted(w: World, pick: Name, i: Id)
    requires Scaling(w) && PendingIn(w.api.mem) == {} && DormantIn(w.api.mem) == {} && i in Learners(w.etcd.list)
    requires AllReady(w.api.mem) && 0 < |Running(w.api.mem)| <= Desired(w)
    ensures var v := if |Running(w.api.mem)| < Desired(w) then After2(w, pick, pick, i) else After3(w, pick, pick, i);
            Back(w, v) && v.etcd == PromoteLearner(w.etcd, i) && v.api == w.api
  {
    Starts(w, pick);
    var c := if |Running(w.api.mem)| < Desired(w) then JoinList else SteadyList;
    assert Next(w, CStart(pick)) == Chosen(w, c);
    PromoteSteps(Chosen(w, c), pick, i);
  }

  /** A dormant member is woken as soon as the target is above zero. */
  lemma DormantWoken(w: World, d: Name)
    requires Scaling(w) && d in DormantIn(w.api.mem) && |Running(w.api.mem)| < Desired(w)
    ensures var v := After1(w, d, d, 0);
            v.api.mem == w.api.mem[d := w.api.mem[d].(dormant := false)] && v.etcd == w.etcd && Back(w, v)
  {
    Starts(w, d);
  }

  // ---- Scale-down ----

  function Taken(w: World, n: Name): Listing
    requires w.cl.status.observed.Some? && n in w.api.mem
  {
    if Desired(w) == 0 && |Running(w.api.mem)| == 1 then w.api.mem[n := w.api.mem[n].(dormant := true)]
    else if w.api.mem[n].finalizer then w.api.mem[n := w.api.mem[n].(deleting := true)]
    else w.api.mem - {n}
  }

  /** Above its target a cluster loses its newest member, or parks the last one when the target is zero. */
  lemma VictimTaken(w: World, n: Name)
    requires Scaling(w) && PendingIn(w.api.mem) == {} && |Running(w.api.mem)| > Desired(w) && IsVictim(w.api.mem, n)
    ensures var v := After1(w, n, n, 0); v.etcd == w.etcd && Back(w, v) && v.api.mem == Taken(w, n)
  {
    Starts(w, n);
  }

  // ---- The target ----

  /** A complete or overdue target gives way to the spec as it stands, with a fresh deadline. */
  lemma TargetAdopted(w: World, pick: Name)
    requires w.cw.ctl == Idle && !w.cl.deleting && w.cl.status.token != "" && w.cl.status.observed.Some?
    requires w.cl.status.clusterID.Some? && !SpecEqualsObserved(w.cl.spec, w.cl.status.observed)
    requires Complete(w.cl.status, w.api.mem) || Expired(w.cl.status, w.now)
    ensures var v := After1(w, pick, pick, 0);
            && v.cl == w.cl.(status := w.cl.status.(observed := Some(Snapshot(w.cl.spec)), deadline := Deadline(w.cl.spec, w.now)))
            && v.api == w.api && v.etcd == w.etcd && v.mw == w.mw && v.now == w.now && v.cw.ctl == Idle
  {
  }

  // ---- Auth ----

  /** One interaction that goes through. */
  function Go(w: World): World {
    Next(w, CStep("", 0, Ok))
  }

  lemma AuthReached(w: World)
    requires Scaling(w) && PendingIn(w.api.mem) == {} && Learners(w.etcd.list) == {}
    requires w.cl.spec.auth && !w.cl.status.authEnabled
    requires 0 < |Running(w.api.mem)| == Desired(w) && AllReady(w.api.mem)
    ensures Go(Next(w, CStart(""))) == At(Chosen(w, SteadyList), AuthProbe)
  {
    Starts(w, "");
    assert Next(w, CStart("")) == Chosen(w, SteadyList);
  }

  lemma UserAndRole(v: World)
    requires v.cw.ctl == AuthProbe && !v.etcd.auth.on
    ensures Go(Go(Go(v))) == At(WithAuth(v, v.etcd.auth.(rootUser := true, rootRole := true)), AuthEnable)
  {
    var v1 := At(v, AuthUser);
    assert Go(v) == v1;
    var v2 := At(WithAuth(v1, v.etcd.auth.(rootUser := true)), AuthGrant);
    assert Go(v1) == v2;
  }

  /** Auth is on in etcd and latched in the status; nothing else differs. */
  ghost predicate AuthLatched(w: World, v: World) {
    && v.cl == w.cl.(status := w.cl.status.(authEnabled := true))
    && v.api == w.api && v.etcd.list == w.etcd.list && v.etcd.auth.on
  }

  lemma EnableAndLatch(v: World)
    requires v.cw.ctl == AuthEnable
    ensures AuthLatched(v, Go(Go(v)))
  {
    var v1 := At(WithAuth(v, v.etcd.auth.(on := true, byOperator := true)), AuthLatch);
    assert Go(v) == v1;
  }

  lemma LatchOnly(v: World)
    requires v.cw.ctl == AuthProbe && v.etcd.auth.on
    ensures AuthLatched(v, Go(Go(v)))
  {
    assert Go(v) == At(v, AuthLatch);
  }

  /** On a converged cluster that asks for auth one reconcile turns it on, root user and role first, or finds it on, and latches it. */
  lemma AuthCompletes(w: World)
    requires Scaling(w) && PendingIn(w.api.mem) == {} && Learners(w.etcd.list) == {}
    requires w.cl.spec.auth && !w.cl.status.authEnabled
    requires 0 < |Running(w.api.mem)| == Desired(w) && AllReady(w.api.mem)
    ensures var v := Go(Next(w, CStart("")));
            AuthLatched(w, if w.etcd.auth.on then Go(Go(v)) else Go(Go(Go(Go(Go(v))))))
  {
    AuthReached(w);
    var v := At(Chosen(w, SteadyList), AuthProbe);
    if w.etcd.auth.on {
      LatchOnly(v);
    } else {
      UserAndRole(v);
      EnableAndLatch(Go(Go(Go(v))));
    }
  }
}
