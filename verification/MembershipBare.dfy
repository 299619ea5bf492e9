/**
 * Deleting a member that does not bear its finalizer yet: the record vanishes at once,
 * no finalizer removes what etcd lists for it, and the guard on releases says nothing.
 * When that leaves an entry without a record beside an active member, exactly.
 */
module MembershipBare {
  import opened Base
  import opened Membership
  import opened MembershipInvariant
  import opened MembershipWorker
  import opened MembershipRecords
  import opened MembershipGhosts
  import opened MembershipRelease
  import opened MembershipRaces
  import MembershipTheorems

  /** etcd lists `m`, no record stands for it, and a live, formed cluster has an active member. */
  ghost predicate Ghost(w: World, m: Name) {
    && m !in w.api.mem && Registered(w.etcd.list, m) && Active(w.api.mem) != {}
    && !w.cl.deleting && w.cl.status.clusterID.Some?
  }

  ghost predicate LeavesGhost(w: World, n: Name, race: seq<Action>) {
    RaceFrom(n, race) && Ghost(Run(w, race), n)
  }

  /** A formed, live cluster with an active member whose finalizer has not been added. */
  ghost predicate Bare(w: World, n: Name) {
    !w.cl.deleting && w.cl.status.clusterID.Some? && n in Active(w.api.mem) && !w.api.mem[n].finalizer
  }

  /** Beside others: the member is in etcd or about to be.  As the last one: it is in etcd and a record may still be created. */
  predicate Exposed(w: World, n: Name) {
    if Others(w.api.mem, n) != {} then Registered(w.etcd.list, n) || Holds(w.cw, n)
    else Registered(w.etcd.list, n) && StillCreates(w.cw, w.etcd.list, w.mw.ctl)
  }

  lemma BareFrame(w: World, n: Name)
    requires Bare(w, n)
    ensures Next(w, ExtDelete(n)) == w.(api := w.api.(mem := w.api.mem - {n}))
    ensures Active(w.api.mem - {n}) == Others(w.api.mem, n)
    ensures Run(w, [ExtDelete(n)]) == Next(w, ExtDelete(n))
  {
    RunSnoc(w, [], ExtDelete(n));
    assert [] + [ExtDelete(n)] == [ExtDelete(n)];
  }

  // ---- It can happen ----

  /** Beside others and already in etcd: at once. */
  lemma GhostAtOnce(w: World, n: Name)
    requires Bare(w, n) && Registered(w.etcd.list, n) && Others(w.api.mem, n) != {}
    ensures LeavesGhost(w, n, [ExtDelete(n)])
  {
    BareFrame(w, n);
  }

  lemma AddsGhost(w: World, n: Name)
    requires w.cw.ctl == JoinAdd(n) && n !in w.api.mem && Active(w.api.mem) != {}
    requires !w.cl.deleting && w.cl.status.clusterID.Some?
    ensures Ghost(Next(w, CStep(n, 0, Ok)), n)
  {
    var v := Next(w, CStep(n, 0, Ok));
    assert v.etcd == AddLearner(w.etcd, n) && v.api == w.api && v.cl == w.cl;
    assert v.etcd.list[w.etcd.nextId].owner == n;
  }

  /** Beside others and about to be registered: the worker does it after the record is gone. */
  lemma GhostAdded(w: World, n: Name) returns (race: seq<Action>)
    requires Bare(w, n) && !Registered(w.etcd.list, n) && Holds(w.cw, n) && Others(w.api.mem, n) != {}
    ensures LeavesGhost(w, n, race)
  {
    BareFrame(w, n);
    race := [ExtDelete(n)];
    var v := Run(w, race);
    if v.cw.ctl.JoinList? {
      RaceList(v, n);
      RunSnoc(w, race, CStep(n, 0, Ok));
      race := race + [CStep(n, 0, Ok)];
    }
    AddsGhost(Run(w, race), n);
    RunSnoc(w, race, CStep(n, 0, Ok));
    race := race + [CStep(n, 0, Ok)];
  }

  /** No finalizer works for a member without one, so its entry is a voter where a create is still to come. */
  lemma BareVotes(w: World, n: Name, i: Id)
    requires Inv(w) && Bare(w, n) && StillCreates(w.cw, w.etcd.list, w.mw.ctl)
    requires i in w.etcd.list && w.etcd.list[i].owner == n
    ensures w.etcd.list[i] == Entry(n, false)
  {
    assert i in Learners(w.etcd.list) ==> Leaving(w.mw.ctl, n, i);
  }

  lemma CreatesGhost(w: World, n: Name, i: Id, x: Name)
    requires Emptied(w, n, i, x) && w.cw.ctl == JoinCreate && n !in w.api.mem && n != x
    ensures Ghost(Next(w, CStep(x, 0, Ok)), n)
  {
    CreatedBeside(w, n, i, x);
    assert x in Active(Next(w, CStep(x, 0, Ok)).api.mem);
  }

  /** As the last active one: a record created afterwards stands beside the entry. */
  lemma GhostStranded(w: World, n: Name, x: Name) returns (race: seq<Action>)
    requires Inv(w) && Sane(w) && Bare(w, n) && x !in w.api.used && Others(w.api.mem, n) == {}
    requires Registered(w.etcd.list, n) && StillCreates(w.cw, w.etcd.list, w.mw.ctl)
    ensures LeavesGhost(w, n, race)
  {
    var i :| i in w.etcd.list && w.etcd.list[i].owner == n;
    BareVotes(w, n, i);
    assert Active(w.api.mem) == {n};
    Empties(w, n, n, i, x);
    BareFrame(w, n);
    var s := CreateReached(Run(w, [ExtDelete(n)]), n, i, x);
    RunConcat(w, [ExtDelete(n)], s);
    CreatesGhost(Run(w, [ExtDelete(n)] + s), n, i, x);
    race := [ExtDelete(n)] + s + [CStep(x, 0, Ok)];
    RunSnoc(w, [ExtDelete(n)] + s, CStep(x, 0, Ok));
  }

  // ---- It cannot happen otherwise ----

  /** etcd does not list `n`, and nobody will add it. */
  ghost predicate Forgotten(w: World, n: Name) {
    n !in w.api.mem && n in w.api.used && !Registered(w.etcd.list, n) && !Holds(w.cw, n)
  }

  lemma ForgottenList(w: World, a: Action, n: Name)
    requires !Registered(w.etcd.list, n) && w.cw.ctl != JoinAdd(n) && ClusterAction(a)
    ensures !Registered(ClusterNext(w, a).etcd.list, n)
  {
    var list' := ClusterNext(w, a).etcd.list;
    forall i | i in list' ensures list'[i].owner != n {
      assert i in w.etcd.list ==> w.etcd.list[i].owner != n;
    }
  }

  lemma ForgottenCluster(w: World, a: Action, n: Name)
    requires Forgotten(w, n) && ClusterAction(a)
    ensures Forgotten(ClusterNext(w, a), n)
  {
    ForgottenList(w, a, n);
  }

  lemma ForgottenOthers(w: World, a: Action, n: Name)
    requires Forgotten(w, n) && !ClusterAction(a)
    ensures Forgotten(Next(w, a), n)
  {
    var v := Next(w, a);
    NobodyCreates(w, a, n);
    if Registered(v.etcd.list, n) {
      var i :| i in v.etcd.list && v.etcd.list[i].owner == n;
      assert i in w.etcd.list ==> w.etcd.list[i].owner != n;
    }
  }

  lemma {:induction false} StaysForgotten(w: World, s: seq<Action>, n: Name)
    requires Forgotten(w, n)
    ensures Forgotten(Run(w, s), n)
  {
    if s != [] {
      StaysForgotten(w, s[..|s| - 1], n);
      var v, a := Run(w, s[..|s| - 1]), s[|s| - 1];
      if ClusterAction(a) {
        ForgottenCluster(v, a, n);
      } else {
        ForgottenOthers(v, a, n);
      }
    }
  }

  /** Nobody is active, and nobody will be. */
  ghost predicate Deserted(w: World) {
    Active(w.api.mem) == {} && w.cl.status.clusterID.Some? && !StillCreates(w.cw, w.etcd.list, w.mw.ctl)
  }

  lemma DesertedStart(w: World, pick: Name)
    requires Deserted(w)
    ensures var v := ClusterStart(w, pick); v.api == w.api && !StillCreates(v.cw, v.etcd.list, v.mw.ctl)
  {
    var v := ClusterStart(w, pick);
    if v.cw != w.cw {
      assert Running(v.cw.snap.list) <= Active(v.cw.snap.list);
      assert !v.cw.ctl.JoinCreate?;
    }
  }

  /** The points at which a record is created, and how the join create is reached. */
  lemma DesertedOk(w: World, x: Name, i: Id)
    requires SnapInv(w.cl, w.now, w.cw) && Deserted(w)
    ensures var v := ClusterOk(w, x, i); Active(v.api.mem) == {} && !StillCreates(v.cw, v.etcd.list, v.mw.ctl)
  {
    assert !w.cw.ctl.JoinCreate? && !w.cw.ctl.SeedCreate?;
    if w.cw.ctl.JoinList? {
      assert ClusterOk(w, x, i) == At(w, AfterJoinList(w.cw.snap, w.etcd.list, x, i));
      assert Learners(w.etcd.list) == {} ==> Running(w.cw.snap.list) == {} || PendingIn(w.cw.snap.list) != {};
    }
  }

  lemma DesertedCluster(w: World, a: Action)
    requires Inv(w) && Deserted(w) && ClusterAction(a)
    ensures var v := ClusterNext(w, a); Active(v.api.mem) == {} && !StillCreates(v.cw, v.etcd.list, v.mw.ctl)
  {
    match a
    case CStart(pick) => DesertedStart(w, pick);
    case CStep(x, i, r) =>
      if r == Ok {
        DesertedOk(w, x, i);
      } else {
        FailFrame(w, r);
        FailCreates(w, r);
      }
    case _ =>
  }

  lemma DesertedFinalizer(w: World, a: Action)
    requires Inv(w) && Deserted(w) && FinalizerAction(a)
    ensures var v := FinalizerNext(w, a); Active(v.api.mem) == {} && !StillCreates(v.cw, v.etcd.list, v.mw.ctl)
  {
    match a
    case MFinResolve(n, i) => ResolveLabels(w, n, i);
    case MFinRemove(n, r) => RemoveLabels(w, n, r);
    case _ =>
  }

  lemma DesertedOthers(w: World, a: Action)
    requires Inv(w) && Deserted(w) && !ClusterAction(a) && !FinalizerAction(a)
    ensures var v := Next(w, a); Active(v.api.mem) == {} && !StillCreates(v.cw, v.etcd.list, v.mw.ctl)
  {
    if RecordAction(a) {
      RecordFewer(w, a);
    }
  }

  lemma {:induction false} StaysDeserted(w: World, s: seq<Action>)
    requires Inv(w) && Deserted(w)
    ensures Inv(Run(w, s)) && Deserted(Run(w, s))
  {
    if s != [] {
      StaysDeserted(w, s[..|s| - 1]);
      var v, a := Run(w, s[..|s| - 1]), s[|s| - 1];
      NextInv(v, a);
      MembershipTheorems.StatusStep(v, a);
      if ClusterAction(a) {
        DesertedCluster(v, a);
      } else if FinalizerAction(a) {
        DesertedFinalizer(v, a);
      } else {
        DesertedOthers(v, a);
      }
    }
  }

  lemma NoGhostOtherwise(w: World, n: Name, race: seq<Action>)
    requires Inv(w) && Bare(w, n) && !Exposed(w, n) && |race| > 0 && race[0] == ExtDelete(n)
    ensures !Ghost(Run(w, race), n)
  {
    BareFrame(w, n);
    NextInv(w, ExtDelete(n));
    var v := Next(w, ExtDelete(n));
    assert race == [ExtDelete(n)] + race[1..];
    RunConcat(w, [ExtDelete(n)], race[1..]);
    if Registered(w.etcd.list, n) || Holds(w.cw, n) {
      assert Active(v.api.mem) == {};
      StaysDeserted(v, race[1..]);
    } else {
      StaysForgotten(v, race[1..], n);
    }
  }

  /**
   * In every reachable state of a live, formed cluster, deleting an active member that has
   * no finalizer yet can end with its entry beside an active member exactly when it is exposed;
   * when it is not, no run that goes on from there does, whatever else users do.
   */
  lemma BareDeletionExactlyWhen(w: World, n: Name, x: Name)
    requires Inv(w) && Sane(w) && Bare(w, n) && x !in w.api.used
    ensures (exists race :: LeavesGhost(w, n, race)) <==> Exposed(w, n)
    ensures !Exposed(w, n) ==> forall s :: !Ghost(Run(w, [ExtDelete(n)] + s), n)
  {
    if Exposed(w, n) {
      var race := [ExtDelete(n)];
      if Others(w.api.mem, n) == {} {
        race := GhostStranded(w, n, x);
      } else if Registered(w.etcd.list, n) {
        GhostAtOnce(w, n);
      } else {
        race := GhostAdded(w, n);
      }
      assert LeavesGhost(w, n, race);
    } else {
      forall s ensures !Ghost(Run(w, [ExtDelete(n)] + s), n) {
        NoGhostOtherwise(w, n, [ExtDelete(n)] + s);
      }
      forall race | RaceFrom(n, race) ensures !Ghost(Run(w, race), n) {
        NoGhostOtherwise(w, n, race);
      }
    }
  }

  lemma GrowsToCreate(w: World, q: Name)
    requires Growing(w, q)
    ensures Run(w, [CStart(q), CStep(q, 0, Ok)]) == At(w.(cw := ClusterWorker(JoinList, Reads(w), 0)), JoinCreate)
  {
    RunSnoc(w, [], CStart(q));
    RunSnoc(w, [] + [CStart(q)], CStep(q, 0, Ok));
    assert [] + [CStart(q)] + [CStep(q, 0, Ok)] == [CStart(q), CStep(q, 0, Ok)];
    GrowStarts(w, q);
    GrowLists(w, q);
  }

  lemma RunTwice(w: World, a: Action)
    ensures Run(w, [a, a]) == Next(Next(w, a), a)
  {
    RunSnoc(w, [], a);
    RunSnoc(w, [] + [a], a);
    assert [] + [a] + [a] == [a, a];
  }

  /** The reconcile that creates a member registers it before any member worker has added the finalizer. */
  lemma JoinsBare(w: World, q: Name, p: Name)
    requires Growing(w, q) && p !in w.api.used
    ensures var v := Run(w, [CStart(q), CStep(q, 0, Ok)] + [CStep(p, 0, Ok), CStep(p, 0, Ok)]);
            && Bare(v, p) && Registered(v.etcd.list, p) && q in Others(v.api.mem, p)
  {
    var s, t := [CStart(q), CStep(q, 0, Ok)], [CStep(p, 0, Ok), CStep(p, 0, Ok)];
    RunConcat(w, s, t);
    GrowsToCreate(w, q);
    RunTwice(Run(w, s), CStep(p, 0, Ok));
    CreatesAndAdds(Run(w, s), p);
    BareBeside(w, Run(w, s + t), q, p);
  }

  lemma BareBeside(w: World, v: World, q: Name, p: Name)
    requires Growing(w, q) && p !in w.api.used && v.cl == w.cl
    requires v.api.mem == w.api.mem[p := NewMember(w.api.stamp, false)]
    ensures Bare(v, p) && q in Others(v.api.mem, p)
  {
    assert q in w.api.mem.Keys;
  }

  lemma CreatesAndAdds(w: World, p: Name)
    requires w.cw.ctl == JoinCreate && p !in w.api.used
    ensures var v := Next(Next(w, CStep(p, 0, Ok)), CStep(p, 0, Ok));
            && v.api.mem == w.api.mem[p := NewMember(w.api.stamp, false)] && v.cl == w.cl
            && Registered(v.etcd.list, p)
  {
    var u := Next(w, CStep(p, 0, Ok));
    assert u.cw.ctl == JoinAdd(p);
    assert AddLearner(u.etcd, p).list[u.etcd.nextId].owner == p;
  }

  /** A run that respects the guard throughout and still ends with a ghost: the joiner goes before its finalizer is added. */
  lemma BareGhostRunExists() returns (w: World, prefix: seq<Action>)
    ensures Init(w) && Guarded(w, prefix + [ExtDelete("b")]) && Ghost(Run(w, prefix + [ExtDelete("b")]), "b")
  {
    w := OneMember("a");
    GrowingExists("a");
    prefix := [CStart("a"), CStep("a", 0, Ok)] + [CStep("b", 0, Ok), CStep("b", 0, Ok)];
    JoinsBare(w, "a", "b");
    GhostAtOnce(Run(w, prefix), "b");
    RunConcat(w, prefix, [ExtDelete("b")]);
    PlainGuarded(w, prefix);
    assert (prefix + [ExtDelete("b")])[..|prefix|] == prefix;
  }
}
