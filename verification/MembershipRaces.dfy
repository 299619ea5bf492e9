/**
 * The guard on deletions is exact: wherever it forbids one, that deletion can lead to
 * the release of a member that etcd still lists, and such states are reached from an
 * ordinary start.
 */
module MembershipRaces {
  import opened Base
  import opened Membership
  import opened MembershipInvariant
  import opened MembershipWorker
  import opened MembershipRecords
  import opened MembershipRevival
  import opened MembershipGhosts
  import opened MembershipRelease

  /** A user deletes `n`, and after that only workers act. */
  ghost predicate RaceFrom(n: Name, race: seq<Action>) {
    |race| > 0 && race[0] == ExtDelete(n) && forall k :: 1 <= k < |race| ==> !UserAction(race[k])
  }

  /** The race reaches a state in which releasing `m` leaves a ghost. */
  ghost predicate LeadsToBadRelease(w: World, n: Name, m: Name, race: seq<Action>) {
    RaceFrom(n, race) && BadRelease(Run(w, race), m)
  }

  // ---- The first part of the guard is exact ----

  /** `q` is an active member of a live, formed cluster, beside `p`. */
  ghost predicate Beside(w: World, p: Name, q: Name) {
    q in Active(w.api.mem) && q != p && !w.cl.deleting && w.cl.status.clusterID.Some?
  }

  /** The finalizer of `p` has reached `c`. */
  ghost predicate RacePoint(w: World, p: Name, q: Name, c: MCtl) {
    Beside(w, p, q) && p in w.api.mem && p in w.mw.ctl && w.mw.ctl[p] == c && p in w.mw.rpcs
  }

  /** Whatever etcd lists for `p` is its only entry. */
  ghost predicate OwnEntry(etcd: Etcd, p: Name) {
    forall i :: i in etcd.list && etcd.list[i].owner == p ==> IdOf(etcd, p, i)
  }

  lemma RaceStart(w: World, p: Name, q: Name)
    requires Beside(w, p, q) && w.api.mem[q].pod
    requires p in w.api.mem && w.api.mem[p].deleting && w.api.mem[p].finalizer && w.api.mem[p].memberID.None?
    ensures var v := Next(Next(w, MCrash(p)), MFinStart(p));
            RacePoint(v, p, q, MResolve) && v.etcd == w.etcd && v.cw == w.cw
  {
    var w2 := w.(mw := w.mw.(ctl := w.mw.ctl - {p}));
    assert Next(w, MCrash(p)) == w2;
    assert q in Others(w2.api.mem, p) && w2.api.mem[q].pod;
    assert Next(w2, MFinStart(p)) == FinAt(w2, p, MResolve);
  }

  lemma RaceAbsent(w: World, p: Name, q: Name)
    requires RacePoint(w, p, q, MResolve) && !Registered(w.etcd.list, p)
    ensures var v := Next(w, MFinResolve(p, 0)); RacePoint(v, p, q, MRelease(Gone)) && v.etcd == w.etcd && v.cw == w.cw
  {
  }

  lemma RacePresent(w: World, p: Name, q: Name, i: Id)
    requires RacePoint(w, p, q, MResolve) && i in w.etcd.list && w.etcd.list[i].owner == p && IdOf(w.etcd, p, i)
    ensures var v := Next(Next(w, MFinResolve(p, i)), MFinRemove(p, Ok));
            RacePoint(v, p, q, MRelease(Gone)) && !Registered(v.etcd.list, p) && v.cw == w.cw
  {
    var w1 := Next(w, MFinResolve(p, i));
    assert w1 == w.(mw := w.mw.(ctl := w.mw.ctl[p := MRemove(i)]));
  }

  lemma RaceList(w: World, p: Name)
    requires w.cw.ctl.JoinList? && p in PendingIn(w.cw.snap.list) && !Registered(w.etcd.list, p)
    ensures Next(w, CStep(p, 0, Ok)) == At(w, JoinAdd(p))
  {
  }

  /** The finalizer has found etcd clean, and the worker registers the member after that. */
  lemma RaceEnd(w: World, p: Name, q: Name)
    requires w.cw.ctl == JoinAdd(p) && RacePoint(w, p, q, MRelease(Gone))
    ensures BadRelease(Next(w, CStep(p, 0, Ok)), p)
  {
    var v := Next(w, CStep(p, 0, Ok));
    assert v.etcd == AddLearner(w.etcd, p) && v.mw == w.mw && v.api == w.api && v.cl == w.cl;
    assert v.etcd.list[w.etcd.nextId].owner == p;
    assert q in Others(v.api.mem, p);
    assert Next(v, MFinRelease(p)).api.mem == v.api.mem - {p};
  }

  lemma RaceAdd(w: World, p: Name, q: Name, s: seq<Action>)
    requires RaceFrom(p, s) && Run(w, s).cw.ctl == JoinAdd(p)
    requires RacePoint(Run(w, s), p, q, MRelease(Gone))
    ensures LeadsToBadRelease(w, p, p, s + [CStep(p, 0, Ok)])
  {
    RaceEnd(Run(w, s), p, q);
    RunSnoc(w, s, CStep(p, 0, Ok));
  }

  lemma RaceFinish(w: World, p: Name, q: Name, s: seq<Action>) returns (race: seq<Action>)
    requires RaceFrom(p, s) && Holds(Run(w, s).cw, p)
    requires RacePoint(Run(w, s), p, q, MRelease(Gone)) && !Registered(Run(w, s).etcd.list, p)
    ensures LeadsToBadRelease(w, p, p, race)
  {
    if Run(w, s).cw.ctl.JoinList? {
      RunSnoc(w, s, CStep(p, 0, Ok));
      RaceList(Run(w, s), p);
      RaceAdd(w, p, q, s + [CStep(p, 0, Ok)]);
      race := s + [CStep(p, 0, Ok)] + [CStep(p, 0, Ok)];
    } else {
      RaceAdd(w, p, q, s);
      race := s + [CStep(p, 0, Ok)];
    }
  }

  lemma RaceSnoc(w: World, p: Name, s: seq<Action>, a: Action)
    requires RaceFrom(p, s) && !UserAction(a)
    ensures RaceFrom(p, s + [a]) && Run(w, s + [a]) == Next(Run(w, s), a)
  {
    RunSnoc(w, s, a);
  }

  /** The finalizer asks etcd for the member, and removes what it finds. */
  lemma RaceResolves(w: World, p: Name, q: Name, s: seq<Action>) returns (race: seq<Action>)
    requires RaceFrom(p, s) && Holds(Run(w, s).cw, p) && RacePoint(Run(w, s), p, q, MResolve)
    requires OwnEntry(Run(w, s).etcd, p)
    ensures LeadsToBadRelease(w, p, p, race)
  {
    var v := Run(w, s);
    if i: Id :| i in v.etcd.list && v.etcd.list[i].owner == p {
      assert IdOf(v.etcd, p, i);
      RacePresent(v, p, q, i);
      RaceSnoc(w, p, s, MFinResolve(p, i));
      RaceSnoc(w, p, s + [MFinResolve(p, i)], MFinRemove(p, Ok));
      race := RaceFinish(w, p, q, s + [MFinResolve(p, i)] + [MFinRemove(p, Ok)]);
    } else {
      RaceAbsent(v, p, q);
      RaceSnoc(w, p, s, MFinResolve(p, 0));
      race := RaceFinish(w, p, q, s + [MFinResolve(p, 0)]);
    }
  }

  /** The member is Terminating, another one can be dialled, and the finalizer runs its course. */
  lemma RaceRuns(w: World, p: Name, q: Name, s: seq<Action>) returns (race: seq<Action>)
    requires RaceFrom(p, s)
    requires var v := Run(w, s);
             && Holds(v.cw, p) && Beside(v, p, q) && v.api.mem[q].pod
             && p in v.api.mem && v.api.mem[p].deleting && v.api.mem[p].finalizer && v.api.mem[p].memberID.None?
             && OwnEntry(v.etcd, p)
    ensures LeadsToBadRelease(w, p, p, race)
  {
    RaceSnoc(w, p, s, MCrash(p));
    RaceSnoc(w, p, s + [MCrash(p)], MFinStart(p));
    RaceStart(Run(w, s), p, q);
    race := RaceResolves(w, p, q, s + [MCrash(p)] + [MFinStart(p)]);
  }

  /** Beside a member being registered, every other one has joined and can be brought up. */
  lemma PeerCanRun(w: World, p: Name, q: Name)
    requires Inv(w) && Sane(w) && Holds(w.cw, p) && p in Active(w.api.mem) && q in Active(w.api.mem) && q != p
    ensures w.cl.status.clusterID.Some? && w.api.mem[p].memberID.None?
    ensures CanRun(w, q) && Registered(w.etcd.list, q)
    ensures OwnEntry(w.etcd, p)
  {
    assert OnlyPending(w.api, w.etcd.list, p);
    assert q !in DormantIn(w.api.mem);
  }

  lemma DeletedFrame(w: World, p: Name, q: Name)
    requires p in w.api.mem && w.api.mem[p].finalizer && CanRun(w, q) && q != p
    ensures var v := Next(w, ExtDelete(p));
            && v == w.(api := w.api.(mem := w.api.mem[p := w.api.mem[p].(deleting := true)])) && CanRun(v, q)
  {
  }

  /** `p` is deleted, its peer is brought up, and the finalizer runs. */
  lemma InterruptedRuns(w: World, p: Name, q: Name) returns (race: seq<Action>)
    requires p in w.api.mem && w.api.mem[p].finalizer && w.api.mem[p].memberID.None? && OwnEntry(w.etcd, p)
    requires Holds(w.cw, p) && Beside(w, p, q) && CanRun(w, q) && Registered(w.etcd.list, q)
    ensures LeadsToBadRelease(w, p, p, race)
  {
    var s1 := [] + [ExtDelete(p)];
    RunSnoc(w, [], ExtDelete(p));
    DeletedFrame(w, p, q);
    var w1 := Run(w, s1);
    var s2, w2 := Revives(w1, q);
    RunConcat(w, s1, s2);
    RaceAppend(p, s1, s2);
    race := RaceRuns(w, p, q, s1 + s2);
  }

  lemma RaceAppend(p: Name, s1: seq<Action>, s2: seq<Action>)
    requires RaceFrom(p, s1) && AllHelpful(s2)
    ensures RaceFrom(p, s1 + s2)
  {
  }

  /**
   * In every reachable state of a live cluster in which the worker is registering a member
   * that bears its finalizer, beside another active one, deleting it can lead to its release
   * while etcd lists it.
   */
  lemma InterruptionLeavesGhost(w: World, p: Name) returns (race: seq<Action>)
    requires Inv(w) && Sane(w) && !w.cl.deleting && Interrupts(w, p)
    ensures LeadsToBadRelease(w, p, p, race)
  {
    var q :| q in Others(w.api.mem, p);
    PeerCanRun(w, p, q);
    race := InterruptedRuns(w, p, q);
  }

  // ---- The race can happen ----

  /** A healthy one-member cluster that has been adopted and is asked for more members. */
  ghost predicate Growing(w: World, q: Name) {
    && AdoptedStart(w) && w.api.mem.Keys == {q} && w.api.mem[q].ready && w.api.mem[q].pod
    && w.cl.status.deadline == None && w.cl.status.observed.value.replicas >= 2
  }

  lemma GrowStarts(w: World, q: Name)
    requires Growing(w, q)
    ensures Next(w, CStart(q)) == w.(cw := ClusterWorker(JoinList, Reads(w), 0))
  {
    var list := w.api.mem;
    assert Running(list) == {q};
    assert PendingIn(list) == {} && DormantIn(list) == {} && !Terminating(list);
    assert AllReady(list);
  }

  lemma GrowLists(w: World, q: Name)
    requires Growing(w, q)
    ensures var v := w.(cw := ClusterWorker(JoinList, Reads(w), 0)); Next(v, CStep(q, 0, Ok)) == At(v, JoinCreate)
  {
    assert q in w.api.mem.Keys;
    assert q in Running(w.api.mem) && PendingIn(w.api.mem) == {};
    assert Learners(w.etcd.list) == {};
  }

  lemma GrowCreates(w: World, p: Name)
    requires w.cw.ctl == JoinCreate && p !in w.api.used
    ensures var v := Next(Next(w, CStep(p, 0, Ok)), MAddFinalizer(p));
            && v.cw.ctl == JoinAdd(p) && v.cl == w.cl && v.mw == w.mw
            && v.api.mem == w.api.mem[p := NewMember(w.api.stamp, false).(finalizer := true)]
  {
  }

  /** From every such start, with a name for the next member, a user's deletion can lead to a bad release. */
  lemma GhostIsReachable(w: World, q: Name, p: Name) returns (prefix: seq<Action>, race: seq<Action>)
    requires Growing(w, q) && p !in w.api.used
    ensures LeadsToBadRelease(Run(w, prefix), p, p, race)
  {
    var s1 := [] + [CStart(q)];
    var s2 := s1 + [CStep(q, 0, Ok)];
    var s3 := s2 + [CStep(p, 0, Ok)];
    prefix := s3 + [MAddFinalizer(p)];
    RunSnoc(w, [], CStart(q));
    RunSnoc(w, s1, CStep(q, 0, Ok));
    RunSnoc(w, s2, CStep(p, 0, Ok));
    RunSnoc(w, s3, MAddFinalizer(p));
    GrowStarts(w, q);
    GrowLists(w, q);
    GrowCreates(Run(w, s2), p);
    RunSane(w, prefix);
    GrownIsHeld(w, Run(w, prefix), q, p);
    race := InterruptionLeavesGhost(Run(w, prefix), p);
  }

  lemma GrownIsHeld(w: World, v: World, q: Name, p: Name)
    requires Growing(w, q) && p !in w.api.used && v.cw.ctl == JoinAdd(p) && v.cl == w.cl && v.mw == w.mw
    requires v.api.mem == w.api.mem[p := NewMember(w.api.stamp, false).(finalizer := true)]
    ensures Interrupts(v, p) && !v.cl.deleting
  {
    assert q in w.api.mem;
    assert q in Others(v.api.mem, p);
  }

  /** Such a start exists. */
  function OneMember(q: Name): World {
    var storage := Storage(1, "", "");
    var spec := Spec(Some(2), "3.6", storage, "", false, None);
    World(ClusterObject(spec, 0, Status("token", Some(0), Some(Target(2, "3.6", storage, "")), None, false), false), 0,
          Records(map[q := Member(0, false, {q}, false, false, true, Some(0), true, true)], {q}, 1, map[q := false]),
          Etcd(map[0 := Entry(q, false)], 1, 0, EtcdAuth(false, false, false, false)),
          ClusterWorker(Idle, Snap(spec, 0, Status("", None, None, None, false), map[], 0), 0),
          MemberWorkers(map[], map[]))
  }

  lemma GrowingExists(q: Name)
    ensures Growing(OneMember(q), q)
  {
    assert OneMember(q).api.mem.Keys == {q};
  }

  /** So there is a run of the operator, with one deletion by a user, that ends with a bad release. */
  lemma GhostRunExists() returns (w: World, prefix: seq<Action>, race: seq<Action>)
    ensures Init(w) && LeadsToBadRelease(Run(w, prefix), "b", "b", race)
  {
    w := OneMember("a");
    GrowingExists("a");
    prefix, race := GhostIsReachable(w, "a", "b");
  }

  // ---- The second part of the guard is exact ----

  /** All records are Terminating, etcd lists `m` as a voter, and the worker may still create `x`. */
  ghost predicate Emptied(w: World, m: Name, i: Id, x: Name) {
    && Active(w.api.mem) == {} && !w.cl.deleting && w.cl.status.clusterID.Some? && x !in w.api.used
    && i in w.etcd.list && w.etcd.list[i] == Entry(m, false)
    && AllRegular(w.api.mem) && x !in w.api.mem
  }

  lemma DeleteShape(api: Records, n: Name)
    ensures var api' := DeleteRecord(api, n);
            && Active(api'.mem) == Active(api.mem) - {n} && api'.used == api.used
            && (AllRegular(api.mem) ==> AllRegular(api'.mem)) && forall m :: m in api'.mem ==> m in api.mem
  {
  }

  lemma Empties(w: World, n: Name, m: Name, i: Id, x: Name)
    requires Names(w.api) && AllRegular(w.api.mem) && x !in w.api.used
    requires StillCreates(w.cw, w.etcd.list, w.mw.ctl) && Active(w.api.mem) == {n}
    requires !w.cl.deleting && w.cl.status.clusterID.Some?
    requires i in w.etcd.list && w.etcd.list[i] == Entry(m, false)
    ensures var v := Next(w, ExtDelete(n));
            && Emptied(v, m, i, x) && StillCreates(v.cw, v.etcd.list, v.mw.ctl)
            && v == w.(api := DeleteRecord(w.api, n))
  {
    DeleteShape(w.api, n);
  }

  /** Entry `l` is gone, and nothing else but the place of a member worker has changed. */
  ghost predicate Dropped(w: World, v: World, l: Id) {
    v.etcd == w.etcd.(list := w.etcd.list - {l}) && v.api == w.api && v.cl == w.cl && v.cw == w.cw
  }

  lemma RemoveShape(w: World, o: Name, l: Id)
    requires o in w.mw.ctl && w.mw.ctl[o] == MRemove(l) && o in w.mw.rpcs && l in w.etcd.list
    ensures Dropped(w, Run(w, [MFinRemove(o, Ok)]), l)
  {
    RunSnoc(w, [], MFinRemove(o, Ok));
    assert [] + [MFinRemove(o, Ok)] == [MFinRemove(o, Ok)];
  }

  lemma ResolveShape(w: World, o: Name, l: Id)
    requires o in w.mw.ctl && w.mw.ctl[o] == MResolve && l in w.etcd.list && w.etcd.list[l].owner == o
    ensures Run(w, [MFinResolve(o, l)]) == w.(mw := w.mw.(ctl := w.mw.ctl[o := MRemove(l)]))
  {
    RunSnoc(w, [], MFinResolve(o, l));
    assert [] + [MFinResolve(o, l)] == [MFinResolve(o, l)];
  }

  lemma RemovalRuns(w: World, o: Name, l: Id) returns (s: seq<Action>)
    requires l in w.etcd.list && w.etcd.list[l].owner == o && Leaving(w.mw.ctl, o, l) && o in w.mw.rpcs
    ensures Dropped(w, Run(w, s), l) && NoUser(s)
  {
    if w.mw.ctl[o] == MResolve {
      var u := w.(mw := w.mw.(ctl := w.mw.ctl[o := MRemove(l)]));
      ResolveShape(w, o, l);
      RemoveShape(u, o, l);
      RunConcat(w, [MFinResolve(o, l)], [MFinRemove(o, Ok)]);
      s := [MFinResolve(o, l)] + [MFinRemove(o, Ok)];
    } else {
      RemoveShape(w, o, l);
      s := [MFinRemove(o, Ok)];
    }
  }

  /** The learner in the way, if there is one, is gone once its finalizer has run. */
  lemma LearnerGoes(w: World, m: Name, i: Id, x: Name, l: Id) returns (s: seq<Action>)
    requires OneLearner(w.etcd.list) && MemberRpcs(w.mw)
    requires Emptied(w, m, i, x) && l in Learners(w.etcd.list) && Leaving(w.mw.ctl, w.etcd.list[l].owner, l)
    ensures var v := Run(w, s); Emptied(v, m, i, x) && v.api == w.api && v.cw == w.cw && Learners(v.etcd.list) == {}
    ensures NoUser(s)
  {
    s := RemovalRuns(w, w.etcd.list[l].owner, l);
    var v := Run(w, s);
    assert forall j :: j in Learners(v.etcd.list) ==> j in Learners(w.etcd.list) && j != l;
  }

  lemma ListsToCreate(w: World, x: Name)
    requires w.cw.ctl.JoinList? && Running(w.cw.snap.list) != {} && PendingIn(w.cw.snap.list) == {} && Learners(w.etcd.list) == {}
    ensures Next(w, CStep(x, 0, Ok)) == At(w, JoinCreate)
  {
  }

  /** The worker reaches the create. */
  lemma CreateReached(w: World, m: Name, i: Id, x: Name) returns (s: seq<Action>)
    requires OneLearner(w.etcd.list) && MemberRpcs(w.mw)
    requires Emptied(w, m, i, x) && StillCreates(w.cw, w.etcd.list, w.mw.ctl)
    ensures var v := Run(w, s); Emptied(v, m, i, x) && v.api == w.api && v.cw.ctl == JoinCreate
    ensures NoUser(s)
  {
    s := [];
    if w.cw.ctl.JoinList? {
      if l :| l in Learners(w.etcd.list) {
        s := LearnerGoes(w, m, i, x, l);
      }
      ListsToCreate(Run(w, s), x);
      RunSnoc(w, s, CStep(x, 0, Ok));
      s := s + [CStep(x, 0, Ok)];
    }
  }

  /** A Terminating member that finds nobody else is let go, and the worker's new record appears before it is. */
  lemma LetGoAlone(w: World, m: Name, i: Id, x: Name)
    requires Emptied(w, m, i, x) && m in w.api.mem && w.cw.ctl == JoinCreate
    ensures var v := Next(Next(w, MCrash(m)), MFinStart(m));
            Emptied(v, m, i, x) && v.api == w.api && v.cw == w.cw && m in v.mw.ctl && v.mw.ctl[m] == MRelease(Alone)
  {
    assert m !in Active(w.api.mem);
    assert Others(w.api.mem, m) == {};
  }

  lemma CreatedBeside(w: World, m: Name, i: Id, x: Name)
    requires Emptied(w, m, i, x) && w.cw.ctl == JoinCreate
    ensures var v := Next(w, CStep(x, 0, Ok));
            && v.api.mem == w.api.mem[x := NewMember(w.api.stamp, false)] && v.etcd == w.etcd && v.cl == w.cl && v.mw == w.mw
  {
  }

  lemma ReleasedBeside(v: World, m: Name, i: Id, x: Name)
    requires m in v.api.mem && m != x && x in v.api.mem && !v.api.mem[x].deleting && m in v.mw.ctl && v.mw.ctl[m].MRelease?
    requires i in v.etcd.list && v.etcd.list[i].owner == m && !v.cl.deleting && v.cl.status.clusterID.Some?
    ensures BadRelease(v, m)
  {
    assert Next(v, MFinRelease(m)).api.mem == v.api.mem - {m};
    assert x in Others(v.api.mem, m);
  }

  /** The member was let go before the new record appeared, and is released after it. */
  lemma GhostReleased(w: World, m: Name, i: Id, x: Name) returns (s: seq<Action>)
    requires Emptied(w, m, i, x) && w.cw.ctl == JoinCreate && m in w.api.mem
    ensures BadRelease(Run(w, s), m) && NoUser(s)
  {
    var s1 := [] + [MCrash(m)];
    var s2 := s1 + [MFinStart(m)];
    RunSnoc(w, [], MCrash(m));
    RunSnoc(w, s1, MFinStart(m));
    LetGoAlone(w, m, i, x);
    s := s2 + [CStep(x, 0, Ok)];
    RunSnoc(w, s2, CStep(x, 0, Ok));
    CreatedBeside(Run(w, s2), m, i, x);
    ReleasedBeside(Run(w, s), m, i, x);
  }

  lemma StrandedRace(w: World, s1: seq<Action>, m: Name, i: Id, x: Name) returns (race: seq<Action>)
    requires var v := Run(w, s1);
             && Emptied(v, m, i, x) && StillCreates(v.cw, v.etcd.list, v.mw.ctl) && m in v.api.mem
             && OneLearner(v.etcd.list) && MemberRpcs(v.mw)
    ensures s1 <= race && BadRelease(Run(w, race), m) && NoUser(race[|s1|..])
  {
    var s2 := CreateReached(Run(w, s1), m, i, x);
    RunConcat(w, s1, s2);
    var s3 := GhostReleased(Run(w, s1 + s2), m, i, x);
    RunConcat(w, s1 + s2, s3);
    race := s1 + s2 + s3;
  }

  /**
   * In every reachable state of a live cluster in which the guard forbids deleting the last
   * active member, deleting it can lead to the release of a registered member beside the new one.
   */
  lemma StrandingLeavesGhost(w: World, n: Name, x: Name) returns (m: Name, race: seq<Action>)
    requires Inv(w) && Sane(w) && Strands(w, n) && !w.cl.deleting && x !in w.api.used
    ensures LeadsToBadRelease(w, n, m, race)
  {
    var i :| i in Voters(w.etcd.list) && w.etcd.list[i].owner in DeleteRecord(w.api, n).mem;
    m := w.etcd.list[i].owner;
    var s1 := [] + [ExtDelete(n)];
    RunSnoc(w, [], ExtDelete(n));
    Empties(w, n, m, i, x);
    race := StrandedRace(w, s1, m, i, x);
    assert forall k :: 1 <= k < |race| ==> race[k] == race[|s1|..][k - 1];
  }

  /** Wherever the guard forbids a deletion in a live cluster, that deletion can lead to a bad release. */
  lemma GuardIsExact(w: World, n: Name, x: Name) returns (m: Name, race: seq<Action>)
    requires Inv(w) && Sane(w) && !w.cl.deleting && x !in w.api.used
    requires !Allowed(w, ExtDelete(n))
    ensures LeadsToBadRelease(w, n, m, race)
  {
    if Strands(w, n) {
      m, race := StrandingLeavesGhost(w, n, x);
    } else {
      m := n;
      race := InterruptionLeavesGhost(w, n);
    }
  }

  /** From an ordinary start, an undisturbed reconcile reaches such a state, and the race leads to a bad release. */
  lemma StrandRunExists() returns (w: World, prefix: seq<Action>, m: Name, race: seq<Action>)
    ensures Init(w) && Guarded(w, prefix) && LeadsToBadRelease(Run(w, prefix), "a", m, race)
  {
    w := OneMember("a");
    GrowingExists("a");
    var s1 := [] + [CStart("a")];
    prefix := s1 + [CStep("a", 0, Ok)];
    RunSnoc(w, [], CStart("a"));
    RunSnoc(w, s1, CStep("a", 0, Ok));
    GrowStarts(w, "a");
    GrowLists(w, "a");
    RunSane(w, prefix);
    PlainGuarded(w, prefix);
    GrownStrands(w, Run(w, prefix), "a");
    m, race := StrandingLeavesGhost(Run(w, prefix), "a", "b");
  }

  lemma {:induction false} PlainGuarded(w: World, s: seq<Action>)
    requires forall i :: 0 <= i < |s| ==> !s[i].ExtDelete?
    ensures Guarded(w, s)
  {
    if s != [] {
      PlainGuarded(w, s[..|s| - 1]);
    }
  }

  lemma GrownStrands(w: World, v: World, q: Name)
    requires Growing(w, q) && w.api.mem[q].finalizer && v == At(w.(cw := ClusterWorker(JoinList, Reads(w), 0)), JoinCreate)
    ensures Strands(v, q)
  {
    assert q in w.api.mem.Keys;
    assert Active(v.api.mem) == {q};
    var i := w.api.mem[q].memberID.value;
    assert i in Voters(v.etcd.list) && q in DeleteRecord(v.api, q).mem;
  }
}
