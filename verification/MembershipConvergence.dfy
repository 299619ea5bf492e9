/**
 * Convergence.  When users stop editing and calls go through, some finite sequence
 * of reconciles and member steps takes a formed cluster to its spec, from whatever
 * state crashes and deletions left it in.
 */
module MembershipConvergence {
  import opened Base
  import opened Membership
  import opened MembershipInvariant
  import opened MembershipWorker
  import opened MembershipRecords
  import opened MembershipProgress
  import opened MembershipRevival

  // ---- The state of the campaign ----

  predicate Mature(m: Member) {
    !m.deleting && m.initialCluster != {}
  }

  /** Between two reconciles of a live, formed cluster. */
  ghost predicate Formed(w: World) {
    && Inv(w) && Sane(w) && w.cw.ctl == Idle && !w.cl.deleting && w.cl.status.clusterID.Some?
    && w.cl.spec.deadlineSeconds != Some(0)
  }

  /** Some active member has joined, and no Terminating one had its removal forgotten. */
  ghost predicate Recoverable(w: World) {
    && (exists q :: q in w.api.mem && Mature(w.api.mem[q]))
    && forall m :: m in w.api.mem && w.api.mem[m].deleting ==> CanLeave(w, m)
  }

  /** The deadline has passed, the spec has nothing new, and the worker itself is needed. */
  ghost predicate Frozen(w: World) {
    && Expired(w.cl.status, w.now) && SpecEqualsObserved(w.cl.spec, w.cl.status.observed)
    && (|Running(w.api.mem)| != Desired(w) || PendingIn(w.api.mem) != {})
  }

  function Terminal(mem: Listing): set<Name> {
    set n | n in mem && mem[n].deleting
  }

  /** Running members with a flag that are not Ready. */
  function Unready(mem: Listing): set<Name> {
    set n | n in Running(mem) && mem[n].initialCluster != {} && !mem[n].ready
  }

  function Distance(w: World): nat
    requires w.cl.status.observed.Some?
  {
    var n, d := |Running(w.api.mem)|, Desired(w);
    if n < d then d - n else n - d
  }

  function Behind(w: World): nat {
    if SpecEqualsObserved(w.cl.spec, w.cl.status.observed) then 0 else 1
  }

  /** Half-made members that etcd does not list yet. */
  function Unregistered(mem: Listing, list: EntryList): set<Name> {
    set n | n in PendingIn(mem) && !Registered(list, n)
  }

  /**
   * How far a cluster is from its spec: is the spec adopted, how far is the count from the
   * target, how many members are leaving, half-made, not yet in etcd, learners, not Ready.
   */
  datatype Rank = Rank(behind: nat, distance: nat, leaving: nat, pending: nat, unregistered: nat, learners: nat, unready: nat)

  function RankOf(w: World): Rank
    requires w.cl.status.observed.Some?
  {
    Rank(Behind(w), Distance(w), |Terminal(w.api.mem)|, |PendingIn(w.api.mem)|, |Unregistered(w.api.mem, w.etcd.list)|,
         |Learners(w.etcd.list)|, |Unready(w.api.mem)|)
  }

  /** Lexicographic order. */
  predicate Lower(a: Rank, b: Rank) {
    if a.behind != b.behind then a.behind < b.behind
    else if a.distance != b.distance then a.distance < b.distance
    else if a.leaving != b.leaving then a.leaving < b.leaving
    else if a.pending != b.pending then a.pending < b.pending
    else if a.unregistered != b.unregistered then a.unregistered < b.unregistered
    else if a.learners != b.learners then a.learners < b.learners
    else a.unready < b.unready
  }

  lemma OwnsIds(w: World, m: Name)
    requires Inv(w) && m in w.api.mem
    ensures OwnIds(w, m)
  {
  }

  ghost predicate Camp(w: World) {
    Formed(w) && Recoverable(w) && !Frozen(w)
  }

  lemma FormedStays(w: World, s: seq<Action>, v: World)
    requires Inv(w) && Sane(w) && Reaches(w, s, v)
    ensures Inv(v) && Sane(v)
  {
    StaysSane(w, s);
  }

  // ---- Phase: bring a member up ----

  lemma OnlyAtSets(w: World, v: World, q: Name)
    requires OnlyAt(w, v, q) && q in w.api.mem && v.api.mem[q].ready
    ensures Running(v.api.mem) == Running(w.api.mem) && PendingIn(v.api.mem) == PendingIn(w.api.mem)
    ensures Terminal(v.api.mem) == Terminal(w.api.mem) && Active(v.api.mem) == Active(w.api.mem)
    ensures Unready(v.api.mem) == Unready(w.api.mem) - {q}
  {
  }

  lemma OnlyAtRecoverable(w: World, v: World, q: Name)
    requires OnlyAt(w, v, q) && Recoverable(w) && q in w.api.mem && !w.api.mem[q].deleting
    ensures Recoverable(v)
  {
    var r :| r in w.api.mem && Mature(w.api.mem[r]);
    assert Mature(v.api.mem[r]);
    forall m | m in v.api.mem && v.api.mem[m].deleting ensures CanLeave(v, m) {
      assert m != q && CanLeave(w, m);
    }
  }

  lemma CanRunThen(w: World, q: Name)
    requires Formed(w) && q in w.api.mem && Mature(w.api.mem[q]) && !w.api.mem[q].dormant
    ensures CanRun(w, q) && Registered(w.etcd.list, q)
  {
    assert q in Active(w.api.mem);
  }

  lemma BringUp(w: World, q: Name) returns (s: seq<Action>, v: World)
    requires Camp(w) && q in w.api.mem && Mature(w.api.mem[q]) && !w.api.mem[q].dormant
    ensures Reaches(w, s, v) && OnlyAt(w, v, q) && v.api.mem[q].ready && v.api.mem[q].pod && Camp(v)
  {
    CanRunThen(w, q);
    s, v := Revives(w, q);
    FormedStays(w, s, v);
    OnlyAtSets(w, v, q);
    OnlyAtRecoverable(w, v, q);
  }

  // ---- Phase: see a Terminating member off ----

  lemma LeftSets(w: World, v: World, m: Name)
    requires Left(w, v, m) && m in w.api.mem && w.api.mem[m].deleting
    ensures Running(v.api.mem) == Running(w.api.mem) && PendingIn(v.api.mem) == PendingIn(w.api.mem)
    ensures Terminal(v.api.mem) == Terminal(w.api.mem) - {m}
  {
  }

  lemma LeftRecoverable(w: World, v: World, m: Name)
    requires Inv(w) && Left(w, v, m) && Recoverable(w) && m in w.api.mem && w.api.mem[m].deleting
    ensures Recoverable(v)
  {
    var r :| r in w.api.mem && Mature(w.api.mem[r]);
    assert Mature(v.api.mem[r]);
    forall k | k in v.api.mem && v.api.mem[k].deleting ensures CanLeave(v, k) {
      assert k != m && CanLeave(w, k);
      OwnsIds(w, k);
    }
  }

  lemma SeeOff(w: World) returns (s: seq<Action>, v: World)
    requires Camp(w) && Terminal(w.api.mem) != {}
    ensures Reaches(w, s, v) && Camp(v) && v.cl == w.cl
    ensures Running(v.api.mem) == Running(w.api.mem) && Terminal(v.api.mem) < Terminal(w.api.mem)
  {
    var m :| m in Terminal(w.api.mem);
    var q :| q in w.api.mem && Mature(w.api.mem[q]);
    assert !w.api.mem[q].dormant by {
      assert q in DormantIn(w.api.mem) ==> m in {q};
    }
    var s1, v1 := BringUp(w, q);
    OnlyAtSets(w, v1, q);
    assert CanLeave(v1, m) && q in Active(v1.api.mem);
    OwnsIds(v1, m);
    var s2, v2 := Leaves(v1, m, q);
    ReachesAll(w, s1, v1, s2, v2);
    s, v := s1 + s2, v2;
    FormedStays(v1, s2, v2);
    LeftSets(v1, v2, m);
    LeftRecoverable(v1, v2, m);
    assert m !in Terminal(v2.api.mem);
  }

  // ---- Phase: adopt the spec ----

  lemma Reaches2(w: World, a: Action, b: Action)
    requires Helpful(a) && Helpful(b)
    ensures Reaches(w, [a, b], Next(Next(w, a), b))
  {
    ReachesNext(w, [], w, a);
    assert [] + [a] == [a];
    ReachesNext(w, [a], Next(w, a), b);
    assert [a] + [b] == [a, b];
  }

  lemma Adopts(w: World) returns (s: seq<Action>, v: World)
    requires w.cw.ctl == Idle && !w.cl.deleting && StatusSane(w.cl.status) && w.cl.status.clusterID.Some? && Due(w)
    requires w.cl.spec.deadlineSeconds != Some(0)
    ensures Reaches(w, s, v) && v.api == w.api && v.etcd == w.etcd && v.mw == w.mw && v.now == w.now && v.cw.ctl == Idle
    ensures v.cl == w.cl.(status := v.cl.status) && v.cl.status.clusterID.Some?
    ensures SpecEqualsObserved(v.cl.spec, v.cl.status.observed) && !Expired(v.cl.status, v.now)
  {
    TargetAdopted(w, "");
    s, v := [CStart(""), CStep("", 0, Ok)], After1(w, "", "", 0);
    Reaches2(w, CStart(""), CStep("", 0, Ok));
  }

  lemma Adopt(w: World) returns (s: seq<Action>, v: World)
    requires Camp(w) && Due(w)
    ensures Reaches(w, s, v) && Camp(v) && Behind(v) < Behind(w) && v.cl.spec == w.cl.spec
  {
    s, v := Adopts(w);
    FormedStays(w, s, v);
    SameRecoverable(w, v);
  }

  lemma SameRecoverable(w: World, v: World)
    requires Recoverable(w) && v.api.mem == w.api.mem && v.etcd.list == w.etcd.list && v.mw == w.mw
    ensures Recoverable(v)
  {
    var q :| q in w.api.mem && Mature(w.api.mem[q]);
    assert q in v.api.mem && Mature(v.api.mem[q]);
    forall m | m in v.api.mem && v.api.mem[m].deleting ensures CanLeave(v, m) {
      assert CanLeave(w, m);
    }
  }

  // ---- Phases of the cluster worker ----

  lemma Reaches3(w: World, a: Action, b: Action)
    requires Helpful(a) && Helpful(b)
    ensures Reaches(w, [a, b, b], Next(Next(Next(w, a), b), b))
  {
    Reaches2(w, a, b);
    ReachesNext(w, [a, b], Next(Next(w, a), b), b);
    assert [a, b] + [b] == [a, b, b];
  }

  lemma Reaches4(w: World, a: Action, b: Action)
    requires Helpful(a) && Helpful(b)
    ensures Reaches(w, [a, b, b, b], Next(Next(Next(Next(w, a), b), b), b))
  {
    Reaches3(w, a, b);
    ReachesNext(w, [a, b, b], Next(Next(Next(w, a), b), b), b);
    assert [a, b, b] + [b] == [a, b, b, b];
  }

  lemma Reaches5(w: World, a: Action, b: Action)
    requires Helpful(a) && Helpful(b)
    ensures Reaches(w, [a, b, b, b, b], Next(Next(Next(Next(Next(w, a), b), b), b), b))
  {
    Reaches4(w, a, b);
    ReachesNext(w, [a, b, b, b], Next(Next(Next(Next(w, a), b), b), b), b);
    assert [a, b, b, b] + [b] == [a, b, b, b, b];
  }

  /** Every running member has joined, or is the pending one. */
  lemma RunningFlagged(w: World)
    requires Formed(w)
    ensures forall n :: n in Running(w.api.mem) && n !in PendingIn(w.api.mem) ==> w.api.mem[n].initialCluster != {}
    ensures forall n :: n in PendingIn(w.api.mem) ==> !w.api.mem[n].ready
  {
    forall n | n in Running(w.api.mem) ensures n in Active(w.api.mem) {}
  }

  /** With nobody leaving and nobody behind, either the target is due for a change or the worker can scale. */
  lemma CanScale(w: World)
    requires Camp(w) && Terminal(w.api.mem) == {} && Unready(w.api.mem) == {}
    requires SpecEqualsObserved(w.cl.spec, w.cl.status.observed)
             || !(Complete(w.cl.status, w.api.mem) || Expired(w.cl.status, w.now))
    ensures Scaling(w)
    ensures PendingIn(w.api.mem) == {} ==> AllReady(w.api.mem)
  {
    RunningFlagged(w);
    assert !Terminating(w.api.mem) by {
      assert forall n :: n in w.api.mem ==> n !in Terminal(w.api.mem);
    }
    if PendingIn(w.api.mem) == {} {
      forall n | n in Running(w.api.mem) ensures w.api.mem[n].ready {
        assert n !in Unready(w.api.mem);
      }
    }
  }

  /** The campaign goes on after steps that leave the cluster object alone. */
  lemma CampAfter(w: World, s: seq<Action>, v: World)
    requires Camp(w) && Reaches(w, s, v) && v.cl == w.cl && v.now == w.now && v.cw.ctl == Idle && Recoverable(v)
    requires !Expired(w.cl.status, w.now)
             || (Running(v.api.mem) == Running(w.api.mem) && PendingIn(v.api.mem) == PendingIn(w.api.mem))
    ensures Camp(v)
  {
    FormedStays(w, s, v);
  }

  lemma NobodyLeaving(v: World, q: Name)
    requires q in v.api.mem && Mature(v.api.mem[q]) && Terminal(v.api.mem) == {}
    ensures Recoverable(v)
  {
    assert forall m :: m in v.api.mem ==> m !in Terminal(v.api.mem);
  }

  lemma FlagSets(mem: Listing, mem': Listing, p: Name)
    requires OnlyFlag(mem, mem', p) && p in PendingIn(mem) && mem'[p].initialCluster != {}
    ensures Running(mem') == Running(mem) && Terminal(mem') == Terminal(mem) && PendingIn(mem') == PendingIn(mem) - {p}
  {
  }

  lemma FinishPending(w: World, p: Name) returns (s: seq<Action>, v: World)
    requires Camp(w) && Scaling(w) && p in PendingIn(w.api.mem)
    ensures Reaches(w, s, v) && Camp(v) && v.cl == w.cl
    ensures Running(v.api.mem) == Running(w.api.mem) && Terminal(v.api.mem) == Terminal(w.api.mem)
    ensures PendingIn(v.api.mem) < PendingIn(w.api.mem)
  {
    RunningFlagged(w);
    AwakeBeside(w, p);
    PendingCompleted(w, p);
    var a, b := CStart(p), CStep(p, 0, Ok);
    if Registered(w.etcd.list, p) {
      s, v := [a, b, b], After2(w, p, p, 0);
      Reaches3(w, a, b);
    } else {
      s, v := [a, b, b, b], After3(w, p, p, 0);
      Reaches4(w, a, b);
    }
    FlagSets(w.api.mem, v.api.mem, p);
    NotTerminating(w);
    NobodyLeaving(v, p);
    CampAfter(w, s, v);
  }

  lemma AwakeBeside(w: World, p: Name)
    requires Formed(w) && p in Running(w.api.mem)
    ensures DormantIn(w.api.mem) == {}
  {
    assert forall d :: d in DormantIn(w.api.mem) ==> p in {d};
  }

  lemma NotTerminating(w: World)
    requires Scaling(w)
    ensures Terminal(w.api.mem) == {}
  {
  }

  lemma Wakes(w: World, d: Name) returns (s: seq<Action>, v: World)
    requires Camp(w) && Scaling(w) && d in DormantIn(w.api.mem) && Desired(w) > 0 && !Complete(w.cl.status, w.api.mem)
    ensures Reaches(w, s, v) && Camp(v) && v.cl == w.cl && Distance(v) < Distance(w)
  {
    assert Running(w.api.mem) == {};
    DormantWoken(w, d);
    s, v := [CStart(d), CStep(d, 0, Ok)], After1(w, d, d, 0);
    Reaches2(w, CStart(d), CStep(d, 0, Ok));
    NotTerminating(w);
    var q :| q in w.api.mem && Mature(w.api.mem[q]);
    assert q in w.api.mem.Keys;
    WakeSets(w.api.mem, d);
    NobodyLeaving(v, d);
    CampAfter(w, s, v);
  }

  lemma WakeSets(mem: Listing, d: Name)
    requires mem.Keys == {d} && !mem[d].deleting
    ensures var mem' := mem[d := mem[d].(dormant := false)]; Running(mem') == {d} && Terminal(mem') == {}
  {
    var mem' := mem[d := mem[d].(dormant := false)];
    assert mem'.Keys == {d};
  }

  lemma PromoteRuns(w: World, i: Id) returns (s: seq<Action>, v: World)
    requires Scaling(w) && PendingIn(w.api.mem) == {} && DormantIn(w.api.mem) == {} && AllReady(w.api.mem)
    requires i in Learners(w.etcd.list) && 0 < |Running(w.api.mem)| <= Desired(w)
    ensures Reaches(w, s, v) && Back(w, v) && v.api == w.api && v.etcd == PromoteLearner(w.etcd, i)
  {
    LearnerPromoted(w, "", i);
    var a, b := CStart(""), CStep("", i, Ok);
    if |Running(w.api.mem)| < Desired(w) {
      s, v := [a, b, b], After2(w, "", "", i);
      Reaches3(w, a, b);
    } else {
      s, v := [a, b, b, b], After3(w, "", "", i);
      Reaches4(w, a, b);
    }
  }

  lemma Promotes(w: World, i: Id) returns (s: seq<Action>, v: World)
    requires Camp(w) && Scaling(w) && PendingIn(w.api.mem) == {} && AllReady(w.api.mem) && i in Learners(w.etcd.list)
    requires 0 < |Running(w.api.mem)| <= Desired(w)
    ensures Reaches(w, s, v) && Camp(v) && v.cl == w.cl && v.api == w.api && Learners(v.etcd.list) < Learners(w.etcd.list)
    ensures Unregistered(v.api.mem, v.etcd.list) == Unregistered(w.api.mem, w.etcd.list)
  {
    var r :| r in Running(w.api.mem);
    AwakeBeside(w, r);
    s, v := PromoteRuns(w, i);
    PromotedSets(w.etcd, i);
    NotTerminating(w);
    var q :| q in w.api.mem && Mature(w.api.mem[q]);
    NobodyLeaving(v, q);
    CampAfter(w, s, v);
  }

  lemma PromotedSets(etcd: Etcd, i: Id)
    requires i in Learners(etcd.list)
    ensures Learners(PromoteLearner(etcd, i).list) == Learners(etcd.list) - {i}
    ensures forall n :: Registered(PromoteLearner(etcd, i).list, n) <==> Registered(etcd.list, n)
  {
    var list' := PromoteLearner(etcd, i).list;
    forall n ensures Registered(list', n) <==> Registered(etcd.list, n) {
      if j :| j in etcd.list && etcd.list[j].owner == n {
        assert list'[j].owner == n;
      }
    }
  }

  // ---- A fresh name ----

  lemma {:induction false} LongerThanAll(names: set<Name>) returns (k: nat)
    ensures forall n :: n in names ==> |n| < k
    decreases names
  {
    if names == {} {
      k := 0;
    } else {
      var n :| n in names;
      var j := LongerThanAll(names - {n});
      k := if |n| < j then j else |n| + 1;
    }
  }

  lemma FreshName(used: set<Name>) returns (x: Name)
    ensures x !in used
  {
    var k := LongerThanAll(used);
    x := seq(k, _ => 'x');
  }

  lemma JoinRun(w: World) returns (s: seq<Action>, v: World, x: Name)
    requires Names(w.api) && Scaling(w) && PendingIn(w.api.mem) == {} && DormantIn(w.api.mem) == {} && AllReady(w.api.mem)
    requires Learners(w.etcd.list) == {} && 0 < |Running(w.api.mem)| < Desired(w)
    ensures Reaches(w, s, v) && Back(w, v) && JoinerReady(v, x) && x !in w.api.mem
    ensures v.api.mem == w.api.mem[x := NewMember(w.api.stamp, false).(initialCluster := Owners(v.etcd.list))]
  {
    x := FreshName(w.api.used);
    assert x !in w.api.mem;
    MemberJoins(w, "", x);
    var a, b := CStart(""), CStep(x, 0, Ok);
    s, v := [a, b, b, b, b], After4(w, "", x, 0);
    JoinRuns(w, x);
  }

  lemma Joins(w: World) returns (s: seq<Action>, v: World)
    requires Camp(w) && Scaling(w) && PendingIn(w.api.mem) == {} && AllReady(w.api.mem) && Learners(w.etcd.list) == {}
    requires 0 < |Running(w.api.mem)| < Desired(w)
    ensures Reaches(w, s, v) && Camp(v) && v.cl == w.cl && Distance(v) < Distance(w)
  {
    var r :| r in Running(w.api.mem);
    AwakeBeside(w, r);
    var x;
    s, v, x := JoinRun(w);
    NotTerminating(w);
    JoinSets(w.api.mem, x, v.api.mem[x]);
    NobodyLeaving(v, x);
    CampAfter(w, s, v);
  }

  lemma JoinSets(mem: Listing, x: Name, m: Member)
    requires x !in mem && !m.deleting && !m.dormant
    ensures var mem' := mem[x := m];
            Running(mem') == Running(mem) + {x} && Terminal(mem') == Terminal(mem) && |Running(mem')| == |Running(mem)| + 1
  {
    assert x !in Running(mem);
  }

  lemma JoinRuns(w: World, x: Name)
    ensures Reaches(w, [CStart(""), CStep(x, 0, Ok), CStep(x, 0, Ok), CStep(x, 0, Ok), CStep(x, 0, Ok)], After4(w, "", x, 0))
  {
    Reaches5(w, CStart(""), CStep(x, 0, Ok));
  }

  // ---- Phase: scale down ----

  lemma {:induction false} NewestExists(mem: Listing, names: set<Name>) returns (v: Name)
    requires names != {} && forall n :: n in names ==> n in mem
    ensures v in names && forall n :: n in names ==> mem[n].created <= mem[v].created
    decreases names
  {
    v :| v in names;
    if names != {v} {
      var t := NewestExists(mem, names - {v});
      if mem[v].created < mem[t].created {
        v := t;
      }
    }
  }

  lemma VictimExists(api: Records) returns (v: Name)
    requires Names(api) && Running(api.mem) != {}
    ensures IsVictim(api.mem, v)
  {
    v := NewestExists(api.mem, Running(api.mem));
    StringLeqTotal(v, v);
    assert forall n :: n in Running(api.mem) && api.mem[n].created == api.mem[v].created ==> n == v;
  }

  lemma TwoRunning(a: set<Name>, n: Name) returns (r: Name)
    requires n in a && |a| >= 2
    ensures r in a && r != n
  {
    assert |a - {n}| == |a| - 1;
    r :| r in a - {n};
  }

  lemma TakenSets(w: World, n: Name)
    requires w.cl.status.observed.Some? && n in Running(w.api.mem)
    ensures var mem' := Taken(w, n);
            && Running(mem') == Running(w.api.mem) - {n} && |Running(mem')| == |Running(w.api.mem)| - 1
            && Terminal(mem') <= Terminal(w.api.mem) + {n}
            && forall r :: r in w.api.mem && r != n ==> r in mem' && mem'[r] == w.api.mem[r]
  {
    var mem' := Taken(w, n);
    assert Running(mem') == Running(w.api.mem) - {n};
  }

  /** A Ready member that is asked to leave can. */
  lemma VictimCanLeave(w: World, v: World, n: Name)
    requires Inv(w) && Sane(w) && n in Running(w.api.mem) && w.api.mem[n].ready && w.cl.status.clusterID.Some?
    requires v.api.mem == w.api.mem[n := w.api.mem[n].(deleting := true)] && w.api.mem[n].finalizer
    requires v.etcd == w.etcd && v.mw == w.mw
    ensures CanLeave(v, n)
  {
    var i := w.api.mem[n].memberID.value;
    assert n in Active(w.api.mem) && w.api.mem[n].initialCluster != {};
    var j :| j in w.etcd.list && w.etcd.list[j].owner == n;
    assert i == j;
  }

  lemma TakenRecoverable(w: World, v: World, n: Name)
    requires Camp(w) && Scaling(w) && PendingIn(w.api.mem) == {} && AllReady(w.api.mem)
    requires |Running(w.api.mem)| > Desired(w) && n in Running(w.api.mem)
    requires v.api.mem == Taken(w, n) && v.etcd == w.etcd && v.mw == w.mw
    ensures Recoverable(v)
  {
    RunningFlagged(w);
    TakenSets(w, n);
    NotTerminating(w);
    if Desired(w) == 0 && |Running(w.api.mem)| == 1 {
      assert Terminal(v.api.mem) == {};
      NobodyLeaving(v, n);
    } else {
      var r := TwoRunning(Running(w.api.mem), n);
      assert Mature(v.api.mem[r]);
      if w.api.mem[n].finalizer {
        VictimCanLeave(w, v, n);
      }
      forall m | m in v.api.mem && v.api.mem[m].deleting ensures CanLeave(v, m) {
        assert m in Terminal(v.api.mem);
      }
    }
  }

  lemma ScalesDown(w: World) returns (s: seq<Action>, v: World)
    requires Camp(w) && Scaling(w) && PendingIn(w.api.mem) == {} && AllReady(w.api.mem)
    requires |Running(w.api.mem)| > Desired(w)
    ensures Reaches(w, s, v) && Camp(v) && v.cl == w.cl && Distance(v) < Distance(w)
  {
    var n := VictimExists(w.api);
    VictimTaken(w, n);
    s, v := [CStart(n), CStep(n, 0, Ok)], After1(w, n, n, 0);
    Reaches2(w, CStart(n), CStep(n, 0, Ok));
    TakenSets(w, n);
    TakenRecoverable(w, v, n);
    CampAfter(w, s, v);
  }

  // ---- The goal ----

  /** The spec is adopted and met; a cluster with members has no learner left, and auth if it asks for it. */
  ghost predicate Converged(w: World) {
    && SpecEqualsObserved(w.cl.spec, w.cl.status.observed) && Complete(w.cl.status, w.api.mem)
    && (Desired(w) > 0 ==> Learners(w.etcd.list) == {} && (w.cl.spec.auth ==> w.cl.status.authEnabled))
  }

  /** Three more interactions that go through. */
  lemma GoesThrice(w: World, s: seq<Action>, v: World) returns (t: seq<Action>)
    requires Reaches(w, s, v)
    ensures Reaches(w, t, Go(Go(Go(v))))
  {
    var a := CStep("", 0, Ok);
    ReachesNext(w, s, v, a);
    ReachesNext(w, s + [a], Go(v), a);
    ReachesNext(w, s + [a] + [a], Go(Go(v)), a);
    t := s + [a] + [a] + [a];
  }

  lemma AuthRuns(w: World) returns (s: seq<Action>, v: World)
    requires Scaling(w) && PendingIn(w.api.mem) == {} && Learners(w.etcd.list) == {}
    requires w.cl.spec.auth && !w.cl.status.authEnabled
    requires 0 < |Running(w.api.mem)| == Desired(w) && AllReady(w.api.mem)
    ensures Reaches(w, s, v) && AuthLatched(w, v)
  {
    AuthCompletes(w);
    var u := Next(w, CStart(""));
    ReachesNext(w, [], w, CStart(""));
    s := GoesThrice(w, [] + [CStart("")], u);
    v := Go(Go(Go(u)));
    if !w.etcd.auth.on {
      s := GoesThrice(w, s, v);
      v := Go(Go(Go(v)));
    }
  }

  lemma Finishes(w: World) returns (s: seq<Action>, v: World)
    requires Scaling(w) && SpecEqualsObserved(w.cl.spec, w.cl.status.observed) && PendingIn(w.api.mem) == {}
    requires AllReady(w.api.mem) && |Running(w.api.mem)| == Desired(w)
    requires Desired(w) > 0 ==> Learners(w.etcd.list) == {}
    ensures Reaches(w, s, v) && Converged(v)
  {
    s, v := [], w;
    if Desired(w) > 0 && w.cl.spec.auth && !w.cl.status.authEnabled {
      s, v := AuthRuns(w);
    }
  }

  // ---- Convergence ----

  ghost predicate Due(w: World) {
    && !SpecEqualsObserved(w.cl.spec, w.cl.status.observed)
    && (Complete(w.cl.status, w.api.mem) || Expired(w.cl.status, w.now))
  }

  /** One phase: it ends in convergence, or in a state of the campaign that is closer to it. */
  ghost predicate Closer(w: World, v: World)
    requires w.cl.status.observed.Some?
  {
    Camp(v) && v.cl.spec == w.cl.spec && Lower(RankOf(v), RankOf(w))
  }

  lemma StrictlyFewer<T>(a: set<T>, b: set<T>)
    requires a < b
    ensures |a| < |b|
  {
    assert b == a + (b - a);
    assert b - a == {} ==> b == a;
  }

  // ---- What lowers the rank ----

  lemma FewerLearners(w: World, v: World)
    requires v.cl == w.cl && v.api == w.api && w.cl.status.observed.Some? && Learners(v.etcd.list) < Learners(w.etcd.list)
    requires Unregistered(v.api.mem, v.etcd.list) == Unregistered(w.api.mem, w.etcd.list)
    ensures Lower(RankOf(v), RankOf(w))
  {
    StrictlyFewer(Learners(v.etcd.list), Learners(w.etcd.list));
  }

  lemma FewerLeaving(w: World, v: World)
    requires v.cl == w.cl && w.cl.status.observed.Some?
    requires Running(v.api.mem) == Running(w.api.mem) && Terminal(v.api.mem) < Terminal(w.api.mem)
    ensures Lower(RankOf(v), RankOf(w))
  {
    StrictlyFewer(Terminal(v.api.mem), Terminal(w.api.mem));
  }

  lemma FewerPending(w: World, v: World)
    requires v.cl == w.cl && w.cl.status.observed.Some?
    requires Running(v.api.mem) == Running(w.api.mem) && Terminal(v.api.mem) == Terminal(w.api.mem)
    requires PendingIn(v.api.mem) < PendingIn(w.api.mem)
    ensures Lower(RankOf(v), RankOf(w))
  {
    StrictlyFewer(PendingIn(v.api.mem), PendingIn(w.api.mem));
  }

  lemma FewerUnready(w: World, v: World, q: Name)
    requires OnlyAt(w, v, q) && w.cl.status.observed.Some? && q in Unready(w.api.mem) && v.api.mem[q].ready
    ensures Lower(RankOf(v), RankOf(w))
  {
    OnlyAtSets(w, v, q);
    assert Unregistered(v.api.mem, v.etcd.list) == Unregistered(w.api.mem, w.etcd.list);
    StrictlyFewer(Unready(v.api.mem), Unready(w.api.mem));
  }

  /** The worker's own phase, once everybody else has done their part. */
  lemma WorkerPhase(w: World) returns (s: seq<Action>, v: World)
    requires Camp(w) && Scaling(w) && PendingIn(w.api.mem) == {} && AllReady(w.api.mem)
    ensures Reaches(w, s, v) && (Converged(v) || Closer(w, v))
  {
    var n := |Running(w.api.mem)|;
    if n > Desired(w) {
      s, v := ScalesDown(w);
    } else if n == 0 && Desired(w) > 0 {
      var q :| q in w.api.mem && Mature(w.api.mem[q]);
      assert q !in Running(w.api.mem);
      s, v := Wakes(w, q);
    } else if n > 0 && Learners(w.etcd.list) != {} {
      var i :| i in Learners(w.etcd.list);
      s, v := Promotes(w, i);
      FewerLearners(w, v);
    } else if n < Desired(w) {
      s, v := Joins(w);
    } else {
      s, v := Finishes(w);
    }
  }

  lemma PhaseUnready(w: World) returns (s: seq<Action>, v: World)
    requires Camp(w) && Unready(w.api.mem) != {}
    ensures Reaches(w, s, v) && Closer(w, v)
  {
    var q :| q in Unready(w.api.mem);
    s, v := BringUp(w, q);
    FewerUnready(w, v, q);
  }

  lemma PhaseScale(w: World) returns (s: seq<Action>, v: World)
    requires Camp(w) && Terminal(w.api.mem) == {} && Unready(w.api.mem) == {} && !Due(w)
    ensures Reaches(w, s, v) && (Converged(v) || Closer(w, v))
  {
    CanScale(w);
    if PendingIn(w.api.mem) != {} {
      var p :| p in PendingIn(w.api.mem);
      s, v := FinishPending(w, p);
      FewerPending(w, v);
    } else {
      s, v := WorkerPhase(w);
    }
  }

  lemma Phase(w: World) returns (s: seq<Action>, v: World)
    requires Camp(w)
    ensures Reaches(w, s, v) && (Converged(v) || Closer(w, v))
  {
    if Terminal(w.api.mem) != {} {
      s, v := SeeOff(w);
      FewerLeaving(w, v);
    } else if Unready(w.api.mem) != {} {
      s, v := PhaseUnready(w);
    } else if Due(w) {
      s, v := Adopt(w);
    } else {
      s, v := PhaseScale(w);
    }
  }

  /**
   * From every such state of a formed cluster a finite sequence of worker steps, all of whose
   * calls go through, converges, every phase lowering the rank.
   */
  lemma {:induction false} Converges(w: World) returns (s: seq<Action>, v: World)
    requires Camp(w)
    ensures Reaches(w, s, v) && Converged(v)
    decreases RankOf(w).behind, RankOf(w).distance, RankOf(w).leaving, RankOf(w).pending, RankOf(w).unregistered,
              RankOf(w).learners, RankOf(w).unready
  {
    s, v := Phase(w);
    if !Converged(v) {
      var u, s1 := v, s;
      var s2;
      s2, v := Converges(u);
      ReachesAll(w, s1, u, s2, v);
      s := s1 + s2;
    }
  }

  // ---- From the beginning ----

  /** A new cluster that has not formed: no seed yet, or one seed that has not come up. */
  ghost predicate Sprouting(w: World) {
    && Inv(w) && Sane(w) && Settled(w) && w.cl.status.clusterID.None? && Desired(w) > 0
    && !Expired(w.cl.status, w.now) && w.cl.spec.deadlineSeconds != Some(0)
    && w.etcd.list == map[] && w.api.pods == map[] && w.mw.ctl == map[]
    && (w.api.mem == map[] || exists n :: w.api.mem.Keys == {n} && IsSeed(w.api.mem[n]))
  }

  predicate IsSeed(m: Member) {
    m.bootstrap && !m.deleting && !m.dormant && m.memberID.None?
  }

  /** One seed with its flag. */
  ghost predicate Planted(w: World, n: Name) {
    && w.api.mem.Keys == {n} && IsSeed(w.api.mem[n]) && w.api.mem[n].initialCluster != {}
    && w.cl.status.clusterID.None? && w.etcd.list == map[] && w.api.pods == map[] && w.mw.ctl == map[]
  }

  lemma Plants(w: World) returns (s: seq<Action>, v: World, n: Name)
    requires Sprouting(w)
    ensures Reaches(w, s, v) && Planted(v, n) && v.cl == w.cl && v.now == w.now && v.cw.ctl == Idle
  {
    if w.api.mem == map[] {
      n := FreshName(w.api.used);
      assert Running(w.api.mem) == {};
      SeedAppears(w, "", n);
      s, v := [CStart(""), CStep(n, 0, Ok), CStep(n, 0, Ok)], After2(w, "", n, 0);
      Reaches3(w, CStart(""), CStep(n, 0, Ok));
      assert v.api.mem.Keys == {n};
    } else {
      n :| w.api.mem.Keys == {n} && IsSeed(w.api.mem[n]);
      s, v := [], w;
      if w.api.mem[n].initialCluster == {} {
        assert n in SeedsIn(w.api.mem);
        SeedRecovers(w, n);
        s, v := [CStart(n), CStep(n, 0, Ok)], After1(w, n, n, 0);
        Reaches2(w, CStart(n), CStep(n, 0, Ok));
        assert v.api.mem.Keys == {n};
      }
    }
  }

  /** The seed's Pod is built to form a new cluster. */
  lemma SeedPod(w: World, n: Name) returns (s: seq<Action>, v: World)
    requires Planted(w, n)
    ensures Reaches(w, s, v) && OnlyAt(w, v, n) && v.mw.ctl == map[] && v.api.mem == w.api.mem[n := w.api.mem[n].(finalizer := true)]
    ensures v.api.pods == map[n := true]
  {
    assert n in w.api.mem.Keys;
    var a, b, c := MAddFinalizer(n), MBuildPod(n, true), MCreatePod(n);
    var w1 := w.(api := w.api.(mem := w.api.mem[n := w.api.mem[n].(finalizer := true)]));
    assert Next(w, a) == w1;
    var w2 := w1.(mw := w1.mw.(ctl := map[n := MBuilt(true)]));
    assert Next(w1, b) == w2;
    v := Next(w2, c);
    assert v.api.pods == map[n := true];
    Reaches2(w, a, b);
    ReachesNext(w, [a, b], w2, c);
    s := [a, b] + [c];
    assert w2.mw.ctl - {n} == map[];
    assert w1.api.mem.Keys == w.api.mem.Keys;
  }

  /** Its process forms the cluster and its Pod is reported. */
  lemma SeedForms(w: World, n: Name) returns (s: seq<Action>, v: World)
    requires w.api.mem.Keys == {n} && IsSeed(w.api.mem[n]) && w.cl.status.clusterID.None? && w.etcd.list == map[]
    requires w.api.pods == map[n := true]
    ensures Reaches(w, s, v) && v.cl == w.cl && v.now == w.now && v.cw == w.cw && v.mw == w.mw
    ensures v.api.mem == w.api.mem[n := w.api.mem[n].(pod := true)]
    ensures v.etcd.list == map[w.etcd.nextId := Entry(n, false)]
  {
    assert n in w.api.mem.Keys;
    var a, b := EtcdForm(n, w.etcd.auth), MPodStatus(n);
    var w1 := Next(w, a);
    assert w1.etcd.list == map[w.etcd.nextId := Entry(n, false)] && w1.api == w.api && w1.cl == w.cl;
    v := Next(w1, b);
    Reaches2(w, a, b);
    s := [a, b];
  }

  lemma Latches(w: World, n: Name) returns (s: seq<Action>, v: World)
    requires Settled(w) && w.cl.status.clusterID.None? && Desired(w) > 0
    requires w.api.mem.Keys == {n} && IsSeed(w.api.mem[n]) && w.api.mem[n].initialCluster != {} && w.api.mem[n].pod
    requires exists i :: w.etcd.list == map[i := Entry(n, false)]
    ensures Reaches(w, s, v) && v.cl == w.cl.(status := w.cl.status.(clusterID := Some(w.etcd.cluster)))
    ensures v.api == w.api && v.etcd == w.etcd && v.mw == w.mw && v.now == w.now && v.cw.ctl == Idle
  {
    var i :| w.etcd.list == map[i := Entry(n, false)];
    assert n in w.api.mem.Keys;
    assert n in SeedsIn(w.api.mem);
    assert SeedsIn(w.api.mem) <= w.api.mem.Keys;
    assert w.etcd.list.Keys == {i};
    assert Owners(w.etcd.list) == {n} by {
      assert i in w.etcd.list;
    }
    ClusterLatched(w, n);
    s, v := [CStart(n), CStep(n, 0, Ok), CStep(n, 0, Ok)], After2(w, n, n, 0);
    Reaches3(w, CStart(n), CStep(n, 0, Ok));
  }

  /** From a planted seed to a latched cluster. */
  lemma Sprouts(w: World, n: Name) returns (s: seq<Action>, v: World)
    requires Planted(w, n) && Settled(w) && Desired(w) > 0 && !Expired(w.cl.status, w.now)
    ensures Reaches(w, s, v) && v.cl == w.cl.(status := v.cl.status) && v.now == w.now && v.cw.ctl == Idle
    ensures v.cl.status == w.cl.status.(clusterID := v.cl.status.clusterID) && v.cl.status.clusterID.Some?
    ensures v.api.mem.Keys == {n} && Mature(v.api.mem[n])
  {
    assert n in w.api.mem.Keys;
    var s1, v1 := SeedPod(w, n);
    assert v1.api.mem.Keys == {n};
    var s2, v2 := SeedForms(v1, n);
    assert v2.api.mem.Keys == {n};
    ReachesAll(w, s1, v1, s2, v2);
    var s3, v3 := Latches(v2, n);
    ReachesAll(w, s1 + s2, v2, s3, v3);
    s, v := s1 + s2 + s3, v3;
  }

  lemma SproutedCamp(w: World, s: seq<Action>, v: World, n: Name)
    requires Inv(w) && Sane(w) && Reaches(w, s, v) && !w.cl.deleting && w.cl.spec.deadlineSeconds != Some(0)
    requires v.cl == w.cl.(status := v.cl.status) && v.cw.ctl == Idle && v.cl.status.clusterID.Some?
    requires !Expired(v.cl.status, v.now) && v.api.mem.Keys == {n} && Mature(v.api.mem[n])
    ensures Camp(v)
  {
    FormedStays(w, s, v);
    assert n in v.api.mem.Keys;
    assert forall m :: m in v.api.mem ==> m in {n};
    assert Terminal(v.api.mem) == {};
    NobodyLeaving(v, n);
  }

  lemma BootstrapConverges(w: World) returns (s: seq<Action>, v: World)
    requires Sprouting(w)
    ensures Reaches(w, s, v) && Converged(v)
  {
    var s1, v1, n := Plants(w);
    var s2, v2 := Sprouts(v1, n);
    ReachesAll(w, s1, v1, s2, v2);
    SproutedCamp(w, s1 + s2, v2, n);
    var s3, v3 := Converges(v2);
    ReachesAll(w, s1 + s2, v2, s3, v3);
    s, v := s1 + s2 + s3, v3;
  }

  lemma Initializes(w: World)
    requires FreshStart(w)
    ensures var v := After1(w, "", "", 0);
            && v.cl == w.cl.(status := Status("token", None, Some(Snapshot(w.cl.spec)), Deadline(w.cl.spec, w.now), false))
            && v.api == w.api && v.etcd == w.etcd && v.mw == w.mw && v.now == w.now && v.cw.ctl == Idle
  {
  }

  /** A cluster that a user has just created reaches its spec without further help. */
  lemma NewClusterConverges(w: World) returns (s: seq<Action>, v: World)
    requires FreshStart(w) && w.cl.spec.deadlineSeconds != Some(0)
    ensures Reaches(w, s, v) && Converged(v)
  {
    InitInv(w);
    InitSane(w);
    Initializes(w);
    s, v := [CStart(""), CStep("", 0, Ok)], After1(w, "", "", 0);
    Reaches2(w, CStart(""), CStep("", 0, Ok));
    FormedStays(w, s, v);
    assert Running(v.api.mem) == {};
    if SpecReplicas(w.cl.spec) > 0 {
      var u := v;
      var t;
      t, v := BootstrapConverges(u);
      ReachesAll(w, s, u, t, v);
      s := s + t;
    }
  }
}
