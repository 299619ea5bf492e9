/**
 * Steps of the workers that bring one member up and see one Terminating member off.
 */
module MembershipRevival {
  import opened Base
  import opened Membership
  import opened MembershipInvariant
  import opened MembershipRecords

  /** A step of a worker, with a call that goes through if it makes one, or the start of a seed's process. */
  predicate Helpful(a: Action) {
    || a.CStart? || (a.CStep? && a.r == Ok)
    || a.MAddFinalizer? || (a.MBuildPod? && a.parentRead) || a.MCreatePod? || a.MPodStatus? || a.MDiscover?
    || (a.MReady? && a.up)
    || a.MFinStart? || a.MFinResolve? || (a.MFinRemove? && a.r == Ok) || a.MFinRelease?
    || a.EtcdForm?
  }

  ghost predicate AllHelpful(s: seq<Action>) {
    forall k :: 0 <= k < |s| ==> Helpful(s[k])
  }

  ghost predicate Reaches(w: World, s: seq<Action>, v: World) {
    AllHelpful(s) && Run(w, s) == v
  }

  lemma ReachesNext(w: World, s: seq<Action>, v: World, a: Action)
    requires Reaches(w, s, v) && Helpful(a)
    ensures Reaches(w, s + [a], Next(v, a))
  {
    RunSnoc(w, s, a);
  }

  lemma ReachesAll(u: World, s: seq<Action>, v: World, t: seq<Action>, w: World)
    requires Reaches(u, s, v) && Reaches(v, t, w)
    ensures Reaches(u, s + t, w)
  {
    RunConcat(u, s, t);
  }

  // ---- Bringing one member up ----

  /** `m2` is `m` further along. */
  predicate Further(m: Member, m2: Member) {
    m2 == m.(finalizer := m2.finalizer, pod := m2.pod, ready := m2.ready, memberID := m2.memberID)
  }

  /** Only the record, the Pod and the worker of `q` differ. */
  ghost predicate OnlyAt(w: World, v: World, q: Name) {
    && v.cl == w.cl && v.now == w.now && v.etcd == w.etcd && v.cw == w.cw
    && v.api.used == w.api.used && v.api.mem.Keys == w.api.mem.Keys
    && (forall n :: n in w.api.mem && n != q ==> v.api.mem[n] == w.api.mem[n])
    && (q in w.api.mem ==> Further(w.api.mem[q], v.api.mem[q]))
    && (forall n :: n != q ==> (n in v.mw.ctl <==> n in w.mw.ctl) && (n in w.mw.ctl ==> v.mw.ctl[n] == w.mw.ctl[n]))
  }

  lemma OnlyAtTransitive(u: World, v: World, w: World, q: Name)
    requires OnlyAt(u, v, q) && OnlyAt(v, w, q)
    ensures OnlyAt(u, w, q)
  {
  }

  /** An active, awake member with a flag and an entry in etcd; its worker is at most about to create its Pod. */
  ghost predicate CanRun(w: World, q: Name) {
    && q in w.api.mem && !w.api.mem[q].deleting && !w.api.mem[q].dormant && w.api.mem[q].initialCluster != {}
    && (q in w.mw.ctl ==> w.mw.ctl[q].MBuilt?)
  }

  lemma CreatesPod(w: World, q: Name)
    requires CanRun(w, q) && q in w.mw.ctl
    ensures var v := Next(w, MCreatePod(q)); OnlyAt(w, v, q) && CanRun(v, q) && q in v.api.pods && q !in v.mw.ctl && v.api.mem == w.api.mem
  {
  }

  lemma AddsFinalizer(w: World, q: Name)
    requires CanRun(w, q) && q !in w.mw.ctl
    ensures var v := Next(w, MAddFinalizer(q));
            && OnlyAt(w, v, q) && CanRun(v, q) && q !in v.mw.ctl && v.api.mem[q].finalizer && v.api.pods == w.api.pods
  {
  }

  lemma BuildsPod(w: World, q: Name)
    requires CanRun(w, q) && q !in w.mw.ctl && w.api.mem[q].finalizer && q !in w.api.pods
    ensures var v := Next(w, MBuildPod(q, true));
            OnlyAt(w, v, q) && CanRun(v, q) && q in v.mw.ctl && v.api == w.api
  {
  }

  lemma ReportsPod(w: World, q: Name)
    requires CanRun(w, q) && q !in w.mw.ctl && q in w.api.pods
    ensures var v := Next(w, MPodStatus(q));
            OnlyAt(w, v, q) && CanRun(v, q) && q !in v.mw.ctl && v.api.mem[q].pod && v.api.pods == w.api.pods
  {
  }

  lemma BecomesReady(w: World, q: Name, i: Id)
    requires CanRun(w, q) && q in w.api.pods && i in w.etcd.list && w.etcd.list[i].owner == q && w.api.mem[q].pod
    ensures var a := if w.api.mem[q].memberID.None? then MDiscover(q, i) else MReady(q, true);
            var v := Next(w, a);
            OnlyAt(w, v, q) && v.api.mem[q].ready && v.api.mem[q].pod && v.mw == w.mw
  {
  }

  /** Its Pod exists and no work on it is in progress. */
  lemma GetsPod(w: World, q: Name) returns (s: seq<Action>, v: World)
    requires CanRun(w, q)
    ensures Reaches(w, s, v) && OnlyAt(w, v, q) && CanRun(v, q) && q !in v.mw.ctl && q in v.api.pods
  {
    s, v := [], w;
    if q in w.mw.ctl {
      CreatesPod(w, q);
      ReachesNext(w, s, v, MCreatePod(q));
      s, v := s + [MCreatePod(q)], Next(w, MCreatePod(q));
    } else if q !in w.api.pods {
      var w1 := Next(w, MAddFinalizer(q));
      var w2 := Next(w1, MBuildPod(q, true));
      AddsFinalizer(w, q);
      BuildsPod(w1, q);
      CreatesPod(w2, q);
      OnlyAtTransitive(w, w1, w2, q);
      OnlyAtTransitive(w, w2, Next(w2, MCreatePod(q)), q);
      ReachesNext(w, [], w, MAddFinalizer(q));
      ReachesNext(w, [] + [MAddFinalizer(q)], w1, MBuildPod(q, true));
      s := [] + [MAddFinalizer(q)] + [MBuildPod(q, true)];
      ReachesNext(w, s, w2, MCreatePod(q));
      s, v := s + [MCreatePod(q)], Next(w2, MCreatePod(q));
    }
  }

  /** A member with a flag and an entry can be brought to Ready. */
  lemma Revives(w: World, q: Name) returns (s: seq<Action>, v: World)
    requires CanRun(w, q) && Registered(w.etcd.list, q)
    ensures Reaches(w, s, v) && OnlyAt(w, v, q) && v.api.mem[q].ready && v.api.mem[q].pod && q !in v.mw.ctl
  {
    var i :| i in w.etcd.list && w.etcd.list[i].owner == q;
    var s1, v1 := GetsPod(w, q);
    var v2 := Next(v1, MPodStatus(q));
    ReportsPod(v1, q);
    ReachesNext(w, s1, v1, MPodStatus(q));
    OnlyAtTransitive(w, v1, v2, q);
    BecomesReady(v2, q, i);
    var a := if v2.api.mem[q].memberID.None? then MDiscover(q, i) else MReady(q, true);
    ReachesNext(w, s1 + [MPodStatus(q)], v2, a);
    v := Next(v2, a);
    OnlyAtTransitive(w, v2, v, q);
    s := s1 + [MPodStatus(q)] + [a];
  }

  // ---- Seeing one member off ----

  /** `m` is gone from the records, its worker is done, and etcd lost at most its entry. */
  ghost predicate Left(w: World, v: World, m: Name) {
    && v.cl == w.cl && v.now == w.now && v.cw == w.cw && v.api.used == w.api.used
    && v.api.mem == w.api.mem - {m} && v.mw.ctl == w.mw.ctl - {m}
    && (forall i :: i in v.etcd.list ==> i in w.etcd.list && v.etcd.list[i] == w.etcd.list[i])
    && (forall i :: i in w.etcd.list && w.etcd.list[i].owner != m ==> i in v.etcd.list)
  }

  /** Nothing but the worker of `m` has moved. */
  ghost predicate OnlyWorker(w: World, v: World, m: Name) {
    && v.cl == w.cl && v.now == w.now && v.cw == w.cw && v.etcd == w.etcd
    && v.api.used == w.api.used && v.api.mem == w.api.mem
    && v.mw.ctl - {m} == w.mw.ctl - {m}
  }

  /** A Terminating record whose removal from etcd was not done and then forgotten. */
  ghost predicate CanLeave(w: World, m: Name) {
    && m in w.api.mem && w.api.mem[m].deleting && w.api.mem[m].finalizer
    && (|| (m in w.mw.ctl && w.mw.ctl[m].MRelease?)
        || (w.api.mem[m].memberID.Some? ==> w.api.mem[m].memberID.value in w.etcd.list))
  }

  lemma Releases(w: World, m: Name)
    requires m in w.api.mem && m in w.mw.ctl && w.mw.ctl[m].MRelease?
    ensures Left(w, Next(w, MFinRelease(m)), m)
  {
  }

  lemma Removes(w: World, m: Name)
    requires m in w.api.mem && m in w.mw.ctl && w.mw.ctl[m].MRemove? && m in w.mw.rpcs
    requires w.mw.ctl[m].id in w.etcd.list && w.etcd.list[w.mw.ctl[m].id].owner == m
    ensures Left(w, Next(Next(w, MFinRemove(m, Ok)), MFinRelease(m)), m)
  {
    var id := w.mw.ctl[m].id;
    var v := Next(w, MFinRemove(m, Ok));
    assert v.etcd.list == w.etcd.list - {id} && v.mw.ctl == w.mw.ctl[m := MRelease(Gone)] && v.api == w.api;
  }

  lemma Resolves(w: World, m: Name, i: Id)
    requires m in w.api.mem && m in w.mw.ctl && w.mw.ctl[m] == MResolve
    requires Registered(w.etcd.list, m) ==> i in w.etcd.list && w.etcd.list[i].owner == m
    ensures var v := Next(w, MFinResolve(m, i));
            && OnlyWorker(w, v, m) && m in v.mw.ctl && v.mw.rpcs == w.mw.rpcs
            && v.mw.ctl[m] == if Registered(w.etcd.list, m) then MRemove(i) else MRelease(Gone)
  {
  }

  lemma FinStarts(w: World, m: Name, q: Name)
    requires m in w.api.mem && w.api.mem[m].deleting && w.api.mem[m].finalizer && m !in w.mw.ctl && !w.cl.deleting
    requires q in Active(w.api.mem) && w.api.mem[q].pod
    ensures var v := Next(w, MFinStart(m));
            && OnlyWorker(w, v, m) && m in v.mw.ctl && m in v.mw.rpcs
            && v.mw.ctl[m] == if w.api.mem[m].memberID.Some? then MRemove(w.api.mem[m].memberID.value) else MResolve
  {
    assert q in Others(w.api.mem, m);
  }

  lemma LeftAfter(w: World, u: World, v: World, m: Name)
    requires OnlyWorker(w, u, m) && Left(u, v, m)
    ensures Left(w, v, m)
  {
  }

  /** Removal by id, from the worker's remove point on. */
  lemma LeavesById(w: World, m: Name) returns (s: seq<Action>, v: World)
    requires m in w.api.mem && m in w.mw.ctl && w.mw.ctl[m].MRemove? && m in w.mw.rpcs
    requires w.mw.ctl[m].id in w.etcd.list && w.etcd.list[w.mw.ctl[m].id].owner == m
    ensures Reaches(w, s, v) && Left(w, v, m)
  {
    Removes(w, m);
    ReachesNext(w, [], w, MFinRemove(m, Ok));
    s := [] + [MFinRemove(m, Ok)];
    var u := Next(w, MFinRemove(m, Ok));
    ReachesNext(w, s, u, MFinRelease(m));
    s, v := s + [MFinRelease(m)], Next(u, MFinRelease(m));
  }

  lemma LeavesReleased(w: World, m: Name) returns (s: seq<Action>, v: World)
    requires m in w.api.mem && m in w.mw.ctl && w.mw.ctl[m].MRelease?
    ensures Reaches(w, s, v) && Left(w, v, m)
  {
    Releases(w, m);
    ReachesNext(w, [], w, MFinRelease(m));
    s, v := [] + [MFinRelease(m)], Next(w, MFinRelease(m));
  }

  /** Removal by peer URL, from the worker's resolve point on. */
  lemma LeavesByUrl(w: World, m: Name) returns (s: seq<Action>, v: World)
    requires m in w.api.mem && m in w.mw.ctl && w.mw.ctl[m] == MResolve && m in w.mw.rpcs
    ensures Reaches(w, s, v) && Left(w, v, m)
  {
    var i: Id := 0;
    if Registered(w.etcd.list, m) {
      i :| i in w.etcd.list && w.etcd.list[i].owner == m;
    }
    var u := Next(w, MFinResolve(m, i));
    Resolves(w, m, i);
    ReachesNext(w, [], w, MFinResolve(m, i));
    var t;
    if Registered(w.etcd.list, m) {
      t, v := LeavesById(u, m);
    } else {
      t, v := LeavesReleased(u, m);
    }
    LeftAfter(w, u, v, m);
    ReachesAll(w, [] + [MFinResolve(m, i)], u, t, v);
    s := [] + [MFinResolve(m, i)] + t;
  }

  /** The ids a removal would use are the member's own. */
  ghost predicate OwnIds(w: World, m: Name) {
    && (m in w.api.mem && w.api.mem[m].memberID.Some? ==> Harmless(w.etcd, m, w.api.mem[m].memberID.value))
    && (m in w.mw.ctl && w.mw.ctl[m].MRemove? ==> Harmless(w.etcd, m, w.mw.ctl[m].id))
    && (m in w.mw.ctl && (w.mw.ctl[m].MResolve? || w.mw.ctl[m].MRemove?) ==> m in w.mw.rpcs)
  }

  lemma LeavesFromStart(w: World, m: Name, q: Name) returns (s: seq<Action>, v: World)
    requires CanLeave(w, m) && OwnIds(w, m) && m !in w.mw.ctl && !w.cl.deleting
    requires q in Active(w.api.mem) && w.api.mem[q].pod
    ensures Reaches(w, s, v) && Left(w, v, m)
  {
    var u := Next(w, MFinStart(m));
    FinStarts(w, m, q);
    ReachesNext(w, [], w, MFinStart(m));
    var t;
    if w.api.mem[m].memberID.Some? {
      t, v := LeavesById(u, m);
    } else {
      t, v := LeavesByUrl(u, m);
    }
    LeftAfter(w, u, v, m);
    ReachesAll(w, [] + [MFinStart(m)], u, t, v);
    s := [] + [MFinStart(m)] + t;
  }

  lemma DropsBuild(w: World, m: Name)
    requires m in w.mw.ctl && w.mw.ctl[m].MBuilt?
    ensures var v := Next(w, MCreatePod(m)); OnlyWorker(w, v, m) && m !in v.mw.ctl && v.api.mem == w.api.mem
  {
  }

  lemma DropsRemoval(w: World, m: Name)
    requires m in w.mw.ctl && w.mw.ctl[m].MRemove? && m in w.mw.rpcs && w.mw.ctl[m].id !in w.etcd.list
    ensures var v := Next(w, MFinRemove(m, Ok)); OnlyWorker(w, v, m) && m !in v.mw.ctl && v.api.mem == w.api.mem
  {
  }

  /** One step puts the worker of `m` back to its start. */
  lemma LeavesAfterDrop(w: World, a: Action, m: Name, q: Name) returns (s: seq<Action>, v: World)
    requires Helpful(a) && OnlyWorker(w, Next(w, a), m) && m !in Next(w, a).mw.ctl
    requires CanLeave(w, m) && m in w.mw.ctl && !w.mw.ctl[m].MRelease? && OwnIds(w, m) && !w.cl.deleting
    requires q in Active(w.api.mem) && w.api.mem[q].pod
    ensures Reaches(w, s, v) && Left(w, v, m)
  {
    var u := Next(w, a);
    ReachesNext(w, [], w, a);
    var t;
    t, v := LeavesFromStart(u, m, q);
    LeftAfter(w, u, v, m);
    ReachesAll(w, [] + [a], u, t, v);
    s := [] + [a] + t;
  }

  /** A Terminating member that can leave does, once a peer has a Pod to ask. */
  lemma Leaves(w: World, m: Name, q: Name) returns (s: seq<Action>, v: World)
    requires CanLeave(w, m) && OwnIds(w, m) && !w.cl.deleting && q in Active(w.api.mem) && w.api.mem[q].pod
    ensures Reaches(w, s, v) && Left(w, v, m)
  {
    if m !in w.mw.ctl {
      s, v := LeavesFromStart(w, m, q);
    } else {
      match w.mw.ctl[m]
      case MRelease(_) => s, v := LeavesReleased(w, m);
      case MResolve => s, v := LeavesByUrl(w, m);
      case MRemove(id) =>
        if id in w.etcd.list {
          s, v := LeavesById(w, m);
        } else {
          DropsRemoval(w, m);
          s, v := LeavesAfterDrop(w, MFinRemove(m, Ok), m, q);
        }
      case MBuilt(_) =>
        DropsBuild(w, m);
        s, v := LeavesAfterDrop(w, MCreatePod(m), m, q);
    }
  }
}
