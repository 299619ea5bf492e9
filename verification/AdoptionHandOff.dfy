/**
 * The moment an adopted cluster is handed to the controllers: they leave its
 * membership alone until a user asks for something.
 */
module AdoptionHandOff {
  import opened Base
  import opened Membership
  import opened Adoption
  import MI = MembershipInvariant
  import IC = InitialCluster

  // ---- The state that applying the plan leaves behind ----

  function NamePart(p: string): Name { p[..IC.Index(p, '=')] }

  /** The members a flag names; the empty flag names none. */
  function FlagNames(flag: string): set<Name> {
    if flag == "" then {} else set p | p in IC.Split(flag) :: NamePart(p)
  }

  predicate RecordOf(a: AdoptedMember, r: Member) {
    && r.bootstrap == a.bootstrap && r.initialCluster == FlagNames(a.initialCluster)
    && !r.dormant && !r.deleting && r.memberID == Some(a.status.memberID)
  }

  function FactNames(ms: seq<Fact>): set<Name> {
    set i | 0 <= i < |ms| :: ms[i].name
  }

  function PlanNames(ms: seq<AdoptedMember>): set<Name> {
    set i | 0 <= i < |ms| :: ms[i].name
  }

  ghost predicate EtcdAsFound(facts: Facts, etcd: Etcd) {
    && !etcd.auth.byOperator
    && (forall i :: i in etcd.list ==> i < etcd.nextId)
    && (forall i :: i in etcd.list ==> exists m :: m in facts.members && m.id == i && etcd.list[i] == Entry(m.name, m.learner))
    && forall m :: m in facts.members ==> m.id in etcd.list && etcd.list[m.id] == Entry(m.name, m.learner)
  }

  /** The plan has been carried out; readiness, finalizers and Pod status may already have moved. */
  ghost predicate HandedOver(plan: Plan, facts: Facts, w: World) {
    && plan.Adopt?
    && w.cl.spec == plan.spec && w.cl.status == plan.status
    && w.api.mem.Keys == PlanNames(plan.members)
    && (forall n :: n in w.api.mem ==> exists a :: a in plan.members && a.name == n && RecordOf(a, w.api.mem[n]))
    && EtcdAsFound(facts, w.etcd)
    && MI.Names(w.api) && MI.WorkersIdle(w)
  }

  ghost predicate DistinctFacts(ms: seq<Fact>) {
    forall i, j :: 0 <= i < j < |ms| ==> ms[i].name != ms[j].name
  }

  // ---- Facts about the plan ----

  lemma {:induction false} NameCount(ms: seq<Fact>)
    ensures |FactNames(ms)| <= |ms|
    ensures |FactNames(ms)| == |ms| <==> DistinctFacts(ms)
  {
    if ms != [] {
      var n := |ms| - 1;
      var front := ms[..n];
      NameCount(front);
      assert FactNames(ms) == FactNames(front) + {ms[n].name};
      if ms[n].name in FactNames(front) {
        var i :| 0 <= i < n && front[i].name == ms[n].name;
        assert ms[i].name == ms[n].name;
        assert FactNames(ms) == FactNames(front);
      } else if DistinctFacts(front) {
        forall i, j | 0 <= i < j < |ms| ensures ms[i].name != ms[j].name {
          assert j < n ==> front[i].name != front[j].name;
          assert front[i].name in FactNames(front);
        }
      } else {
        var i, j :| 0 <= i < j < n && front[i].name == front[j].name;
        assert ms[i].name == ms[j].name;
      }
    }
  }

  lemma {:induction false} JoinNonempty(parts: seq<string>)
    requires parts != [] && parts[0] != ""
    ensures IC.Join(parts) != ""
  {
    if |parts| > 1 {
      assert IC.Join(parts) == parts[0] + "," + IC.Join(parts[1..]);
    }
  }

  /** Every planned record carries a non-empty flag, is no seed, and stands for one live voter. */
  lemma PlanRecords(l: Legacy, translated: Option<Spec>, peerTLS: bool, facts: Facts, plan: Plan, a: AdoptedMember)
    requires IsPlan(l, translated, peerTLS, facts, plan) && plan.Adopt? && a in plan.members
    ensures !a.bootstrap && a.initialCluster != ""
    ensures exists m :: m in facts.members && m.name == a.name && m.id == a.status.memberID && !m.learner
  {
    var ms: seq<Fact> :| SortedFacts(ms) && multiset(ms) == multiset(facts.members) && MembersOf(l, ms, plan.members);
    var i :| 0 <= i < |plan.members| && plan.members[i] == a;
    assert ms[i] in multiset(ms);
    var parts := FactParts(ms);
    assert parts[0] == ms[0].name + "=" + ms[0].peerURL;
    JoinNonempty(parts);
  }

  lemma SameNames(l: Legacy, ms: seq<Fact>, out: seq<AdoptedMember>)
    requires MembersOf(l, ms, out)
    ensures PlanNames(out) == FactNames(ms)
  {
    assert forall i :: 0 <= i < |ms| ==> out[i].name == ms[i].name;
  }

  lemma NamesPermute(ms: seq<Fact>, ns: seq<Fact>)
    requires multiset(ms) == multiset(ns)
    ensures FactNames(ms) <= FactNames(ns)
  {
    forall n | n in FactNames(ms) ensures n in FactNames(ns) {
      var i :| 0 <= i < |ms| && ms[i].name == n;
      assert ms[i] in multiset(ns);
      var j :| 0 <= j < |ns| && ns[j] == ms[i];
    }
  }

  lemma PlannedNames(l: Legacy, translated: Option<Spec>, peerTLS: bool, facts: Facts, plan: Plan)
    requires IsPlan(l, translated, peerTLS, facts, plan) && plan.Adopt?
    ensures PlanNames(plan.members) == FactNames(facts.members)
  {
    var ms: seq<Fact> :| SortedFacts(ms) && multiset(ms) == multiset(facts.members) && MembersOf(l, ms, plan.members);
    SameNames(l, ms, plan.members);
    NamesPermute(ms, facts.members);
    NamesPermute(facts.members, ms);
  }

  lemma SplitNonempty(s: string)
    ensures IC.Split(s) != []
  {
  }

  lemma FlagNamesNonempty(flag: string)
    ensures FlagNames(flag) == {} <==> flag == ""
  {
    if flag != "" {
      SplitNonempty(flag);
      var p := IC.Split(flag)[0];
      assert p in IC.Split(flag);
      assert NamePart(p) in FlagNames(flag);
    }
  }

  // ---- Adoption hands over a start state of the membership protocol ----

  /** A record handed over is a joined voter, not a seed and not pending. */
  ghost predicate Joined(r: Member) {
    !r.bootstrap && !r.dormant && !r.deleting && r.initialCluster != {} && r.memberID.Some?
  }

  lemma RecordsJoined(l: Legacy, translated: Option<Spec>, peerTLS: bool, facts: Facts, plan: Plan, w: World)
    requires IsPlan(l, translated, peerTLS, facts, plan) && HandedOver(plan, facts, w)
    ensures forall n :: n in w.api.mem ==> Joined(w.api.mem[n])
    ensures Learners(w.etcd.list) == {}
  {
    forall n | n in w.api.mem ensures Joined(w.api.mem[n]) {
      var a :| a in plan.members && a.name == n && RecordOf(a, w.api.mem[n]);
      PlanRecords(l, translated, peerTLS, facts, plan, a);
      FlagNamesNonempty(a.initialCluster);
    }
    forall i | i in w.etcd.list ensures !w.etcd.list[i].learner {
      var m :| m in facts.members && m.id == i && w.etcd.list[i] == Entry(m.name, m.learner);
      assert !Unfit(m);
    }
  }

  lemma UniqueFact(ms: seq<Fact>, a: Fact, b: Fact)
    requires DistinctFacts(ms) && a in ms && b in ms && a.name == b.name
    ensures a == b
  {
  }

  /** So every safety theorem about runs of the protocol holds from the hand-over on. */
  lemma HandOverIsStart(l: Legacy, translated: Option<Spec>, peerTLS: bool, facts: Facts, plan: Plan, w: World)
    requires IsPlan(l, translated, peerTLS, facts, plan) && HandedOver(plan, facts, w)
    requires DistinctFacts(facts.members) && facts.members != [] && facts.clusterID.Some?
    ensures MI.AdoptedStart(w)
  {
    RecordsJoined(l, translated, peerTLS, facts, plan, w);
    PlannedNames(l, translated, peerTLS, facts, plan);
    assert facts.members[0].name in FactNames(facts.members);
    forall n | n in w.api.mem
      ensures w.api.mem[n].memberID.value in w.etcd.list && w.etcd.list[w.api.mem[n].memberID.value] == Entry(n, false)
    {
      var a :| a in plan.members && a.name == n && RecordOf(a, w.api.mem[n]);
      PlanRecords(l, translated, peerTLS, facts, plan, a);
    }
    forall i | i in w.etcd.list
      ensures w.etcd.list[i].owner in w.api.mem && w.api.mem[w.etcd.list[i].owner].memberID == Some(i)
    {
      var m :| m in facts.members && m.id == i && w.etcd.list[i] == Entry(m.name, m.learner);
      assert m.name in FactNames(facts.members);
      var a :| a in plan.members && a.name == m.name && RecordOf(a, w.api.mem[m.name]);
      PlanRecords(l, translated, peerTLS, facts, plan, a);
      var m' :| m' in facts.members && m'.name == a.name && m'.id == a.status.memberID;
      UniqueFact(facts.members, m, m');
    }
  }

  // ---- The controllers stay quiet ----

  predicate QuietCtl(c: Ctl) {
    c.Idle? || c.SteadyList? || c.AuthProbe? || c.AuthUser? || c.AuthGrant? || c.AuthEnable? || c.AuthLatch? || c.Finish?
  }

  ghost predicate TargetMet(cl: ClusterObject) {
    && cl.status.token != "" && cl.status.deadline == None
    && cl.status.observed == Some(Snapshot(cl.spec))
  }

  ghost predicate AllJoined(mem: Listing) {
    forall n :: n in mem ==> Joined(mem[n])
  }

  ghost predicate QuietWorkers(mw: MemberWorkers) {
    forall n :: n in mw.ctl ==> mw.ctl[n] == MBuilt(false)
  }

  /** Nothing about membership is left to do. */
  ghost predicate AtRest(w: World) {
    && TargetMet(w.cl)
    && AllJoined(w.api.mem) && |w.api.mem.Keys| == SpecReplicas(w.cl.spec)
    && Learners(w.etcd.list) == {}
    && QuietCtl(w.cw.ctl) && QuietWorkers(w.mw)
  }

  ghost predicate SameRecord(a: Member, b: Member) {
    && b.created == a.created && b.bootstrap == a.bootstrap && b.initialCluster == a.initialCluster
    && b.dormant == a.dormant && b.deleting == a.deleting && b.memberID == a.memberID
  }

  ghost predicate SameRecords(v: Listing, w: Listing) {
    w.Keys == v.Keys && forall n :: n in v ==> SameRecord(v[n], w[n])
  }

  ghost predicate SameTarget(v: ClusterObject, w: ClusterObject) {
    && w.spec == v.spec && w.status.observed == v.status.observed && w.status.clusterID == v.status.clusterID
    && w.status.token == v.status.token
  }

  /** No member was created, deleted, added, promoted, parked or woken, and the target is the same. */
  ghost predicate Untouched(v: World, w: World) {
    SameTarget(v.cl, w.cl) && SameRecords(v.api.mem, w.api.mem) && w.etcd.list == v.etcd.list
  }

  lemma HandOverAtRest(l: Legacy, translated: Option<Spec>, peerTLS: bool, facts: Facts, plan: Plan, w: World)
    requires IsPlan(l, translated, peerTLS, facts, plan) && HandedOver(plan, facts, w) && DistinctFacts(facts.members)
    ensures AtRest(w)
  {
    RecordsJoined(l, translated, peerTLS, facts, plan, w);
    PlannedNames(l, translated, peerTLS, facts, plan);
    NameCount(facts.members);
  }

  lemma DecideAtRest(w: World, pick: Name)
    requires AtRest(w)
    ensures QuietCtl(Decide(Reads(w), pick))
  {
    var list := w.api.mem;
    assert Running(list) == list.Keys;
    assert PendingIn(list) == {} && SeedsIn(list) == {} && !Terminating(list);
  }

  lemma StartAtRest(w: World, pick: Name)
    requires AtRest(w)
    ensures AtRest(ClusterStart(w, pick)) && Untouched(w, ClusterStart(w, pick))
  {
    DecideAtRest(w, pick);
  }

  /** A quiet interaction can only touch auth, the deadline and the worker's own place. */
  ghost predicate QuietStep(v: World, w: World) {
    && w.api == v.api && w.mw == v.mw && w.etcd.list == v.etcd.list
    && SameTarget(v.cl, w.cl) && (w.cl.status.deadline == v.cl.status.deadline || w.cl.status.deadline == None)
    && QuietCtl(w.cw.ctl)
  }

  lemma OkIsQuiet(w: World, x: Name, i: Id)
    requires QuietCtl(w.cw.ctl) && Learners(w.etcd.list) == {}
    ensures QuietStep(w, ClusterOk(w, x, i))
  {
  }

  lemma FailIsQuiet(w: World, r: Reply)
    requires QuietCtl(w.cw.ctl) && Learners(w.etcd.list) == {}
    ensures QuietStep(w, ClusterFail(w, r))
  {
  }

  lemma StepIsQuiet(w: World, x: Name, i: Id, r: Reply)
    requires AtRest(w)
    ensures QuietStep(w, ClusterNext(w, CStep(x, i, r)))
  {
    if r == Ok {
      OkIsQuiet(w, x, i);
    } else {
      FailIsQuiet(w, r);
    }
  }

  lemma QuietStepAtRest(v: World, w: World)
    requires AtRest(v) && QuietStep(v, w)
    ensures AtRest(w) && Untouched(v, w)
  {
  }

  lemma RecordStepAtRest(w: World, a: Action)
    requires AtRest(w) && RecordAction(a)
    ensures AtRest(MemberWrite(w, a)) && Untouched(w, MemberWrite(w, a))
  {
    if a.n in w.api.mem {
      var mem, r := w.api.mem, FieldUpdate(w.api, w.etcd, a);
      assert SameRecord(mem[a.n], r);
      assert mem[a.n := r].Keys == mem.Keys;
    }
  }

  /** A step of a member worker that touches neither records nor etcd nor the cluster object. */
  ghost predicate WorkerOnly(v: World, w: World) {
    && w.cl == v.cl && w.api.mem == v.api.mem && w.etcd == v.etcd && w.cw == v.cw && QuietWorkers(w.mw)
  }

  lemma WorkerOnlyAtRest(v: World, w: World)
    requires AtRest(v) && WorkerOnly(v, w)
    ensures AtRest(w) && Untouched(v, w)
  {
  }

  lemma FinalizerIsIdle(w: World, a: Action)
    requires AllJoined(w.api.mem) && QuietWorkers(w.mw) && FinalizerAction(a)
    ensures WorkerOnly(w, FinalizerNext(w, a))
  {
  }

  lemma PodsJoin(w: World, a: Action)
    requires AllJoined(w.api.mem) && QuietWorkers(w.mw) && PodAction(a)
    ensures WorkerOnly(w, PodNext(w, a))
  {
  }

  lemma EnvironmentStepAtRest(w: World, a: Action)
    requires AtRest(w) && !UserAction(a)
    ensures AtRest(EnvironmentNext(w, a)) && Untouched(w, EnvironmentNext(w, a))
  {
  }

  lemma StepAtRest(w: World, a: Action)
    requires AtRest(w) && !UserAction(a)
    ensures AtRest(Next(w, a)) && Untouched(w, Next(w, a))
  {
    if a.CStart? {
      StartAtRest(w, a.pick);
    } else if a.CStep? {
      StepIsQuiet(w, a.x, a.i, a.r);
      QuietStepAtRest(w, Next(w, a));
    } else if FinalizerAction(a) {
      FinalizerIsIdle(w, a);
      WorkerOnlyAtRest(w, Next(w, a));
    } else if RecordAction(a) {
      RecordStepAtRest(w, a);
    } else if PodAction(a) {
      PodsJoin(w, a);
      WorkerOnlyAtRest(w, Next(w, a));
    } else if !a.CCrash? {
      EnvironmentStepAtRest(w, a);
    }
  }

  lemma UntouchedTransitive(u: World, v: World, w: World)
    requires Untouched(u, v) && Untouched(v, w)
    ensures Untouched(u, w)
  {
  }

  lemma {:induction false} RunAtRest(w: World, actions: seq<Action>)
    requires AtRest(w) && NoUser(actions)
    ensures AtRest(Run(w, actions)) && Untouched(w, Run(w, actions))
  {
    if actions != [] {
      var front, a := actions[..|actions| - 1], actions[|actions| - 1];
      RunAtRest(w, front);
      var v := Run(w, front);
      StepAtRest(v, a);
      UntouchedTransitive(w, v, Next(v, a));
    }
  }

  /**
   * For every legacy spec and every live member list with distinct names for which a plan
   * is made: from the hand-over on, whatever is Ready and however calls go, no reconcile
   * changes membership or re-adopts the spec until a user edits or deletes something.
   */
  lemma HandOverIsQuiet(l: Legacy, translated: Option<Spec>, peerTLS: bool, facts: Facts, plan: Plan, w: World,
                        actions: seq<Action>)
    requires IsPlan(l, translated, peerTLS, facts, plan) && HandedOver(plan, facts, w) && DistinctFacts(facts.members)
    requires NoUser(actions)
    ensures Untouched(w, Run(w, actions))
  {
    HandOverAtRest(l, translated, peerTLS, facts, plan, w);
    RunAtRest(w, actions);
  }

  /**
   * The condition is exact: two live members of one name become one record, and the first
   * reconcile of a Ready cluster sets out to scale up.
   */
  lemma QuietExactlyWhenDistinct(l: Legacy, translated: Option<Spec>, peerTLS: bool, facts: Facts, plan: Plan, w: World,
                                 pick: Name)
    requires IsPlan(l, translated, peerTLS, facts, plan) && HandedOver(plan, facts, w)
    requires facts.clusterID.Some? && AllReady(w.api.mem)
    ensures QuietCtl(Decide(Reads(w), pick)) <==> DistinctFacts(facts.members)
    ensures !DistinctFacts(facts.members) ==> Decide(Reads(w), pick) == JoinList
  {
    if DistinctFacts(facts.members) {
      HandOverAtRest(l, translated, peerTLS, facts, plan, w);
      DecideAtRest(w, pick);
    } else {
      RecordsJoined(l, translated, peerTLS, facts, plan, w);
      PlannedNames(l, translated, peerTLS, facts, plan);
      NameCount(facts.members);
      ScaleUpWhenShort(w, pick);
    }
  }

  lemma ScaleUpWhenShort(w: World, pick: Name)
    requires forall n :: n in w.api.mem ==> Joined(w.api.mem[n])
    requires w.cl.status.token != "" && w.cl.status.deadline == None && w.cl.status.clusterID.Some?
    requires w.cl.status.observed.Some? && |w.api.mem.Keys| < w.cl.status.observed.value.replicas && AllReady(w.api.mem)
    ensures Decide(Reads(w), pick) == JoinList
  {
    var list := w.api.mem;
    assert Running(list) == list.Keys;
    assert PendingIn(list) == {} && DormantIn(list) == {} && !Terminating(list);
  }

  // ---- Two live voters of one name ----

  const TwinLegacy: Legacy := Legacy("c", "ns", "", "")
  const TwinSpec: Spec := Spec(Some(2), "3.6", Storage(1, "", ""), "", false, None)
  const TwinMembers: seq<Fact> :=
    [Fact("a", 1, "http://a:2380", false, "u1"), Fact("a", 2, "http://b:2380", false, "u2")]
  const TwinFacts: Facts := Facts(Some(7), TwinMembers)

  function TwinPlan(flag: string): Plan {
    Adopt(TwinSpec, false, AdoptedStatus(TwinLegacy, TwinSpec, TwinFacts),
          [AdoptedOf(TwinLegacy, flag, TwinMembers[0]), AdoptedOf(TwinLegacy, flag, TwinMembers[1])],
          Retired("c", "c" + "-cluster-state", "c", HeadlessName(TwinLegacy), ClientName(TwinLegacy)))
  }

  function TwinWorld(flag: string): World {
    var status := AdoptedStatus(TwinLegacy, TwinSpec, TwinFacts);
    World(ClusterObject(TwinSpec, 0, status, false), 0,
          Records(map["a" := Member(0, false, FlagNames(flag), false, false, true, Some(1), true, true)], {"a"}, 1, map[]),
          Etcd(map[1 := Entry("a", false), 2 := Entry("a", false)], 3, 7, EtcdAuth(false, false, false, false)),
          ClusterWorker(Idle, Snap(TwinSpec, 0, status, map[], 0), 0), MemberWorkers(map[], map[]))
  }

  lemma TwinsArePlanned()
    ensures IsPlan(TwinLegacy, Some(TwinSpec), false, TwinFacts, TwinPlan(IC.Join(FactParts(TwinMembers))))
  {
    var plan := TwinPlan(IC.Join(FactParts(TwinMembers)));
    StringLeqTotal("a", "a");
    assert SortedFacts(TwinMembers) && MembersOf(TwinLegacy, TwinMembers, plan.members);
    forall m | m in TwinMembers ensures !AdvertisesTLS(m) {
      assert m.peerURL[4] != "https://"[4];
    }
  }

  lemma TwinsAreHandedOver(flag: string)
    ensures HandedOver(TwinPlan(flag), TwinFacts, TwinWorld(flag)) && AllReady(TwinWorld(flag).api.mem)
  {
    var plan, w := TwinPlan(flag), TwinWorld(flag);
    assert PlanNames(plan.members) == {"a"} by {
      assert plan.members[0].name == "a";
    }
    assert plan.members[0] in plan.members && RecordOf(plan.members[0], w.api.mem["a"]);
    TwinsAreFound(w.etcd);
  }

  lemma TwinsAreFound(etcd: Etcd)
    requires etcd.list == map[1 := Entry("a", false), 2 := Entry("a", false)] && etcd.nextId == 3 && !etcd.auth.byOperator
    ensures EtcdAsFound(TwinFacts, etcd)
  {
    assert TwinMembers[0] in TwinFacts.members && TwinMembers[1] in TwinFacts.members;
  }

  /** It can happen: two live voters named "a" are both planned, and only one record can bear the name. */
  lemma SharedMemberName() returns (l: Legacy, translated: Option<Spec>, facts: Facts, plan: Plan, w: World)
    ensures IsPlan(l, translated, false, facts, plan) && HandedOver(plan, facts, w)
    ensures facts.clusterID.Some? && AllReady(w.api.mem) && !DistinctFacts(facts.members)
    ensures forall pick :: Decide(Reads(w), pick) == JoinList
  {
    var flag := IC.Join(FactParts(TwinMembers));
    l, translated, facts, plan, w := TwinLegacy, Some(TwinSpec), TwinFacts, TwinPlan(flag), TwinWorld(flag);
    TwinsArePlanned();
    TwinsAreHandedOver(flag);
    assert facts.members[0].name == facts.members[1].name;
    forall pick ensures Decide(Reads(w), pick) == JoinList {
      QuietExactlyWhenDistinct(l, translated, false, facts, plan, w, pick);
    }
  }
}
