/**
 * EtcdClusterReconciler as it runs: loops over the listed members that pick the
 * next step, and the sequence of interactions that carries it out while other
 * workers and users act in between.
 */
module ClusterController {
  import opened Base
  import opened Membership
  import MI = MembershipInvariant
  import MW = MembershipWorker

  // ---- Searching a listing ----

  ghost predicate Distinct(s: seq<Name>) {
    forall i, j :: 0 <= i < j < |s| ==> s[i] != s[j]
  }

  /** The names of a listing, in the order the API server returned them. */
  ghost predicate Lists(order: seq<Name>, list: Listing) {
    Distinct(order) && forall n :: n in order <==> n in list
  }

  lemma {:induction false} DistinctSize(s: seq<Name>, t: set<Name>)
    requires Distinct(s) && forall n :: n in s <==> n in t
    ensures |s| == |t|
  {
    if s == [] {
      assert t == {};
    } else {
      var n := |s| - 1;
      forall x ensures x in s[..n] <==> x in t - {s[n]} {
        if x in s[..n] {
          var i :| 0 <= i < n && s[..n][i] == x;
          assert s[i] == x;
        }
      }
      DistinctSize(s[..n], t - {s[n]});
    }
  }

  method FilterRunning(list: Listing, order: seq<Name>) returns (running: seq<Name>)
    requires Lists(order, list)
    ensures Distinct(running) && (forall n :: n in running <==> n in Running(list)) && |running| == |Running(list)|
  {
    running := [];
    for i := 0 to |order|
      invariant Distinct(running)
      invariant forall n :: n in running <==> n in order[..i] && n in Running(list)
    {
      var m := list[order[i]];
      assert order[..i + 1] == order[..i] + [order[i]];
      if !m.deleting && !m.dormant {
        assert order[i] !in order[..i];
        running := running + [order[i]];
      }
    }
    assert order[..|order|] == order;
    DistinctSize(running, Running(list));
  }

  method FindDormant(list: Listing, order: seq<Name>) returns (found: Option<Name>)
    requires Lists(order, list)
    ensures if found.Some? then found.value in DormantIn(list) else DormantIn(list) == {}
  {
    for i := 0 to |order|
      invariant forall j :: 0 <= j < i ==> order[j] !in DormantIn(list)
    {
      var m := list[order[i]];
      if !m.deleting && m.dormant {
        return Some(order[i]);
      }
    }
    found := None;
  }

  method FindPending(list: Listing, running: seq<Name>) returns (found: Option<Name>)
    requires forall n :: n in running <==> n in Running(list)
    ensures if found.Some? then found.value in PendingIn(list) else PendingIn(list) == {}
  {
    for i := 0 to |running|
      invariant forall j :: 0 <= j < i ==> running[j] !in PendingIn(list)
    {
      assert running[i] in Running(list);
      if Pending(list[running[i]]) {
        return Some(running[i]);
      }
    }
    found := None;
  }

  method FindSeed(list: Listing, running: seq<Name>) returns (found: Option<Name>)
    requires forall n :: n in running <==> n in Running(list)
    ensures if found.Some? then found.value in SeedsIn(list) else SeedsIn(list) == {}
  {
    for i := 0 to |running|
      invariant forall j :: 0 <= j < i ==> running[j] !in SeedsIn(list)
    {
      assert running[i] in Running(list);
      if list[running[i]].bootstrap {
        return Some(running[i]);
      }
    }
    found := None;
  }

  method HasPendingBootstrap(list: Listing, running: seq<Name>) returns (r: bool)
    requires forall n :: n in running <==> n in Running(list)
    ensures r <==> PendingBootstrap(list)
  {
    for i := 0 to |running|
      invariant forall j :: 0 <= j < i ==> !(running[j] in SeedsIn(list) && list[running[j]].initialCluster == {})
    {
      assert running[i] in Running(list);
      if list[running[i]].bootstrap && list[running[i]].initialCluster == {} {
        assert running[i] in SeedsIn(list);
        return true;
      }
    }
    r := false;
  }

  method AllMembersReady(list: Listing, running: seq<Name>) returns (r: bool)
    requires forall n :: n in running <==> n in Running(list)
    ensures r <==> AllReady(list)
  {
    for i := 0 to |running|
      invariant forall j :: 0 <= j < i ==> running[j] in list && list[running[j]].ready
    {
      assert running[i] in Running(list);
      if !list[running[i]].ready {
        return false;
      }
    }
    r := true;
  }

  method HasDeleting(list: Listing, order: seq<Name>) returns (r: bool)
    requires Lists(order, list)
    ensures r <==> Terminating(list)
  {
    for i := 0 to |order|
      invariant forall j :: 0 <= j < i ==> !list[order[j]].deleting
    {
      if list[order[i]].deleting {
        return true;
      }
    }
    r := false;
  }

  lemma NewerTotal(list: Listing, a: Name, b: Name)
    requires a in list && b in list
    ensures Newer(list, a, b) || Newer(list, b, a)
  {
    StringLeqTotal(a, b);
  }

  lemma NewerTransitive(list: Listing, a: Name, b: Name, c: Name)
    requires a in list && b in list && c in list && Newer(list, a, b) && Newer(list, b, c)
    ensures Newer(list, a, c)
  {
    if list[a].created == list[b].created == list[c].created {
      StringLeqTransitive(c, b, a);
    }
  }

  /** The head of the newest-first order that scaleDown sorts by. */
  method Newest(list: Listing, running: seq<Name>) returns (v: Name)
    requires (forall n :: n in running <==> n in Running(list)) && running != []
    ensures IsVictim(list, v)
  {
    var best := 0;
    assert running[0] in Running(list);
    NewerTotal(list, running[0], running[0]);
    for i := 1 to |running|
      invariant 0 <= best < i && running[best] in list
      invariant forall j :: 0 <= j < i ==> running[j] in list && Newer(list, running[best], running[j])
    {
      assert running[i] in Running(list);
      NewerTotal(list, running[i], running[i]);
      NewerTotal(list, running[i], running[best]);
      if !Newer(list, running[best], running[i]) {
        forall j | 0 <= j < i ensures Newer(list, running[i], running[j]) {
          NewerTransitive(list, running[i], running[best], running[j]);
        }
        best := i;
      }
    }
    v := running[best];
  }

  // ---- Deciding ----

  method IsComplete(st: Status, list: Listing, running: seq<Name>) returns (r: bool)
    requires (forall n :: n in running <==> n in Running(list)) && |running| == |Running(list)|
    ensures r <==> Complete(st, list)
  {
    if st.observed.None? || |running| != st.observed.value.replicas {
      return false;
    }
    if st.observed.value.replicas > 0 && st.clusterID.None? {
      return false;
    }
    r := AllMembersReady(list, running);
  }

  method ChooseBootstrap(s: Snap, running: seq<Name>) returns (c: Ctl, pick: Name)
    requires s.status.observed.Some? && (forall n :: n in running <==> n in Running(s.list))
    ensures c == DecideBootstrap(s, pick)
  {
    pick := "";
    if s.status.observed.value.replicas == 0 {
      return Finish(false), pick;
    }
    var seed := FindSeed(s.list, running);
    var pending := HasPendingBootstrap(s.list, running);
    assert running == [] <==> Running(s.list) == {} by {
      if running != [] { assert running[0] in Running(s.list); }
      assert Running(s.list) != {} ==> exists n :: n in Running(s.list);
    }
    if |running| == 0 || pending {
      if seed.None? {
        return SeedCreate, pick;
      }
      pick := seed.value;
      if s.list[pick].initialCluster == {} {
        return SeedPatch(pick), pick;
      }
      return Idle, pick;
    }
    if seed.Some? {
      pick := seed.value;
      if s.list[pick].pod {
        return Discover(pick), pick;
      }
      return Idle, pick;
    }
    c := Idle;
  }

  method ChooseScaleUp(s: Snap, order: seq<Name>) returns (c: Ctl, pick: Name)
    requires Lists(order, s.list)
    ensures c == DecideScaleUp(s, pick)
  {
    var dormant := FindDormant(s.list, order);
    match dormant
    case Some(n) => return Wake(n), n;
    case None => return JoinList, "";
  }

  method ChooseScaleDown(s: Snap, running: seq<Name>) returns (c: Ctl, pick: Name)
    requires s.status.observed.Some? && running != []
    requires (forall n :: n in running <==> n in Running(s.list)) && |running| == |Running(s.list)|
    ensures c == DecideScaleDown(s, pick)
  {
    pick := Newest(s.list, running);
    if s.status.observed.value.replicas == 0 && |running| == 1 {
      return Park(pick), pick;
    }
    c := ScaleDelete(pick);
  }

  method ChooseScale(s: Snap, order: seq<Name>, running: seq<Name>) returns (c: Ctl, pick: Name)
    requires Lists(order, s.list) && s.status.observed.Some?
    requires (forall n :: n in running <==> n in Running(s.list)) && |running| == |Running(s.list)|
    ensures c == DecideScale(s, pick)
  {
    var desired, current := s.status.observed.value.replicas, |running|;
    pick := "";
    var deleting := HasDeleting(s.list, order);
    if deleting {
      return Idle, pick;
    }
    var pending := FindPending(s.list, running);
    if pending.Some? {
      c, pick := ChooseScaleUp(s, order);
      return;
    }
    var ready := AllMembersReady(s.list, running);
    if current < desired {
      var dormant := FindDormant(s.list, order);
      if dormant.None? && !ready {
        return Idle, pick;
      }
      c, pick := ChooseScaleUp(s, order);
      return;
    }
    if current > desired {
      c, pick := ChooseScaleDown(s, running);
      return;
    }
    if current > 0 {
      return SteadyList, pick;
    }
    c := AuthOrFinish(s);
  }

  /** Reconcile up to its first interaction after the reads; the answer is one that Decide allows. */
  method Choose(s: Snap, order: seq<Name>) returns (c: Ctl, pick: Name)
    requires Lists(order, s.list)
    ensures c == Decide(s, pick)
  {
    var st := s.status;
    pick := "";
    if st.token == "" || st.observed.None? {
      return WriteStatus(InitStatus(s), s.gen), pick;
    }
    var running := FilterRunning(s.list, order);
    var complete := IsComplete(st, s.list, running);
    if !complete && Expired(st, s.at) {
      if st.clusterID.None? || SpecEqualsObserved(s.spec, st.observed) {
        return Idle, pick;
      }
      return WriteStatus(AdoptSpec(st, s), s.gen), pick;
    }
    if complete && !SpecEqualsObserved(s.spec, st.observed) {
      return WriteStatus(AdoptSpec(st, s), s.gen), pick;
    }
    if st.clusterID.None? {
      c, pick := ChooseBootstrap(s, running);
      return;
    }
    c, pick := ChooseScale(s, order, running);
  }

  // ---- Carrying it out ----

  /** What happens around one interaction: others act, then it fails, goes through, or the process dies. */
  datatype Turn = Turn(others: seq<Action>, x: Name, i: Id, r: Reply, dies: bool)

  /** How many interactions a reconcile can still make from a control point. */
  function Rank(c: Ctl): nat {
    match c
    case Idle => 0
    case WriteStatus(_, _) => 1
    case SeedCreate => 2
    case SeedPatch(_) => 1
    case Discover(_) => 2
    case Wake(_) => 1
    case JoinList => 4
    case JoinCreate => 3
    case JoinAdd(_) => 2
    case JoinPatch(_, _) => 1
    case Promote(_, steady) => if steady then 2 else 1
    case ScaleDelete(_) => 1
    case Park(_) => 1
    case SteadyList => 7
    case AuthProbe => 6
    case AuthUser => 5
    case AuthGrant => 4
    case AuthEnable => 3
    case AuthLatch => 2
    case Finish(_) => 1
  }

  lemma OkAdvances(w: World, x: Name, i: Id)
    requires w.cw.ctl != Idle
    ensures Rank(ClusterOk(w, x, i).cw.ctl) < Rank(w.cw.ctl)
  {
  }

  lemma FailAdvances(w: World, r: Reply)
    requires w.cw.ctl != Idle
    ensures Rank(ClusterFail(w, r).cw.ctl) < Rank(w.cw.ctl)
  {
  }

  lemma OthersKeepWorker(w: World, a: Action)
    requires !ClusterAction(a)
    ensures Next(w, a).cw == w.cw
  {
  }

  class Reconciler {
    var w: World
    ghost const start: World
    ghost var trace: seq<Action>

    constructor (w: World)
      ensures Valid() && this.w == w == start && trace == []
    {
      this.w, this.start, this.trace := w, w, [];
    }

    /** What the stores hold is what the actions so far have made of them. */
    ghost predicate Valid()
      reads this
    {
      w == Run(start, trace)
    }

    method Perform(a: Action)
      requires Valid()
      modifies this
      ensures Valid() && w == Next(old(w), a) && trace == old(trace) + [a]
    {
      RunSnoc(start, trace, a);
      w := Next(w, a);
      trace := trace + [a];
    }

    method Interfere(others: seq<Action>)
      requires Valid() && forall k :: 0 <= k < |others| ==> !ClusterAction(others[k])
      modifies this
      ensures Valid() && w.cw == old(w.cw) && trace == old(trace) + others
    {
      for k := 0 to |others|
        invariant Valid() && w.cw == old(w.cw) && trace == old(trace) + others[..k]
      {
        OthersKeepWorker(w, others[k]);
        Perform(others[k]);
      }
    }

    ghost predicate Extends(before: seq<Action>)
      reads this
    {
      before <= trace
    }

    /** The reads, and the choice they lead to. */
    method Begin(order: seq<Name>)
      requires Valid() && Lists(order, w.api.mem) && w.cw.ctl == Idle
      modifies this
      ensures Valid() && Extends(old(trace)) && Rank(w.cw.ctl) <= 7
    {
      if !w.cl.deleting {
        var c, pick := Choose(Reads(w), order);
        Perform(CStart(pick));
        assert w.cw.ctl == c;
      }
    }

    /** One interaction. */
    method Interact(t: Turn)
      requires Valid() && w.cw.ctl != Idle && forall j :: 0 <= j < |t.others| ==> !ClusterAction(t.others[j])
      modifies this
      ensures Valid() && Extends(old(trace)) && Rank(w.cw.ctl) < Rank(old(w.cw.ctl))
    {
      Interfere(t.others);
      OkAdvances(w, t.x, t.i);
      FailAdvances(w, t.r);
      Perform(CStep(t.x, t.i, t.r));
    }

    /**
     * One reconcile: it chooses from what it reads, and every interaction it makes, with
     * whatever others do in between, is a step of the protocol.  It makes at most seven and
     * leaves the worker idle; so from a start state the protocol's invariant holds at its end.
     */
    method Reconcile(order: seq<Name>, turns: seq<Turn>) returns (interactions: nat)
      requires Valid() && MI.Init(start) && Lists(order, w.api.mem) && w.cw.ctl == Idle
      requires forall k, j :: 0 <= k < |turns| && 0 <= j < |turns[k].others| ==> !ClusterAction(turns[k].others[j])
      modifies this
      ensures Valid() && MI.Inv(w) && w.cw.ctl == Idle
      ensures interactions <= 7 && Extends(old(trace))
    {
      interactions := 0;
      Begin(order);
      while w.cw.ctl != Idle
        invariant Valid() && interactions <= |turns| && interactions + Rank(w.cw.ctl) <= 7 && Extends(old(trace))
        decreases Rank(w.cw.ctl)
      {
        if interactions == |turns| || turns[interactions].dies {
          Perform(CCrash);
          break;
        }
        Interact(turns[interactions]);
        interactions := interactions + 1;
      }
      MW.RunInv(start, trace);
    }
  }
}
