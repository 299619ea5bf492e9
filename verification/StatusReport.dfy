/**
 * The cluster status report: member counts, the Available, Degraded and
 * Progressing conditions, and the progress deadline.
 *
 * The report is specified by a function on values.  The class at the end is the
 * controller's in-place computation, proved to produce exactly that value and to
 * ask for an API write exactly when something changed.
 */
module StatusReport {
  import opened Base

  type Time = nat

  datatype Kind = Available | Degraded | Progressing | OtherKind(name: string)

  datatype Reason =
    | Paused | QuorumHealthy | QuorumAvailable | QuorumLost | MembersUnhealthy | Reconciled | OtherReason(name: string)

  datatype Message =
    | NoMessage
    | AllReady
    | ReadyRatio(ready: nat, desired: nat)
    | LostRatio(ready: nat, desired: nat)
    | DataLost
    | DataKept(member: string)
    | NoData
    | Settled
    | OtherMessage(text: string)

  /** What a caller asks a condition to say. */
  datatype Claim = Claim(kind: Kind, status: bool, reason: Reason, message: Message, generation: nat)

  datatype Condition = Condition(claim: Claim, since: Time)

  datatype Member = Member(name: string, dormant: bool, onMemory: bool, ready: bool, voter: bool, broken: bool)

  /** The parts of the cluster object that the report reads and never writes. */
  datatype Target = Target(name: string, generation: nat, replicas: nat, clusterIdSet: bool)

  datatype Report = Report(conditions: seq<Condition>, ready: nat, broken: nat, selector: string, deadline: Option<Time>)

  // ---- Conditions ----

  function IndexOf(cs: seq<Condition>, kind: Kind): (i: nat)
    ensures i <= |cs|
    ensures i < |cs| ==> cs[i].claim.kind == kind
    ensures forall j :: 0 <= j < i ==> cs[j].claim.kind != kind
  {
    if cs == [] || cs[0].claim.kind == kind then 0 else 1 + IndexOf(cs[1..], kind)
  }

  function Find(cs: seq<Condition>, kind: Kind): Option<Condition> {
    var i := IndexOf(cs, kind);
    if i < |cs| then Some(cs[i]) else None
  }

  predicate IsTrue(cs: seq<Condition>, kind: Kind) {
    Find(cs, kind).Some? && Find(cs, kind).value.claim.status
  }

  predicate Says(cs: seq<Condition>, c: Claim) {
    Find(cs, c.kind).Some? && Find(cs, c.kind).value.claim == c
  }

  /** The condition list once it says c; the transition time moves only when the status flips. */
  function Said(cs: seq<Condition>, c: Claim, now: Time): seq<Condition> {
    var i := IndexOf(cs, c.kind);
    if i == |cs| then cs + [Condition(c, now)]
    else cs[i := Condition(c, if cs[i].claim.status == c.status then cs[i].since else now)]
  }

  lemma IndexIs(cs: seq<Condition>, kind: Kind, i: nat)
    requires i <= |cs| && (i < |cs| ==> cs[i].claim.kind == kind)
    requires forall j :: 0 <= j < i ==> cs[j].claim.kind != kind
    ensures IndexOf(cs, kind) == i
  {
  }

  /** Saying c makes the list say it, moves no other condition, and leaves alone a list that said it already. */
  lemma SaidEffect(cs: seq<Condition>, c: Claim, now: Time)
    ensures Says(Said(cs, c, now), c)
    ensures forall k :: k != c.kind ==> Find(Said(cs, c, now), k) == Find(cs, k)
    ensures Said(cs, c, now) == cs <==> Says(cs, c)
  {
    var i := IndexOf(cs, c.kind);
    var ds := Said(cs, c, now);
    IndexIs(ds, c.kind, i);
    forall k | k != c.kind ensures Find(ds, k) == Find(cs, k) {
      var j := IndexOf(cs, k);
      if j < |cs| {
        IndexIs(ds, k, j);
      } else {
        IndexIs(ds, k, |ds|);
      }
    }
  }

  lemma SinceMovesOnFlip(cs: seq<Condition>, c: Claim, now: Time)
    requires Find(cs, c.kind).Some?
    ensures var was, next := Find(cs, c.kind).value, Find(Said(cs, c, now), c.kind);
            next.Some? && next.value.since == if was.claim.status == c.status then was.since else now
  {
    IndexIs(Said(cs, c, now), c.kind, IndexOf(cs, c.kind));
  }

  // ---- What the report says ----

  function Running(ms: seq<Member>): seq<Member> {
    if ms == [] then []
    else
      var rest := Running(ms[..|ms| - 1]);
      if ms[|ms| - 1].dormant then rest else rest + [ms[|ms| - 1]]
  }

  function Dormant(ms: seq<Member>): Option<Member> {
    if ms == [] then None else if ms[0].dormant then Some(ms[0]) else Dormant(ms[1..])
  }

  function Count(ms: seq<Member>, p: Member -> bool): (n: nat)
    ensures n <= |ms|
  {
    if ms == [] then 0 else Count(ms[..|ms| - 1], p) + if p(ms[|ms| - 1]) then 1 else 0
  }

  predicate IsReady(m: Member) { m.ready }
  predicate IsVoter(m: Member) { m.voter }
  predicate IsReadyVoter(m: Member) { m.voter && m.ready }
  predicate IsBroken(m: Member) { m.broken }

  function Ready(ms: seq<Member>): nat { Count(Running(ms), IsReady) }
  function Voters(ms: seq<Member>): nat { Count(Running(ms), IsVoter) }
  function ReadyVoters(ms: seq<Member>): nat { Count(Running(ms), IsReadyVoter) }
  function Broken(ms: seq<Member>): nat { Count(Running(ms), IsBroken) }

  predicate Complete(t: Target, running: seq<Member>) {
    && |running| == t.replicas
    && (t.replicas > 0 ==> t.clusterIdSet)
    && forall i :: 0 <= i < |running| ==> running[i].ready
  }

  function PausedMessage(dormant: Option<Member>): Message {
    match dormant
    case None => NoData
    case Some(m) => if m.onMemory then DataLost else DataKept(m.name)
  }

  /** Available and Degraded as the health switch words them. */
  function Health(t: Target, ms: seq<Member>): (Claim, Claim) {
    var ready := Ready(ms);
    if t.replicas == 0 then
      (Claim(Available, false, Paused, PausedMessage(Dormant(ms)), t.generation),
       Claim(Degraded, false, Paused, NoMessage, t.generation))
    else if ready == t.replicas then
      (Claim(Available, true, QuorumHealthy, AllReady, t.generation),
       Claim(Degraded, false, QuorumHealthy, NoMessage, t.generation))
    else if ready > t.replicas / 2 then
      (Claim(Available, true, QuorumAvailable, ReadyRatio(ready, t.replicas), t.generation),
       Claim(Degraded, true, MembersUnhealthy, ReadyRatio(ready, t.replicas), t.generation))
    else
      (Claim(Available, false, QuorumLost, LostRatio(ready, t.replicas), t.generation),
       Claim(Degraded, true, QuorumLost, NoMessage, t.generation))
  }

  /** A bootstrap or scale step is in flight and every established voter is Ready. */
  predicate Withheld(t: Target, cs: seq<Condition>, ms: seq<Member>) {
    && t.replicas > 0
    && Voters(ms) > 0 && ReadyVoters(ms) == Voters(ms)
    && IsTrue(cs, Progressing)
    && !Complete(t, Running(ms))
  }

  function HealthSaid(t: Target, cs: seq<Condition>, ms: seq<Member>, now: Time): seq<Condition> {
    if Withheld(t, cs, ms) then cs
    else Said(Said(cs, Health(t, ms).0, now), Health(t, ms).1, now)
  }

  predicate Settles(t: Target, ms: seq<Member>, pending: bool) {
    t.replicas == 0 || (!pending && Complete(t, Running(ms)))
  }

  function SettledClaim(t: Target): Claim {
    if t.replicas == 0 then Claim(Progressing, false, Paused, NoMessage, t.generation)
    else Claim(Progressing, false, Reconciled, Settled, t.generation)
  }

  const ClusterLabel: string := "etcd-operator.cozystack.io/cluster"

  function SelectorOf(t: Target): string {
    ClusterLabel + "=" + t.name
  }

  function ConditionsOf(t: Target, cs: seq<Condition>, ms: seq<Member>, pending: bool, now: Time): seq<Condition> {
    var ds := HealthSaid(t, cs, ms, now);
    if Settles(t, ms, pending) then Said(ds, SettledClaim(t), now) else ds
  }

  /** The report after one pass of updateStatus; `pending` is an outstanding promote or auth retry. */
  function Updated(t: Target, r: Report, ms: seq<Member>, pending: bool, now: Time): Report {
    Report(ConditionsOf(t, r.conditions, ms, pending, now), Ready(ms), Broken(ms), SelectorOf(t),
           if Settles(t, ms, pending) then None else r.deadline)
  }

  // ---- Promises ----

  lemma HealthEffect(t: Target, cs: seq<Condition>, ms: seq<Member>, now: Time)
    requires !Withheld(t, cs, ms)
    ensures var ds := HealthSaid(t, cs, ms, now);
            && Says(ds, Health(t, ms).0) && Says(ds, Health(t, ms).1)
            && forall k :: k != Available && k != Degraded ==> Find(ds, k) == Find(cs, k)
    ensures HealthSaid(t, cs, ms, now) == cs <==> Says(cs, Health(t, ms).0) && Says(cs, Health(t, ms).1)
  {
    var (a, d) := Health(t, ms);
    var mid := Said(cs, a, now);
    SaidEffect(cs, a, now);
    SaidEffect(mid, d, now);
    if Said(mid, d, now) == cs {
      assert Find(mid, Available) == Find(cs, Available);
    }
  }

  /** The conditions after one pass. */
  lemma ConditionsAfter(t: Target, r: Report, ms: seq<Member>, pending: bool, now: Time)
    ensures var ds := Updated(t, r, ms, pending, now).conditions;
            && (!Withheld(t, r.conditions, ms) ==> Says(ds, Health(t, ms).0) && Says(ds, Health(t, ms).1))
            && (Withheld(t, r.conditions, ms) ==>
                  Find(ds, Available) == Find(r.conditions, Available) && Find(ds, Degraded) == Find(r.conditions, Degraded))
            && (Settles(t, ms, pending) ==> Says(ds, SettledClaim(t)))
            && (!Settles(t, ms, pending) ==> Find(ds, Progressing) == Find(r.conditions, Progressing))
            && forall k: Kind :: k.OtherKind? ==> Find(ds, k) == Find(r.conditions, k)
  {
    if !Withheld(t, r.conditions, ms) {
      HealthEffect(t, r.conditions, ms, now);
    }
    SaidEffect(HealthSaid(t, r.conditions, ms, now), SettledClaim(t), now);
  }

  /** A second pass over the same members and pending result changes nothing, however late it comes. */
  lemma ReportIsFixedPoint(t: Target, r: Report, ms: seq<Member>, pending: bool, now: Time, later: Time)
    ensures var once := Updated(t, r, ms, pending, now); Updated(t, once, ms, pending, later) == once
  {
    var once := Updated(t, r, ms, pending, now);
    ConditionsAfter(t, r, ms, pending, now);
    assert Withheld(t, once.conditions, ms) <==> Withheld(t, r.conditions, ms);
    if !Withheld(t, once.conditions, ms) {
      HealthEffect(t, once.conditions, ms, later);
    }
    SaidEffect(once.conditions, SettledClaim(t), later);
  }

  /**
   * On a cluster that should have members, either the health verdict is withheld
   * and every known voter is Ready, or Available is exactly "the Ready members
   * are a majority of the target" and Degraded exactly "ready is not desired".
   */
  lemma HealthIsTruthful(t: Target, r: Report, ms: seq<Member>, pending: bool, now: Time)
    requires t.replicas > 0
    ensures var next := Updated(t, r, ms, pending, now);
            if Withheld(t, r.conditions, ms) then
              && (forall m :: m in ms && !m.dormant && m.voter ==> m.ready)
              && (exists m :: m in ms && !m.dormant && m.voter)
              && Find(next.conditions, Available) == Find(r.conditions, Available)
              && Find(next.conditions, Degraded) == Find(r.conditions, Degraded)
            else
              && Find(next.conditions, Available).Some? && Find(next.conditions, Degraded).Some?
              && (IsTrue(next.conditions, Available) <==> 2 * next.ready > t.replicas)
              && (IsTrue(next.conditions, Degraded) <==> next.ready != t.replicas)
  {
    ConditionsAfter(t, r, ms, pending, now);
    if Withheld(t, r.conditions, ms) {
      AllVotersReady(Running(ms));
      RunningMembers(ms);
    }
  }

  /** Settled is claimed, and the deadline dropped, exactly when nothing is pending and the target is met. */
  lemma SettledExactly(t: Target, r: Report, ms: seq<Member>, pending: bool, now: Time)
    requires t.replicas > 0
    ensures var next := Updated(t, r, ms, pending, now);
            if !pending && Complete(t, Running(ms)) then
              Says(next.conditions, SettledClaim(t)) && next.deadline == None
            else
              Find(next.conditions, Progressing) == Find(r.conditions, Progressing) && next.deadline == r.deadline
  {
    ConditionsAfter(t, r, ms, pending, now);
  }

  /** A paused cluster never claims to be available, degraded, progressing or against a deadline. */
  lemma PausedIsQuiet(t: Target, r: Report, ms: seq<Member>, pending: bool, now: Time)
    requires t.replicas == 0
    ensures var next := Updated(t, r, ms, pending, now);
            && next.deadline == None
            && !IsTrue(next.conditions, Available) && !IsTrue(next.conditions, Degraded) && !IsTrue(next.conditions, Progressing)
  {
    ConditionsAfter(t, r, ms, pending, now);
  }

  lemma {:induction false} AllVotersReady(ms: seq<Member>)
    ensures Count(ms, IsReadyVoter) <= Count(ms, IsVoter)
    ensures Count(ms, IsReadyVoter) == Count(ms, IsVoter) <==>
            forall m :: m in ms && m.voter ==> m.ready
    ensures Count(ms, IsVoter) > 0 <==> exists m :: m in ms && m.voter
  {
    if ms != [] {
      var last := |ms| - 1;
      AllVotersReady(ms[..last]);
      assert ms == ms[..last] + [ms[last]];
    }
  }

  lemma {:induction false} RunningMembers(ms: seq<Member>)
    ensures forall m :: m in Running(ms) <==> m in ms && !m.dormant
  {
    if ms != [] {
      RunningMembers(ms[..|ms| - 1]);
      assert ms == ms[..|ms| - 1] + [ms[|ms| - 1]];
    }
  }

  // ---- The controller's computation ----

  class ClusterStatus {
    const target: Target
    var conditions: seq<Condition>
    var readyMembers: nat
    var brokenMembers: nat
    var selector: string
    var progressDeadline: Option<Time>

    constructor (target: Target, r: Report)
      ensures this.target == target && Value() == r
    {
      this.target := target;
      conditions, readyMembers, brokenMembers := r.conditions, r.ready, r.broken;
      selector, progressDeadline := r.selector, r.deadline;
    }

    ghost function Value(): Report
      reads this
    {
      Report(conditions, readyMembers, brokenMembers, selector, progressDeadline)
    }

    /** setCondition: overwrite in place or append. */
    method SetCondition(c: Claim, now: Time)
      modifies this`conditions
      ensures conditions == Said(old(conditions), c, now)
    {
      var i := 0;
      while i < |conditions|
        invariant 0 <= i <= |conditions| && conditions == old(conditions)
        invariant forall j :: 0 <= j < i ==> conditions[j].claim.kind != c.kind
      {
        if conditions[i].claim.kind == c.kind {
          var since := if conditions[i].claim.status == c.status then conditions[i].since else now;
          IndexIs(conditions, c.kind, i);
          conditions := conditions[i := Condition(c, since)];
          return;
        }
        i := i + 1;
      }
      IndexIs(conditions, c.kind, i);
      conditions := conditions + [Condition(c, now)];
    }

    /** setClusterCondition: write only what differs, and say whether anything did. */
    method SetClusterCondition(c: Claim, now: Time) returns (changed: bool)
      modifies this`conditions
      ensures conditions == Said(old(conditions), c, now)
      ensures changed <==> conditions != old(conditions)
    {
      SaidEffect(conditions, c, now);
      var i := 0;
      while i < |conditions|
        invariant 0 <= i <= |conditions| && conditions == old(conditions)
        invariant forall j :: 0 <= j < i ==> conditions[j].claim.kind != c.kind
      {
        if conditions[i].claim.kind == c.kind {
          IndexIs(conditions, c.kind, i);
          if conditions[i].claim == c {
            return false;
          }
          break;
        }
        i := i + 1;
      }
      if i == |conditions| {
        IndexIs(conditions, c.kind, i);
      }
      SetCondition(c, now);
      changed := true;
    }

    /** The verdicts of the health switch, in the order the controller writes them. */
    method SetHealth(ms: seq<Member>, ready: nat, progressing: bool, now: Time) returns (changed: bool)
      requires ready == Ready(ms) && (progressing <==> Withheld(target, conditions, ms))
      modifies this`conditions
      ensures conditions == HealthSaid(target, old(conditions), ms, now)
      ensures changed <==> conditions != old(conditions)
    {
      if progressing {
        return false;
      }
      HealthEffect(target, conditions, ms, now);
      SaidEffect(conditions, Health(target, ms).0, now);
      var g := target.generation;
      var a, d;
      if target.replicas == 0 {
        var message := NoData;
        var dormant := FindDormant(ms);
        if dormant.Some? {
          message := if dormant.value.onMemory then DataLost else DataKept(dormant.value.name);
        }
        a := SetClusterCondition(Claim(Available, false, Paused, message, g), now);
        d := SetClusterCondition(Claim(Degraded, false, Paused, NoMessage, g), now);
      } else if ready == target.replicas {
        a := SetClusterCondition(Claim(Available, true, QuorumHealthy, AllReady, g), now);
        d := SetClusterCondition(Claim(Degraded, false, QuorumHealthy, NoMessage, g), now);
      } else if ready > target.replicas / 2 {
        var message := ReadyRatio(ready, target.replicas);
        a := SetClusterCondition(Claim(Available, true, QuorumAvailable, message, g), now);
        d := SetClusterCondition(Claim(Degraded, true, MembersUnhealthy, message, g), now);
      } else {
        a := SetClusterCondition(Claim(Available, false, QuorumLost, LostRatio(ready, target.replicas), g), now);
        d := SetClusterCondition(Claim(Degraded, true, QuorumLost, NoMessage, g), now);
      }
      changed := a || d;
    }

    /** The Reconciled stamp and the deadline it clears. */
    method Settle(settles: bool, now: Time) returns (changed: bool)
      modifies this`conditions, this`progressDeadline
      ensures conditions == if settles then Said(old(conditions), SettledClaim(target), now) else old(conditions)
      ensures progressDeadline == if settles then None else old(progressDeadline)
      ensures changed <==> conditions != old(conditions) || progressDeadline != old(progressDeadline)
    {
      changed := false;
      if settles {
        changed := SetClusterCondition(SettledClaim(target), now);
        if progressDeadline.Some? {
          progressDeadline, changed := None, true;
        }
      }
    }

    /** The conditions and the deadline. */
    method UpdateConditions(ms: seq<Member>, running: seq<Member>, ready: nat, votersHealthy: bool, pending: bool, now: Time)
      returns (changed: bool)
      requires running == Running(ms) && ready == Ready(ms)
      requires votersHealthy <==> Voters(ms) > 0 && ReadyVoters(ms) == Voters(ms)
      modifies this`conditions, this`progressDeadline
      ensures conditions == ConditionsOf(target, old(conditions), ms, pending, now)
      ensures progressDeadline == if Settles(target, ms, pending) then None else old(progressDeadline)
      ensures changed <==> conditions != old(conditions) || progressDeadline != old(progressDeadline)
    {
      var complete := IsComplete(target, running);
      var progressing := IsProgressing(conditions);
      NoUndoing(target, conditions, ms, now);
      changed := SetHealth(ms, ready, target.replicas != 0 && votersHealthy && progressing && !complete, now);
      var settledChanged := Settle(target.replicas == 0 || (!pending && complete), now);
      changed := changed || settledChanged;
    }

    /** updateStatus; the result says whether the controller writes the object back. */
    method UpdateStatus(ms: seq<Member>, pending: bool, now: Time) returns (changed: bool)
      modifies this
      ensures Value() == Updated(target, old(Value()), ms, pending, now)
      ensures changed <==> Value() != old(Value())
    {
      var running := FilterRunning(ms);
      var ready, voters, readyVoters, broken := CountMembers(running);
      var countChanged := false;
      if readyMembers != ready {
        readyMembers, countChanged := ready, true;
      }
      var wantSelector := SelectorOf(target);
      if selector != wantSelector {
        selector, countChanged := wantSelector, true;
      }
      changed := UpdateConditions(ms, running, ready, voters > 0 && readyVoters == voters, pending, now);
      if brokenMembers != broken {
        brokenMembers, countChanged := broken, true;
      }
      changed := changed || countChanged;
    }
  }

  /** The settled stamp cannot undo what the health switch wrote. */
  lemma NoUndoing(t: Target, cs: seq<Condition>, ms: seq<Member>, now: Time)
    ensures var ds := HealthSaid(t, cs, ms, now); Said(ds, SettledClaim(t), now) == cs ==> ds == cs
  {
    var ds := HealthSaid(t, cs, ms, now);
    SaidEffect(ds, SettledClaim(t), now);
    if !Withheld(t, cs, ms) {
      HealthEffect(t, cs, ms, now);
    }
  }

  method FilterRunning(ms: seq<Member>) returns (running: seq<Member>)
    ensures running == Running(ms)
  {
    running := [];
    for i := 0 to |ms|
      invariant running == Running(ms[..i])
    {
      assert ms[..i + 1][..i] == ms[..i];
      if !ms[i].dormant {
        running := running + [ms[i]];
      }
    }
    assert ms[..|ms|] == ms;
  }

  method FindDormant(ms: seq<Member>) returns (m: Option<Member>)
    ensures m == Dormant(ms)
  {
    for i := 0 to |ms|
      invariant Dormant(ms) == Dormant(ms[i..])
    {
      if ms[i].dormant {
        return Some(ms[i]);
      }
      assert ms[i..][1..] == ms[i + 1..];
    }
    m := None;
  }

  method CountMembers(running: seq<Member>) returns (ready: nat, voters: nat, readyVoters: nat, broken: nat)
    ensures ready == Count(running, IsReady)
    ensures voters == Count(running, IsVoter)
    ensures readyVoters == Count(running, IsReadyVoter)
    ensures broken == Count(running, IsBroken)
  {
    ready, voters, readyVoters, broken := 0, 0, 0, 0;
    for i := 0 to |running|
      invariant ready == Count(running[..i], IsReady)
      invariant voters == Count(running[..i], IsVoter)
      invariant readyVoters == Count(running[..i], IsReadyVoter)
      invariant broken == Count(running[..i], IsBroken)
    {
      var m := running[i];
      assert running[..i + 1][..i] == running[..i];
      if m.ready { ready := ready + 1; }
      if m.voter {
        voters := voters + 1;
        if m.ready { readyVoters := readyVoters + 1; }
      }
      if m.broken { broken := broken + 1; }
    }
    assert running[..|running|] == running;
  }

  method IsComplete(t: Target, running: seq<Member>) returns (r: bool)
    ensures r <==> Complete(t, running)
  {
    if |running| != t.replicas {
      return false;
    }
    if t.replicas > 0 && !t.clusterIdSet {
      return false;
    }
    for i := 0 to |running|
      invariant forall j :: 0 <= j < i ==> running[j].ready
    {
      if !running[i].ready {
        return false;
      }
    }
    r := true;
  }

  method IsProgressing(cs: seq<Condition>) returns (r: bool)
    ensures r <==> IsTrue(cs, Progressing)
  {
    for i := 0 to |cs|
      invariant forall j :: 0 <= j < i ==> cs[j].claim.kind != Progressing
    {
      if cs[i].claim.kind == Progressing {
        IndexIs(cs, Progressing, i);
        return cs[i].claim.status;
      }
    }
    IndexIs(cs, Progressing, |cs|);
    r := false;
  }
}
